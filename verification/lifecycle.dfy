/** The single chart instance of main.js (`chartInstance`): a nullable handle
    that is constructed once, then mutated in place, and destroyed when a
    dataset without numeric columns arrives. */
module ChartLifecycle {
  import opened Common

  /** A live bar chart: its identity and what it currently plots. */
  datatype Instance = Instance(id: nat, labels: seq<string>, seriesLabel: string, values: seq<int>)

  /** The handle, together with the number of charts ever constructed (also
      the identity the next one gets) and the identities of those not yet
      destroyed. */
  datatype Lifecycle = Lifecycle(handle: Option<Instance>, created: nat, live: set<nat>)

  const NoChart: Lifecycle := Lifecycle(None, 0, {})

  /** The handle holds the only live chart, or there is none. */
  predicate Valid(lc: Lifecycle) {
    match lc.handle
    case None => lc.live == {}
    case Some(c) => lc.live == {c.id} && c.id < lc.created
  }

  /** The create-or-mutate branch of `createOrUpdateChart`: construct a chart
      when the handle is empty, otherwise overwrite the existing chart's
      labels, series label and data. */
  function Build(lc: Lifecycle, labels: seq<string>, seriesLabel: string, values: seq<int>): (r: Lifecycle)
    ensures r.handle.Some?
    ensures r.handle.value.labels == labels && r.handle.value.seriesLabel == seriesLabel
    ensures r.handle.value.values == values
    ensures lc.handle.Some? ==> r.handle.value.id == lc.handle.value.id && r.created == lc.created && r.live == lc.live
    ensures lc.handle.None? ==> r.created == lc.created + 1 && r.handle.value.id == lc.created && r.live == lc.live + {lc.created}
    ensures Valid(lc) ==> Valid(r) && |r.live| == 1
  {
    match lc.handle
    case None =>
      Lifecycle(Some(Instance(lc.created, labels, seriesLabel, values)), lc.created + 1, lc.live + {lc.created})
    case Some(c) =>
      lc.(handle := Some(c.(labels := labels, seriesLabel := seriesLabel, values := values)))
  }

  /** `chartInstance.destroy(); chartInstance = null`, when there is one. */
  function Release(lc: Lifecycle): (r: Lifecycle)
    ensures r.handle.None? && r.created == lc.created
    ensures lc.handle.Some? ==> r.live == lc.live - {lc.handle.value.id}
    ensures lc.handle.None? ==> r == lc
    ensures Valid(lc) ==> Valid(r) && r.live == {}
  {
    match lc.handle
    case None => lc
    case Some(c) => Lifecycle(None, lc.created, lc.live - {c.id})
  }

  // ---------------------------------------------------------------------
  // Properties

  /** Building twice with the same data is building once: the second call
      constructs nothing and changes nothing. */
  lemma BuildIdempotent(lc: Lifecycle, labels: seq<string>, seriesLabel: string, values: seq<int>)
    ensures Build(Build(lc, labels, seriesLabel, values), labels, seriesLabel, values) == Build(lc, labels, seriesLabel, values)
  {
  }
}
