/** What every scenario driver reports to the reconciler. */
module Drivers {
  import opened ChaosApi
  import opened Cluster

  /** A panic unwinds the whole reconcile before any further write. */
  datatype Outcome = Injected(selected: seq<string>, injected: seq<string>) | InjectFailed | InjectPanicked

  /** Drivers write the in-memory status and the cluster; on an error both may be partly done. */
  datatype InjectStep = InjectStep(status: Status, resources: Resources, outcome: Outcome)

  datatype CleanupStep = CleanupStep(status: Status, resources: Resources, ok: bool)
}
