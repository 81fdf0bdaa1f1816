/** Progress samples of a running worker, as the sampler stores them and a pass reads them
    (internal/progress/progress.go, internal/controller/syncrep.go). */
module Samples {
  import opened Text

  /** Tables in scope, and those that hold a row on the target or none on the source. */
  datatype Counts = Counts(total: int, done: int)

  /** Target sessions that wait for a synchronous standby, and the oldest one's age. */
  datatype SyncRep = SyncRep(waiting: int, oldestSeconds: int)

  datatype Sample = Sample(
    copying: bool, finalizing: bool, copyStarted: bool, counts: Option<Counts>, syncRep: Option<SyncRep>)

  const SYNC_REP_THRESHOLD := 30

  /** A waiter at or over the threshold; unknown is never over. */
  predicate SyncRepOver(w: Option<SyncRep>) {
    w.Some? && w.value.waiting > 0 && w.value.oldestSeconds >= SYNC_REP_THRESHOLD
  }

  function WaitOf(s: Option<Sample>): Option<SyncRep> {
    if s.Some? then s.value.syncRep else None
  }

  /** What a pass is handed: the sample, when it started (0 before the first), whether this or an
      earlier sample of the run saw the copy start, and whether it confirms a SyncRep wait. */
  datatype Sampled = Sampled(sample: Option<Sample>, at: int, copySeen: bool, confirmed: bool)

  const NO_SAMPLE := Sampled(None, 0, false, false)
}
