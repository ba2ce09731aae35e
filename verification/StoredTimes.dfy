/** Which modification times the workspace store gives back, with the arithmetic the runtime does. */
module StoredTimes {
  import opened AgentFsTree
  import opened Doubles
  import opened Workspace

  import Timestamps

  /** Times are split and put together as `save` and `load` do it. */
  ghost predicate RuntimeTimes(meter: Meter) {
    && (forall m :: meter.split(m) == Stamp(Timestamps.Seconds(m), Timestamps.Nanos(m)))
    && (forall t :: meter.join(t) == Timestamps.Milliseconds(t.seconds, t.nanos))
  }

  /** A number of the runtime with which no product overflows. */
  predicate Number(mtime: real) {
    Double(mtime) && Abs(mtime) < Pow2(1022)
  }

  /** At least 99.4 days off 1970, or what a load returns for a second and a nanosecond in it. */
  ghost predicate Lasting(mtime: real) {
    Pow2(33) <= Abs(mtime) || Timestamps.Returned(mtime)
  }

  lemma SurvivesIffLasting(mtime: real, meter: Meter)
    requires RuntimeTimes(meter) && Number(mtime)
    ensures Survives(mtime, meter) <==> Lasting(mtime)
  {
    Timestamps.ComesBackIff(mtime);
    StoredTime(mtime, meter);
  }

  lemma StoredTime(mtime: real, meter: Meter)
    requires RuntimeTimes(meter)
    ensures meter.join(meter.split(mtime)) == Timestamps.Reloaded(mtime)
  {
    assert meter.split(mtime) == Stamp(Timestamps.Seconds(mtime), Timestamps.Nanos(mtime));
  }

  /** What is stored reads back as itself exactly when its times last. */
  lemma ListingComesBack(snapshot: Snapshot, meter: Meter)
    requires RuntimeTimes(meter) && forall p | p in snapshot :: snapshot[p].path == p && Number(snapshot[p].mtime)
    ensures Listing(FullWrite(snapshot, meter), meter) == snapshot
      <==> forall p | p in snapshot :: Lasting(snapshot[p].mtime)
  {
    forall p | p in snapshot ensures Survives(snapshot[p].mtime, meter) <==> Lasting(snapshot[p].mtime) {
      SurvivesIffLasting(snapshot[p].mtime, meter);
    }
    FullWriteListing(snapshot, meter);
  }

  /** A valid snapshot is loaded from the store as it was written exactly when its times last. */
  lemma SnapshotComesBack(snapshot: Snapshot, meter: Meter)
    requires RuntimeTimes(meter) && Valid(snapshot, meter) && forall p | p in snapshot :: Number(snapshot[p].mtime)
    ensures Loadable(FullWrite(snapshot, meter), meter) && Listing(FullWrite(snapshot, meter), meter) == snapshot
      <==> forall p | p in snapshot :: Lasting(snapshot[p].mtime)
  {
    ListingComesBack(snapshot, meter);
    FullWriteLoads(snapshot, meter);
  }
}
