// What the build cache promises over every run: who takes anything from a directory and when,
// and which buckets are left without a record.
module BuildCacheSafety {
  import opened Options
  import opened BuildCache

  // The step takes something from a directory: its record, its build directory or the whole of it.
  predicate Takes(s: Cache, t: Cache, e: Entry) {
    && e in s.buckets
    && (|| e !in t.buckets
        || (s.buckets[e].record.Some? && t.buckets[e].record.None?)
        || (s.buckets[e].build && !t.buckets[e].build))
  }

  predicate Removes(s: Cache, p: Pid, e: Entry) {
    p in s.processes && s.processes[p].Removing? && s.processes[p].entry == e
  }

  predicate Stages(s: Cache, p: Pid, staging: Entry) {
    p in s.processes && s.processes[p].Staging? && s.processes[p].staging == staging
  }

  // Nothing is ever taken from a directory except by the builder that staged it, or by a cleaner
  // that alone holds its lock and started 24 hours or more after its last recorded use.
  lemma TakenOnlyWhenIdleAndFree(s: Cache, ev: Event, e: Entry)
    requires Reachable(s) && Takes(s, Next(s, ev), e)
    ensures if BucketName(e.key)
            then ev.Clean? && Removes(s, ev.pid, e) && Holders(s, e) == {Parent(ev.pid)}
                 && e in s.uses && s.processes[ev.pid].now - s.uses[e] >= MAX_IDLE_SECONDS
            else ev.Prepare? && Stages(s, ev.pid, e)
  {
    ReachableHolds(s);
    if BucketName(e.key) {
      TakerIsRemover(s, ev, e);
      assert ProcessHolds(s, ev.pid, s.processes[ev.pid]);
    } else if ev.Tick? || !Stages(s, ev.pid, e) {
      StagingIsPrivate(s, ev, e);
    } else {
      StagerTakes(s, ev, e);
    }
  }

  lemma StagerTakes(s: Cache, ev: Event, e: Entry)
    requires !ev.Tick? && Stages(s, ev.pid, e) && Takes(s, Next(s, ev), e)
    ensures ev.Prepare?
  {
  }

  lemma TakerIsRemover(s: Cache, ev: Event, e: Entry)
    requires ProcessesHold(s) && BucketName(e.key) && Takes(s, Next(s, ev), e)
    ensures ev.Clean? && Removes(s, ev.pid, e)
  {
    match ev
    case Prepare(p, step) => PrepareTakesNothing(s, p, step, e);
    case Use(p, step) => UseTakesNothing(s, p, step, e);
    case Clean(p, step) => CleanTakes(s, p, step, e);
    case _ =>
  }

  lemma UseTakesNothing(s: Cache, p: Pid, step: UseStep, e: Entry)
    ensures !Takes(s, Used(s, p, step), e)
  {
  }

  lemma CleanTakes(s: Cache, p: Pid, step: CleanStep, e: Entry)
    requires Takes(s, Cleaned(s, p, step), e)
    ensures Removes(s, p, e)
  {
  }

  lemma PrepareTakesNothing(s: Cache, p: Pid, step: PrepareStep, e: Entry)
    requires ProcessesHold(s) && BucketName(e.key)
    ensures !Takes(s, Prepared(s, p, step), e)
  {
    StagerIsElsewhere(s, p, e);
  }

  lemma StagerIsElsewhere(s: Cache, p: Pid, e: Entry)
    requires ProcessesHold(s) && BucketName(e.key)
    ensures !Stages(s, p, e)
  {
    if Stages(s, p, e) {
      assert ProcessHolds(s, p, s.processes[p]);
      StagingIsNoBucket(s.processes[p].entry, e);
    }
  }

  // A directory that is not a bucket, lying among the buckets that cleaners scan, is changed by the
  // builder that is staging it and by nobody else; once that builder is gone, by nobody at all.
  lemma StagingIsPrivate(s: Cache, ev: Event, staging: Entry)
    requires Inv(s) && staging in s.buckets && !BucketName(staging.key)
    requires ev.Tick? || !Stages(s, ev.pid, staging)
    ensures SameAt(s, Next(s, ev), staging)
  {
    if !ev.Tick? && ev.pid in s.processes {
      assert ProcessHolds(s, ev.pid, s.processes[ev.pid]);
    }
    match ev
    case Prepare(p, step) => PrepareStagesItsOwn(s, p, step, staging);
    case Use(p, step) => UseKeeps(s, p, step, staging);
    case Clean(p, step) => CleanKeeps(s, p, step, staging);
    case _ =>
  }

  lemma PrepareStagesItsOwn(s: Cache, p: Pid, step: PrepareStep, f: Entry)
    requires f in s.buckets && !Stages(s, p, f) && Target(ProcessOf(s, p)) != Some(f)
    ensures SameAt(s, Prepared(s, p, step), f)
  {
  }

  lemma UseKeeps(s: Cache, p: Pid, step: UseStep, f: Entry)
    requires f in s.buckets && Target(ProcessOf(s, p)) != Some(f)
    ensures SameAt(s, Used(s, p, step), f)
  {
  }

  lemma CleanKeeps(s: Cache, p: Pid, step: CleanStep, f: Entry)
    requires f in s.buckets && Target(ProcessOf(s, p)) != Some(f)
    ensures SameAt(s, Cleaned(s, p, step), f)
  {
  }

  // A bucket stays usable from the moment its builder is ready until the builder and its child have
  // both let go of the lock, even if the builder crashes.
  lemma BucketUsableWhileBuilding(s: Cache, p: Pid, e: Entry)
    requires Reachable(s)
    requires ProcessOf(s, p) in {Ready(e), Building(e), Ending(e)} || Child(p) in Holders(s, e)
    ensures Usable(s, e)
  {
    ReachableHolds(s);
    if p in s.processes { assert ProcessHolds(s, p, s.processes[p]); }
  }

  // Two processes never work under one lock, but for a builder and its own child.
  lemma LocksAreExclusive(s: Cache, p: Pid, q: Pid)
    requires Reachable(s) && Target(ProcessOf(s, p)).Some? && Target(ProcessOf(s, p)) == Target(ProcessOf(s, q))
    ensures p == q
  {
    ReachableHolds(s);
    HolderIsAlone(s, p, Target(ProcessOf(s, p)).value);
    HolderIsAlone(s, q, Target(ProcessOf(s, q)).value);
  }

  // Publishing never meets an existing bucket, so a complete staging directory always gets its name.
  lemma PublishLands(s: Cache, p: Pid)
    requires Reachable(s) && ProcessOf(s, p).Staging?
    requires ProcessOf(s, p).staging in s.buckets && s.buckets[ProcessOf(s, p).staging].build
    ensures Usable(Next(s, Prepare(p, Publish)), ProcessOf(s, p).entry)
  {
    ReachableHolds(s);
    assert ProcessHolds(s, p, ProcessOf(s, p));
  }

  // ----- Buckets without a valid record -----

  predicate Unowned(s: Cache, e: Entry) {
    && e in s.buckets && !Valid(s, e, s.buckets[e])
    && (forall p | p in s.processes :: !Removes(s, p, e))
  }

  // From s to t the bucket stays as it is and nobody starts to remove it.
  predicate LeftAlone(s: Cache, t: Cache, e: Entry) {
    && t.project == s.project && SameAt(s, t, e)
    && (forall p | p in t.processes && Removes(t, p, e) :: Removes(s, p, e))
  }

  lemma LeftUnowned(s: Cache, t: Cache, e: Entry)
    requires Unowned(s, e) && LeftAlone(s, t, e)
    ensures Unowned(t, e) && t.buckets[e] == s.buckets[e]
  {
  }

  // A builder at such a bucket can only be about to refuse it.
  lemma UnownedLocked(s: Cache, p: Pid, e: Entry)
    requires ProcessesHold(s) && Unowned(s, e) && Target(ProcessOf(s, p)) == Some(e)
    ensures ProcessOf(s, p).Locked? || ProcessOf(s, p).Checking?
  {
    assert ProcessHolds(s, p, ProcessOf(s, p));
    assert !Removes(s, p, e);
  }

  lemma UnownedPrepare(s: Cache, p: Pid, step: PrepareStep, e: Entry)
    requires ProcessesHold(s) && BucketName(e.key) && Unowned(s, e)
    ensures LeftAlone(s, Prepared(s, p, step), e)
  {
    if Target(ProcessOf(s, p)) == Some(e) {
      UnownedLocked(s, p, e);
      UnownedRefused(s, p, step, e);
    } else {
      StagerIsElsewhere(s, p, e);
      PrepareStagesItsOwn(s, p, step, e);
    }
    forall q ensures Removes(Prepared(s, p, step), q, e) ==> Removes(s, q, e) { PrepareMakesNoRemover(s, p, step, q, e); }
  }

  lemma UnownedRefused(s: Cache, p: Pid, step: PrepareStep, e: Entry)
    requires Unowned(s, e) && Target(ProcessOf(s, p)) == Some(e) && (ProcessOf(s, p).Locked? || ProcessOf(s, p).Checking?)
    ensures SameAt(s, Prepared(s, p, step), e)
  {
  }

  lemma PrepareMakesNoRemover(s: Cache, p: Pid, step: PrepareStep, q: Pid, e: Entry)
    ensures Removes(Prepared(s, p, step), q, e) ==> Removes(s, q, e)
    ensures Prepared(s, p, step).project == s.project
  {
  }

  lemma UnownedUse(s: Cache, p: Pid, step: UseStep, e: Entry)
    requires ProcessesHold(s) && Unowned(s, e)
    ensures LeftAlone(s, Used(s, p, step), e)
  {
    if p in s.processes { assert ProcessHolds(s, p, s.processes[p]); }
  }

  lemma UnownedClean(s: Cache, p: Pid, step: CleanStep, e: Entry)
    requires Unowned(s, e)
    ensures LeftAlone(s, Cleaned(s, p, step), e)
  {
    UnownedKept(s, p, step, e);
    forall q ensures Removes(Cleaned(s, p, step), q, e) ==> Removes(s, q, e) { UnownedPassed(s, p, step, q, e); }
  }

  lemma UnownedKept(s: Cache, p: Pid, step: CleanStep, e: Entry)
    requires Unowned(s, e)
    ensures SameAt(s, Cleaned(s, p, step), e) && Cleaned(s, p, step).project == s.project
  {
    assert !Removes(s, p, e);
  }

  lemma UnownedPassed(s: Cache, p: Pid, step: CleanStep, q: Pid, e: Entry)
    requires Unowned(s, e)
    ensures Removes(Cleaned(s, p, step), q, e) ==> Removes(s, q, e)
  {
  }

  lemma UnownedCrash(s: Cache, p: Pid, e: Entry)
    requires Unowned(s, e)
    ensures LeftAlone(s, Crashed(s, p), e)
  {
    assert Crashed(s, p).buckets == s.buckets && Crashed(s, p).processes == s.processes[p := Exited];
  }

  lemma UnownedStep(s: Cache, ev: Event, e: Entry)
    requires ProcessesHold(s) && BucketName(e.key) && Unowned(s, e)
    ensures Unowned(Next(s, ev), e) && Next(s, ev).buckets[e] == s.buckets[e]
  {
    match ev {
      case Prepare(p, step) => UnownedPrepare(s, p, step, e);
      case Use(p, step) => UnownedUse(s, p, step, e);
      case Clean(p, step) => UnownedClean(s, p, step, e);
      case Crash(p) => UnownedCrash(s, p, e);
      case _ => assert Next(s, ev).processes == s.processes && Next(s, ev).buckets == s.buckets;
    }
    LeftUnowned(s, Next(s, ev), e);
  }

  // Such a bucket, whoever left it there, is never adopted, altered or removed.
  lemma {:induction false} UnownedStays(s: Cache, es: seq<Event>, e: Entry)
    requires Inv(s) && BucketName(e.key) && Unowned(s, e)
    ensures Unowned(RunFrom(s, es), e) && RunFrom(s, es).buckets[e] == s.buckets[e]
  {
    if es != [] {
      var front := es[..|es| - 1];
      UnownedStays(s, front, e);
      InvRun(s, front);
      UnownedStep(RunFrom(s, front), es[|es| - 1], e);
    }
  }

  // The removal of a bucket is cut short, by a crash of the cleaner or an error, after its record
  // has gone.
  predicate BadCut(s: Cache, ev: Event, e: Entry) {
    && (ev.Crash? || (ev.Clean? && ev.clean.RemoveError?))
    && Removes(s, ev.pid, e) && e in s.buckets && s.buckets[e].record.None?
  }

  lemma UntakenPrepare(s: Cache, p: Pid, step: PrepareStep, e: Entry)
    requires ProcessesHold(s) && BucketName(e.key) && !Unowned(s, e)
    ensures !Unowned(Prepared(s, p, step), e)
  {
    if q :| Removes(s, q, e) {
      PrepareLeavesRemovers(s, p, step, q, e);
    } else {
      StagerIsElsewhere(s, p, e);
      if p in s.processes { assert ProcessHolds(s, p, s.processes[p]); }
    }
  }

  lemma PrepareLeavesRemovers(s: Cache, p: Pid, step: PrepareStep, q: Pid, e: Entry)
    requires Removes(s, q, e)
    ensures Removes(Prepared(s, p, step), q, e)
  {
  }

  lemma UntakenUse(s: Cache, p: Pid, step: UseStep, e: Entry)
    requires ProcessesHold(s) && BucketsHold(s) && !Unowned(s, e)
    ensures !Unowned(Used(s, p, step), e)
  {
    if p in s.processes { assert ProcessHolds(s, p, s.processes[p]); }
    if q :| Removes(s, q, e) { assert Removes(Used(s, p, step), q, e); }
  }

  lemma UntakenClean(s: Cache, p: Pid, step: CleanStep, e: Entry)
    requires ProcessesHold(s) && !Unowned(s, e) && !BadCut(s, Clean(p, step), e)
    ensures !Unowned(Cleaned(s, p, step), e)
  {
    if q :| Removes(s, q, e) {
      assert ProcessHolds(s, q, s.processes[q]);
      RemoversClean(s, p, step, q, e);
    }
  }

  // A remover goes on until its bucket is gone, or stops while the record is still there.
  lemma RemoversClean(s: Cache, p: Pid, step: CleanStep, q: Pid, e: Entry)
    requires Removes(s, q, e) && !BadCut(s, Clean(p, step), e) && ProcessHolds(s, q, s.processes[q])
    ensures var t := Cleaned(s, p, step); Removes(t, q, e) || e !in t.buckets || Valid(t, e, t.buckets[e])
  {
  }

  lemma UntakenCrash(s: Cache, p: Pid, e: Entry)
    requires ProcessesHold(s) && !Unowned(s, e) && !BadCut(s, Crash(p), e)
    ensures !Unowned(Crashed(s, p), e)
  {
    if q :| Removes(s, q, e) {
      assert ProcessHolds(s, q, s.processes[q]);
      if q != p { assert Removes(Crashed(s, p), q, e); }
    }
  }

  lemma UntakenOther(s: Cache, ev: Event, e: Entry)
    requires !Unowned(s, e) && (ev.Tick? || ev.ChildExit?)
    ensures !Unowned(Next(s, ev), e)
  {
    if q :| Removes(s, q, e) { assert Removes(Next(s, ev), q, e); }
  }

  lemma CutLeavesUnowned(s: Cache, ev: Event, e: Entry)
    requires Inv(s) && BadCut(s, ev, e)
    ensures Unowned(Next(s, ev), e) && Next(s, ev).buckets == s.buckets
  {
    forall q ensures !Removes(Next(s, ev), q, e) {
      if Removes(s, q, e) { OneRemover(s, ev.pid, q, e); }
    }
  }

  lemma OneRemover(s: Cache, p: Pid, q: Pid, e: Entry)
    requires LocksHold(s) && Removes(s, p, e) && Removes(s, q, e)
    ensures p == q
  {
    HolderIsAlone(s, p, e);
    HolderIsAlone(s, q, e);
  }

  // One step leaves a bucket without a valid record exactly when it is such a cut.
  lemma UnownedExactly(s: Cache, ev: Event, e: Entry)
    requires Inv(s) && BucketName(e.key) && !Unowned(s, e)
    ensures Unowned(Next(s, ev), e) <==> BadCut(s, ev, e)
  {
    if BadCut(s, ev, e) {
      CutLeavesUnowned(s, ev, e);
    } else {
      match ev
      case Prepare(p, step) => UntakenPrepare(s, p, step, e);
      case Use(p, step) => UntakenUse(s, p, step, e);
      case Clean(p, step) => UntakenClean(s, p, step, e);
      case Crash(p) => UntakenCrash(s, p, e);
      case _ => UntakenOther(s, ev, e);
    }
  }

  ghost predicate CutIn(s: Cache, es: seq<Event>, e: Entry) {
    exists k :: 0 <= k < |es| && CutAt(s, es, k, e)
  }

  predicate CutAt(s: Cache, es: seq<Event>, k: nat, e: Entry)
    requires k < |es|
  {
    BadCut(RunFrom(s, es[..k]), es[k], e)
  }

  lemma CutInSnoc(s: Cache, es: seq<Event>, e: Entry)
    requires es != []
    ensures CutIn(s, es, e) <==> CutIn(s, es[..|es| - 1], e) || CutAt(s, es, |es| - 1, e)
  {
    var front := es[..|es| - 1];
    forall k: nat | k < |front| ensures CutAt(s, es, k, e) <==> CutAt(s, front, k, e) {
      assert front[..k] == es[..k];
    }
  }

  // In every run a bucket that was in order, or not there, ends up without a valid record if and
  // only if its removal was cut short after the record had gone.
  lemma {:induction false} RecordLostExactly(s: Cache, es: seq<Event>, e: Entry)
    requires Inv(s) && BucketName(e.key) && !Unowned(s, e)
    ensures Unowned(RunFrom(s, es), e) <==> CutIn(s, es, e)
  {
    if es != [] {
      var front := es[..|es| - 1];
      RecordLostExactly(s, front, e);
      CutInSnoc(s, es, e);
      InvRun(s, front);
      var before := RunFrom(s, front);
      if Unowned(before, e) {
        UnownedStep(before, es[|es| - 1], e);
      } else {
        UnownedExactly(before, es[|es| - 1], e);
      }
    }
  }

  // ... so that a bucket whose lock is free has a valid record if and only if there was no such cut.
  lemma RecordsStayValid(s: Cache, es: seq<Event>, e: Entry)
    requires Inv(s) && BucketName(e.key) && !Unowned(s, e)
    requires e in RunFrom(s, es).buckets && Holders(RunFrom(s, es), e) == {}
    ensures Valid(RunFrom(s, es), e, RunFrom(s, es).buckets[e]) <==> !CutIn(s, es, e)
  {
    RecordLostExactly(s, es, e);
    InvRun(s, es);
    FreeMeansUntaken(RunFrom(s, es), e);
  }

  lemma FreeMeansUntaken(t: Cache, e: Entry)
    requires Inv(t) && e in t.buckets && Holders(t, e) == {}
    ensures Unowned(t, e) <==> !Valid(t, e, t.buckets[e])
  {
    assert forall q | q in t.processes :: ProcessHolds(t, q, t.processes[q]);
  }

  // After such a cut nothing helps: every later builder of that key is refused.
  lemma CutRemovalIsForGood(s: Cache, ev: Event, e: Entry, es: seq<Event>, q: Pid, staging: Entry)
    requires Inv(s) && BucketName(e.key) && BadCut(s, ev, e)
    ensures var t := RunFrom(Next(s, ev), es);
            && Unowned(t, e) && t.buckets[e] == s.buckets[e]
            && (ProcessOf(t, q).Locked? && ProcessOf(t, q).entry == e ==>
                  ProcessOf(Next(t, Prepare(q, Inspect(staging))), q) == Exited)
  {
    InvNext(s, ev);
    CutLeavesUnowned(s, ev, e);
    UnownedStays(Next(s, ev), es, e);
  }
}
