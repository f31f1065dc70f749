// What a builder gets from the cache, whatever other builders and cleaners do between its steps: its
// bucket back if the record is valid, a new one if there is none, and a refusal otherwise.
module BuildCacheBuilders {
  import opened Options
  import opened BuildCache
  import opened BuildCacheSafety

  // The event is a step of another process: any but p's own, and any exit of a child.
  predicate Foreign(p: Pid, ev: Event) {
    ev.Tick? || ev.ChildExit? || ev.pid != p
  }

  predicate AllForeign(p: Pid, es: seq<Event>) {
    forall ev | ev in es :: Foreign(p, ev)
  }

  // From s to t, process p has not moved, and its bucket and its staging directory are as they were.
  predicate Undisturbed(s: Cache, t: Cache, p: Pid) {
    && t.project == s.project && ProcessOf(t, p) == ProcessOf(s, p)
    && (Target(ProcessOf(s, p)).Some? ==> SameAt(s, t, Target(ProcessOf(s, p)).value))
    && (ProcessOf(s, p).Staging? ==> SameAt(s, t, ProcessOf(s, p).staging))
  }

  lemma ForeignMoves(s: Cache, ev: Event, p: Pid)
    requires Foreign(p, ev)
    ensures ProcessOf(Next(s, ev), p) == ProcessOf(s, p) && Next(s, ev).project == s.project
  {
    match ev
    case Prepare(q, step) => PrepareMoves(s, q, step, p);
    case Use(q, step) => UseMoves(s, q, step, p);
    case Clean(q, step) => CleanMoves(s, q, step, p);
    case _ =>
  }

  lemma UseMoves(s: Cache, q: Pid, step: UseStep, p: Pid)
    requires q != p
    ensures ProcessOf(Used(s, q, step), p) == ProcessOf(s, p) && Used(s, q, step).project == s.project
  {
  }

  lemma CleanMoves(s: Cache, q: Pid, step: CleanStep, p: Pid)
    requires q != p
    ensures ProcessOf(Cleaned(s, q, step), p) == ProcessOf(s, p) && Cleaned(s, q, step).project == s.project
  {
  }

  lemma PrepareMoves(s: Cache, q: Pid, step: PrepareStep, p: Pid)
    requires q != p
    ensures ProcessOf(Prepared(s, q, step), p) == ProcessOf(s, p) && Prepared(s, q, step).project == s.project
  {
  }

  // Two processes have different targets.
  lemma ElsewhereLocked(s: Cache, p: Pid, q: Pid)
    requires LocksHold(s) && p != q && Target(ProcessOf(s, p)).Some?
    ensures Target(ProcessOf(s, q)) != Target(ProcessOf(s, p))
  {
    var e := Target(ProcessOf(s, p)).value;
    HolderIsAlone(s, p, e);
    assert Target(ProcessOf(s, q)) == Some(e) ==> Parent(q) in Holders(s, e);
  }

  lemma PrepareElsewhere(s: Cache, q: Pid, step: PrepareStep, e: Entry)
    requires ProcessesHold(s) && BucketName(e.key) && Target(ProcessOf(s, q)) != Some(e)
    ensures SameAt(s, Prepared(s, q, step), e)
  {
    if e in s.buckets {
      StagerIsElsewhere(s, q, e);
      PrepareStagesItsOwn(s, q, step, e);
    } else {
      PrepareMakesNothing(s, q, step, e);
    }
  }

  lemma PrepareMakesNothing(s: Cache, q: Pid, step: PrepareStep, e: Entry)
    requires ProcessesHold(s) && BucketName(e.key) && Target(ProcessOf(s, q)) != Some(e) && e !in s.buckets
    ensures e !in Prepared(s, q, step).buckets
  {
    if step.Inspect? && ProcessOf(s, q).Locked? && StagingName(ProcessOf(s, q).entry, step.staging) {
      StagingIsNoBucket(ProcessOf(s, q).entry, step.staging);
    }
  }

  lemma UseMakesNothing(s: Cache, q: Pid, step: UseStep, e: Entry)
    requires e !in s.buckets
    ensures e !in Used(s, q, step).buckets
  {
  }

  lemma CleanMakesNothing(s: Cache, q: Pid, step: CleanStep, e: Entry)
    requires e !in s.buckets
    ensures e !in Cleaned(s, q, step).buckets
  {
  }

  lemma ForeignElsewhere(s: Cache, ev: Event, p: Pid, e: Entry)
    requires Inv(s) && Foreign(p, ev) && Target(ProcessOf(s, p)) == Some(e)
    ensures SameAt(s, Next(s, ev), e)
  {
    assert ProcessHolds(s, p, ProcessOf(s, p));
    if !ev.Tick? && ev.pid != p { ElsewhereLocked(s, p, ev.pid); }
    match ev
    case Prepare(q, step) => PrepareElsewhere(s, q, step, e);
    case Use(q, step) => if e in s.buckets { UseKeeps(s, q, step, e); } else { UseMakesNothing(s, q, step, e); }
    case Clean(q, step) => if e in s.buckets { CleanKeeps(s, q, step, e); } else { CleanMakesNothing(s, q, step, e); }
    case _ =>
  }

  lemma ForeignStaging(s: Cache, ev: Event, p: Pid)
    requires Inv(s) && Foreign(p, ev) && ProcessOf(s, p).Staging?
    ensures SameAt(s, Next(s, ev), ProcessOf(s, p).staging)
  {
    var x := ProcessOf(s, p);
    assert ProcessHolds(s, p, x);
    StagingIsNoBucket(x.entry, x.staging);
    if ev.ChildExit? {
      assert Next(s, ev).buckets == s.buckets;
    } else {
      StagingIsPrivate(s, ev, x.staging);
    }
  }

  lemma {:induction false} ForeignRun(s: Cache, es: seq<Event>, p: Pid)
    requires Inv(s) && AllForeign(p, es)
    ensures Inv(RunFrom(s, es)) && Undisturbed(s, RunFrom(s, es), p)
  {
    InvRun(s, es);
    if es != [] {
      var front, ev := es[..|es| - 1], es[|es| - 1];
      ForeignRun(s, front, p);
      var t := RunFrom(s, front);
      assert Foreign(p, ev);
      ForeignMoves(t, ev, p);
      if Target(ProcessOf(t, p)).Some? { ForeignElsewhere(t, ev, p, Target(ProcessOf(t, p)).value); }
      if ProcessOf(t, p).Staging? { ForeignStaging(t, ev, p); }
    }
  }

  // ----- Looking at the bucket -----

  // A record is valid exactly if it is one that a builder of this project writes for this entry, with
  // any time that is not negative.
  lemma ValidExactly(s: Cache, e: Entry, r: Record)
    ensures ValidRecord(r, s.project, e) <==>
              exists now: real | now >= 0.0 :: r == Record("winwincode-rust-build-v1", s.project, e.profile, e.key, Some(now))
  {
    if ValidRecord(r, s.project, e) {
      var now := r.lastUsed.value;
      assert r == Record("winwincode-rust-build-v1", s.project, e.profile, e.key, Some(now));
    }
  }

  // A builder is refused exactly if its bucket is there without a valid record; it takes over a bucket
  // with one, and starts a staging directory if there is none.
  lemma InspectExactly(s: Cache, p: Pid, e: Entry, now: real, staging: Entry)
    requires Reachable(s) && ProcessOf(s, p) == Locked(e, now)
    ensures var t := Next(s, Prepare(p, Inspect(staging)));
            && (ProcessOf(t, p) == Exited <==> e in s.buckets && !Valid(s, e, s.buckets[e]))
            && (ProcessOf(t, p) == Owned(e, now) <==> e in s.buckets && Valid(s, e, s.buckets[e]))
            && (ProcessOf(t, p) == Staging(e, now, staging) <==>
                  e !in s.buckets && staging !in s.buckets && StagingName(e, staging))
            && SameAt(s, t, e) && (ProcessOf(t, p) == Exited ==> Parent(p) !in Holders(t, e))
  {
    ReachableHolds(s);
    if StagingName(e, staging) {
      StagingIsNoBucket(e, staging);
      assert ProcessHolds(s, p, ProcessOf(s, p));
    }
  }

  // The builder is ready, with a usable bucket that records the time at which it took the lock.
  predicate ReadyWith(s: Cache, p: Pid, e: Entry, now: real) {
    ProcessOf(s, p) == Ready(e) && Usable(s, e) && s.buckets[e].record.value.lastUsed == Some(now)
  }

  lemma Refreshes(s: Cache, p: Pid, e: Entry, now: real)
    requires Inv(s) && ProcessOf(s, p) == Owned(e, now)
    ensures var t := Next(s, Prepare(p, Refresh));
            ProcessOf(t, p) == Refreshed(e) && e in t.buckets && Valid(t, e, t.buckets[e]) && t.buckets[e].record.value.lastUsed == Some(now)
  {
    assert ProcessHolds(s, p, ProcessOf(s, p));
  }

  lemma MakesReady(s: Cache, p: Pid, e: Entry, now: real)
    requires Inv(s) && ProcessOf(s, p) == Refreshed(e)
    requires e in s.buckets && Valid(s, e, s.buckets[e]) && s.buckets[e].record.value.lastUsed == Some(now)
    ensures ReadyWith(Next(s, Prepare(p, MakeBuild)), p, e, now)
  {
  }

  // From every reachable state a builder that has the lock of a bucket with a valid record gets that
  // bucket, whatever others do in between.
  lemma BucketIsReused(s: Cache, p: Pid, e: Entry, now: real, staging: Entry, es: seq<Event>, fs: seq<Event>)
    requires Reachable(s) && ProcessOf(s, p) == Locked(e, now) && e in s.buckets && Valid(s, e, s.buckets[e])
    requires AllForeign(p, es) && AllForeign(p, fs)
    ensures var owned := RunFrom(Next(s, Prepare(p, Inspect(staging))), es);
            var refreshed := RunFrom(Next(owned, Prepare(p, Refresh)), fs);
            ReadyWith(Next(refreshed, Prepare(p, MakeBuild)), p, e, now)
  {
    ReachableHolds(s);
    var a := Next(s, Prepare(p, Inspect(staging)));
    InvNext(s, Prepare(p, Inspect(staging)));
    ForeignRun(a, es, p);
    OwnedIsReady(RunFrom(a, es), p, e, now, fs);
  }

  lemma OwnedIsReady(s: Cache, p: Pid, e: Entry, now: real, fs: seq<Event>)
    requires Inv(s) && ProcessOf(s, p) == Owned(e, now) && AllForeign(p, fs)
    ensures ReadyWith(Next(RunFrom(Next(s, Prepare(p, Refresh)), fs), Prepare(p, MakeBuild)), p, e, now)
  {
    Refreshes(s, p, e, now);
    InvNext(s, Prepare(p, Refresh));
    ForeignRun(Next(s, Prepare(p, Refresh)), fs, p);
    MakesReady(RunFrom(Next(s, Prepare(p, Refresh)), fs), p, e, now);
  }

  // ----- A first build -----

  // The staging directory holds the record, and the build directory if `built`.
  predicate Staged(s: Cache, p: Pid, e: Entry, now: real, staging: Entry, built: bool) {
    && ProcessOf(s, p) == Staging(e, now, staging) && staging in s.buckets
    && s.buckets[staging] == Bucket(Some(NewRecord(s, e, now)), built)
  }

  lemma StagesRecord(s: Cache, p: Pid, e: Entry, now: real, staging: Entry)
    requires Inv(s) && ProcessOf(s, p) == Staging(e, now, staging) && staging in s.buckets && s.buckets[staging] == Bucket(None, false)
    ensures Staged(Next(s, Prepare(p, StageRecord)), p, e, now, staging, false)
  {
  }

  lemma StagesBuild(s: Cache, p: Pid, e: Entry, now: real, staging: Entry)
    requires Inv(s) && Staged(s, p, e, now, staging, false)
    ensures Staged(Next(s, Prepare(p, StageBuild)), p, e, now, staging, true)
  {
  }

  lemma Publishes(s: Cache, p: Pid, e: Entry, now: real, staging: Entry)
    requires Inv(s) && Staged(s, p, e, now, staging, true)
    ensures var t := Next(s, Prepare(p, Publish)); ReadyWith(t, p, e, now) && staging !in t.buckets
  {
    assert ProcessHolds(s, p, ProcessOf(s, p));
    StagingIsNoBucket(e, staging);
  }

  lemma StagedStays(s: Cache, p: Pid, e: Entry, now: real, staging: Entry, built: bool, es: seq<Event>)
    requires Inv(s) && Staged(s, p, e, now, staging, built) && AllForeign(p, es)
    ensures Inv(RunFrom(s, es)) && Staged(RunFrom(s, es), p, e, now, staging, built)
  {
    ForeignRun(s, es, p);
  }

  // ... and a builder that has the lock of a key without a bucket makes the bucket.
  lemma BucketIsMade(s: Cache, p: Pid, e: Entry, now: real, staging: Entry, es: seq<Event>, fs: seq<Event>, gs: seq<Event>)
    requires Reachable(s) && ProcessOf(s, p) == Locked(e, now) && e !in s.buckets
    requires staging !in s.buckets && StagingName(e, staging)
    requires AllForeign(p, es) && AllForeign(p, fs) && AllForeign(p, gs)
    ensures var started := RunFrom(Next(s, Prepare(p, Inspect(staging))), es);
            var recorded := RunFrom(Next(started, Prepare(p, StageRecord)), fs);
            var built := RunFrom(Next(recorded, Prepare(p, StageBuild)), gs);
            var t := Next(built, Prepare(p, Publish));
            ReadyWith(t, p, e, now) && staging !in t.buckets
  {
    ReachableHolds(s);
    var a := Next(s, Prepare(p, Inspect(staging)));
    InvNext(s, Prepare(p, Inspect(staging)));
    ForeignRun(a, es, p);
    var b := RunFrom(a, es);
    StagesRecord(b, p, e, now, staging);
    InvNext(b, Prepare(p, StageRecord));
    StagedStays(Next(b, Prepare(p, StageRecord)), p, e, now, staging, false, fs);
    var c := RunFrom(Next(b, Prepare(p, StageRecord)), fs);
    StagesBuild(c, p, e, now, staging);
    InvNext(c, Prepare(p, StageBuild));
    StagedStays(Next(c, Prepare(p, StageBuild)), p, e, now, staging, true, gs);
    Publishes(RunFrom(Next(c, Prepare(p, StageBuild)), gs), p, e, now, staging);
  }

  // ----- Ending -----

  // The work of a builder ends with its use recorded at that time, and then the lock is let go of.
  lemma UseIsRecorded(s: Cache, p: Pid, e: Entry)
    requires Reachable(s) && ProcessOf(s, p) == Ending(e)
    ensures var t := Next(s, Use(p, RecordUse));
            && Usable(t, e) && t.buckets[e].record.value.lastUsed == Some(s.clock) && ProcessOf(t, p) == Ending(e)
            && var u := Next(t, Use(p, Unlock));
               Parent(p) !in Holders(u, e) && ProcessOf(u, p) == Scanning(s.clock) && u.buckets == t.buckets
  {
    ReachableHolds(s);
    assert ProcessHolds(s, p, ProcessOf(s, p));
  }

  // A builder that fails while preparing lets go of its lock and takes its staging directory with it.
  lemma FailureCleansUp(s: Cache, p: Pid, e: Entry)
    requires Reachable(s) && Target(ProcessOf(s, p)) == Some(e)
    requires ProcessOf(s, p).Locked? || ProcessOf(s, p).Owned? || ProcessOf(s, p).Refreshed? || ProcessOf(s, p).Staging?
    ensures var t := Next(s, Prepare(p, Fail));
            && ProcessOf(t, p) == Exited && Holders(t, e) == Holders(s, e) - {Parent(p)}
            && t.buckets == if ProcessOf(s, p).Staging? then s.buckets - {ProcessOf(s, p).staging} else s.buckets
  {
  }

  // Event ev leaves the staging directory f behind: its builder crashes.
  predicate Leaves(s: Cache, ev: Event, f: Entry) {
    ev.Crash? && Stages(s, ev.pid, f)
  }

  ghost predicate LeftIn(s: Cache, es: seq<Event>, f: Entry) {
    exists k | 0 <= k < |es| :: Leaves(RunFrom(s, es[..k]), es[k], f)
  }

  lemma PrepareKeepsStaging(s: Cache, p: Pid, step: PrepareStep, f: Entry)
    requires ProcessesHold(s) && !BucketName(f.key) && Stages(s, p, f) && f in Prepared(s, p, step).buckets
    ensures Stages(Prepared(s, p, step), p, f)
  {
    assert ProcessHolds(s, p, s.processes[p]);
  }

  lemma PrepareStartsStaging(s: Cache, p: Pid, step: PrepareStep, f: Entry)
    requires ProcessesHold(s) && !BucketName(f.key) && f !in s.buckets && f in Prepared(s, p, step).buckets
    ensures Stages(Prepared(s, p, step), p, f)
  {
    if p in s.processes { assert ProcessHolds(s, p, s.processes[p]); }
  }

  lemma StagesElsewhere(s: Cache, ev: Event, q: Pid, f: Entry)
    requires Stages(s, q, f) && Foreign(q, ev)
    ensures Stages(Next(s, ev), q, f)
  {
    ForeignMoves(s, ev, q);
  }

  lemma LitterStep(s: Cache, ev: Event, f: Entry)
    requires Inv(s) && !BucketName(f.key) && f in Next(s, ev).buckets && (f in s.buckets ==> exists q :: Stages(s, q, f))
    ensures (exists q :: Stages(Next(s, ev), q, f)) || Leaves(s, ev, f)
  {
    if f in s.buckets {
      var q :| Stages(s, q, f);
      if Foreign(q, ev) {
        StagesElsewhere(s, ev, q, f);
      } else {
        OwnLitter(s, ev, q, f);
      }
    } else {
      NewLitter(s, ev, f);
    }
  }

  lemma OwnLitter(s: Cache, ev: Event, q: Pid, f: Entry)
    requires ProcessesHold(s) && !BucketName(f.key) && Stages(s, q, f) && !Foreign(q, ev) && f in s.buckets && f in Next(s, ev).buckets
    ensures Stages(Next(s, ev), q, f) || Leaves(s, ev, f)
  {
    match ev
    case Prepare(_, step) => PrepareKeepsStaging(s, q, step, f);
    case _ =>
  }

  lemma NewLitter(s: Cache, ev: Event, f: Entry)
    requires ProcessesHold(s) && !BucketName(f.key) && f !in s.buckets && f in Next(s, ev).buckets
    ensures exists q :: Stages(Next(s, ev), q, f)
  {
    match ev
    case Prepare(p, step) => PrepareStartsStaging(s, p, step, f);
    case Use(p, step) => UseMakesNothing(s, p, step, f);
    case Clean(p, step) => CleanMakesNothing(s, p, step, f);
    case _ =>
  }

  lemma LeftInSnoc(s: Cache, es: seq<Event>, f: Entry)
    requires es != []
    ensures LeftIn(s, es[..|es| - 1], f) || Leaves(RunFrom(s, es[..|es| - 1]), es[|es| - 1], f) ==> LeftIn(s, es, f)
  {
    var front := es[..|es| - 1];
    if k :| 0 <= k < |front| && Leaves(RunFrom(s, front[..k]), front[k], f) {
      assert front[..k] == es[..k] && front[k] == es[k];
    }
  }

  // In every run: a staging directory that was not there before is some builder's, or was left behind
  // by a builder that crashed over it.
  lemma {:induction false} LitterOnlyByCrash(s: Cache, es: seq<Event>, f: Entry)
    requires Inv(s) && !BucketName(f.key) && f !in s.buckets && f in RunFrom(s, es).buckets
    ensures (exists q :: Stages(RunFrom(s, es), q, f)) || LeftIn(s, es, f)
  {
    if es != [] {
      var front, ev := es[..|es| - 1], es[|es| - 1];
      var t := RunFrom(s, front);
      InvRun(s, front);
      LeftInSnoc(s, es, f);
      if f in t.buckets { LitterOnlyByCrash(s, front, f); }
      if !LeftIn(s, front, f) { LitterStep(t, ev, f); }
    }
  }

  // ----- Cleaning -----

  // A cleaner with the lock goes on to remove the bucket exactly if its record is valid and at least
  // 24 hours older than the cleaner's start; otherwise it lets go of the lock and leaves the bucket.
  lemma CheckExactly(s: Cache, p: Pid, now: real, e: Entry)
    requires Reachable(s) && ProcessOf(s, p) == Checking(now, e)
    ensures var t := Next(s, Clean(p, Check));
            && t.buckets == s.buckets
            && (ProcessOf(t, p) == Removing(now, e) <==>
                  e in s.buckets && Valid(s, e, s.buckets[e]) && s.buckets[e].record.value.lastUsed.value + MAX_IDLE_SECONDS <= now)
            && (ProcessOf(t, p) == Removing(now, e) || (ProcessOf(t, p) == Scanning(now) && Holders(t, e) == {}))
  {
    ReachableHolds(s);
    assert ProcessHolds(s, p, ProcessOf(s, p));
  }

  // A bucket goes only when its record and its build directory have gone.
  lemma EmptyWhenGone(s: Cache, ev: Event, e: Entry)
    requires Reachable(s) && BucketName(e.key) && e in s.buckets && e !in Next(s, ev).buckets
    ensures s.buckets[e] == Bucket(None, false)
  {
    ReachableHolds(s);
    TakerIsRemover(s, ev, e);
    RemoverTakesEmpty(s, ev.pid, ev.clean, e);
  }

  lemma RemoverTakesEmpty(s: Cache, p: Pid, step: CleanStep, e: Entry)
    requires e in s.buckets && e !in Cleaned(s, p, step).buckets
    ensures s.buckets[e] == Bucket(None, false)
  {
  }

  // A removal that is not cut short takes the whole bucket and lets go of its lock.
  lemma RemovalCompletes(s: Cache, p: Pid, now: real, e: Entry)
    requires Reachable(s) && ProcessOf(s, p) == Removing(now, e)
    ensures var t := Next(Next(Next(s, Clean(p, RemoveRecord)), Clean(p, RemoveBuild)), Clean(p, RemoveBucket));
            e !in t.buckets && t.buckets == s.buckets - {e} && Holders(t, e) == {} && ProcessOf(t, p) == Scanning(now)
  {
    ReachableHolds(s);
    assert ProcessHolds(s, p, ProcessOf(s, p));
    Empties(s, p, now, e);
    var b := s.(buckets := s.buckets[e := Bucket(None, false)]);
    assert b.buckets - {e} == s.buckets - {e};
  }

  lemma Empties(s: Cache, p: Pid, now: real, e: Entry)
    requires ProcessOf(s, p) == Removing(now, e) && e in s.buckets
    ensures Next(Next(s, Clean(p, RemoveRecord)), Clean(p, RemoveBuild)) == s.(buckets := s.buckets[e := Bucket(None, false)])
  {
    var a := Next(s, Clean(p, RemoveRecord));
    assert a == s.(buckets := s.buckets[e := s.buckets[e].(record := None)]);
    assert a.buckets[e := Bucket(None, false)] == s.buckets[e := Bucket(None, false)];
  }
}
