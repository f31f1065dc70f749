// How long after its last use a bucket is removed. A cleaner only sees the use on record; work may
// have ended later, if the record was not written then.
module BuildCacheTimes {
  import opened Options
  import opened BuildCache
  import opened BuildCacheSafety

  // A cleaner takes from a bucket less than 24 hours, by its own start, after work on it ended.
  predicate TakesEarly(s: Cache, ev: Event, e: Entry) {
    && ev.Clean? && Removes(s, ev.pid, e) && Takes(s, Next(s, ev), e)
    && e in s.worked && s.processes[ev.pid].now - s.worked[e] < MAX_IDLE_SECONDS
  }

  // The last use on record is older than the last work.
  predicate Outworked(s: Cache, e: Entry) {
    e in s.uses && e in s.worked && s.uses[e] < s.worked[e]
  }

  lemma EarlyMeansOutworked(s: Cache, ev: Event, e: Entry)
    requires Inv(s) && TakesEarly(s, ev, e)
    ensures Outworked(s, e)
  {
    assert ProcessHolds(s, ev.pid, s.processes[ev.pid]);
  }

  // The bucket lies there with its record, and nobody has its lock.
  predicate Offered(s: Cache, e: Entry) {
    BucketName(e.key) && Holders(s, e) == {} && e in s.buckets && Valid(s, e, s.buckets[e])
  }

  // From s to t nobody recorded a use of the bucket or ended work on it.
  predicate Untouched(s: Cache, t: Cache, e: Entry) {
    && (e in s.uses <==> e in t.uses) && (e in s.uses ==> t.uses[e] == s.uses[e])
    && (e in s.worked <==> e in t.worked) && (e in s.worked ==> t.worked[e] == s.worked[e])
  }

  lemma UnstartedPid(s: Cache) returns (p: Pid)
    ensures p !in s.processes
  {
    p := Above(s.processes.Keys);
  }

  lemma {:induction false} Above(pids: set<Pid>) returns (bound: Pid)
    ensures forall p | p in pids :: p < bound
    decreases |pids|
  {
    if pids == {} {
      bound := 0;
    } else {
      var p :| p in pids;
      var rest := Above(pids - {p});
      bound := if rest <= p then p + 1 else rest;
      forall q | q in pids ensures q < bound { assert q != p ==> q in pids - {p}; }
    }
  }

  // A cleaner that starts now, goes straight for the bucket and removes its record.
  function Sweep(p: Pid, e: Entry): seq<Event> {
    [Clean(p, Scan), Clean(p, TryLock(e)), Clean(p, Check)]
  }

  lemma RunThree(s: Cache, a: Event, b: Event, c: Event)
    ensures RunFrom(s, [a, b, c]) == Next(Next(Next(s, a), b), c)
  {
    var es := [a, b, c];
    assert es[..2][..1] == es[..1] && es[..1][..0] == [];
    assert RunFrom(s, es[..1]) == Next(s, a);
    assert RunFrom(s, es[..2]) == Next(Next(s, a), b);
  }

  lemma ScanRemoves(s: Cache, p: Pid, now: real, e: Entry)
    requires ProcessOf(s, p) == Scanning(now) && Offered(s, e)
    requires now - s.buckets[e].record.value.lastUsed.value >= MAX_IDLE_SECONDS
    ensures var t := Next(Next(s, Clean(p, TryLock(e))), Clean(p, Check));
            && ProcessOf(t, p) == Removing(now, e) && t.uses == s.uses && t.worked == s.worked
            && Takes(t, Next(t, Clean(p, RemoveRecord)), e)
  {
    var locked := Next(s, Clean(p, TryLock(e)));
    assert ProcessOf(locked, p) == Checking(now, e) && locked.buckets == s.buckets;
  }

  lemma SweepRemoves(s: Cache, p: Pid, e: Entry)
    requires Inv(s) && Offered(s, e) && p !in s.processes && s.clock - s.uses[e] >= MAX_IDLE_SECONDS
    ensures var t := RunFrom(s, Sweep(p, e));
            && ProcessOf(t, p) == Removing(s.clock, e) && Untouched(s, t, e)
            && Takes(t, Next(t, Clean(p, RemoveRecord)), e)
  {
    RunThree(s, Clean(p, Scan), Clean(p, TryLock(e)), Clean(p, Check));
    var s1 := Next(s, Clean(p, Scan));
    assert ProcessOf(s1, p) == Scanning(s.clock) && Some(s.uses[e]) == s.buckets[e].record.value.lastUsed;
    ScanRemoves(s1, p, s.clock, e);
  }

  ghost predicate EarlyAfter(s: Cache, es: seq<Event>, p: Pid, e: Entry) {
    Untouched(s, RunFrom(s, es), e) && TakesEarly(RunFrom(s, es), Clean(p, RemoveRecord), e)
  }

  // A bucket that lies there can be removed less than 24 hours after its last use, without having
  // been used again, if and only if its record is older than that use.
  lemma EarlyRemovalExactly(s: Cache, e: Entry)
    requires Inv(s) && Offered(s, e)
    ensures (exists es, p :: EarlyAfter(s, es, p, e)) <==> Outworked(s, e)
  {
    if es, p :| EarlyAfter(s, es, p, e) { EarlyWasOutworked(s, es, p, e); }
    if Outworked(s, e) {
      assert s.uses[e] >= 0.0;
      var es, p := EarlyBySweep(s, e, s.uses[e] + MAX_IDLE_SECONDS);
    }
  }

  lemma EarlyWasOutworked(s: Cache, es: seq<Event>, p: Pid, e: Entry)
    requires Inv(s) && EarlyAfter(s, es, p, e)
    ensures Outworked(s, e)
  {
    InvRun(s, es);
    EarlyMeansOutworked(RunFrom(s, es), Clean(p, RemoveRecord), e);
  }

  lemma EarlyBySweep(s: Cache, e: Entry, time: real) returns (es: seq<Event>, p: Pid)
    requires Inv(s) && Offered(s, e) && Outworked(s, e) && 0.0 <= time
    requires s.uses[e] + MAX_IDLE_SECONDS <= time < s.worked[e] + MAX_IDLE_SECONDS
    ensures es == [Tick(time)] + Sweep(p, e) && EarlyAfter(s, es, p, e)
  {
    p := UnstartedPid(s);
    es := [Tick(time)] + Sweep(p, e);
    SweepAt(s, p, e, time);
  }

  // A cleaner that starts at the given time.
  lemma SweepAt(s: Cache, p: Pid, e: Entry, time: real)
    requires Inv(s) && Offered(s, e) && p !in s.processes && 0.0 <= time && time - s.uses[e] >= MAX_IDLE_SECONDS
    ensures var t := RunFrom(s, [Tick(time)] + Sweep(p, e));
            && ProcessOf(t, p) == Removing(time, e) && Untouched(s, t, e)
            && Takes(t, Next(t, Clean(p, RemoveRecord)), e)
  {
    InvNext(s, Tick(time));
    SweepRemoves(Next(s, Tick(time)), p, e);
    RunAfter(s, Tick(time), Sweep(p, e));
  }

  // With a clock that does not go back the removal has to come in time: a cleaner starts before 24
  // hours have passed since that work, or one that did is still about.
  function StartOf(x: Process): Option<real> {
    match x
    case Scanning(now) => Some(now)
    case Checking(now, _) => Some(now)
    case Removing(now, _) => Some(now)
    case _ => None
  }

  // A cleaner is about whose start lies 24 hours or more after the recorded use and less after the work.
  predicate LateStarter(s: Cache, p: Pid, e: Entry)
    requires e in s.uses && e in s.worked
  {
    && StartOf(ProcessOf(s, p)).Some?
    && s.uses[e] + MAX_IDLE_SECONDS <= StartOf(ProcessOf(s, p)).value < s.worked[e] + MAX_IDLE_SECONDS
  }

  ghost predicate InTime(s: Cache, e: Entry) {
    Outworked(s, e) && (s.clock < s.worked[e] + MAX_IDLE_SECONDS || exists p :: LateStarter(s, p, e))
  }

  // The clock does not go back.
  ghost predicate Forward(s: Cache, es: seq<Event>) {
    forall k | 0 <= k < |es| && es[k].Tick? :: RunFrom(s, es[..k]).clock <= es[k].time
  }

  lemma ForwardFront(s: Cache, es: seq<Event>)
    requires es != [] && Forward(s, es)
    ensures Forward(s, es[..|es| - 1])
    ensures es[|es| - 1].Tick? ==> RunFrom(s, es[..|es| - 1]).clock <= es[|es| - 1].time
  {
    var front := es[..|es| - 1];
    forall k | 0 <= k < |front| && front[k].Tick? ensures RunFrom(s, front[..k]).clock <= front[k].time {
      assert front[..k] == es[..k] && front[k] == es[k];
    }
  }

  lemma StartStep(s: Cache, ev: Event, p: Pid)
    ensures StartOf(ProcessOf(Next(s, ev), p)) in {None, Some(s.clock), StartOf(ProcessOf(s, p))}
    ensures ev.Tick? || Next(s, ev).clock == s.clock
  {
    match ev
    case Prepare(q, step) => PrepareStarts(s, q, step, p);
    case Use(q, step) => UseStarts(s, q, step, p);
    case Clean(q, step) => CleanStarts(s, q, step, p);
    case Crash(q) => CrashStarts(s, q, p);
    case _ => assert Next(s, ev).processes == s.processes;
  }

  lemma CrashStarts(s: Cache, q: Pid, p: Pid)
    ensures StartOf(ProcessOf(Crashed(s, q), p)) in {None, StartOf(ProcessOf(s, p))} && Crashed(s, q).clock == s.clock
  {
  }

  lemma PrepareStarts(s: Cache, q: Pid, step: PrepareStep, p: Pid)
    ensures StartOf(ProcessOf(Prepared(s, q, step), p)) in {None, StartOf(ProcessOf(s, p))} && Prepared(s, q, step).clock == s.clock
  {
  }

  lemma UseStarts(s: Cache, q: Pid, step: UseStep, p: Pid)
    ensures StartOf(ProcessOf(Used(s, q, step), p)) in {None, Some(s.clock), StartOf(ProcessOf(s, p))}
    ensures Used(s, q, step).clock == s.clock
  {
  }

  lemma CleanStarts(s: Cache, q: Pid, step: CleanStep, p: Pid)
    ensures StartOf(ProcessOf(Cleaned(s, q, step), p)) in {None, Some(s.clock), StartOf(ProcessOf(s, p))}
    ensures Cleaned(s, q, step).clock == s.clock
  {
  }

  // A cleaner at the end of a run started in it, not before its beginning by the clock, or was there.
  lemma {:induction false} StartTraced(s: Cache, es: seq<Event>, p: Pid)
    requires Forward(s, es)
    ensures var x := StartOf(ProcessOf(RunFrom(s, es), p)); x.Some? ==> s.clock <= x.value || x == StartOf(ProcessOf(s, p))
    ensures s.clock <= RunFrom(s, es).clock
  {
    if es != [] {
      ForwardFront(s, es);
      StartTraced(s, es[..|es| - 1], p);
      StartStep(RunFrom(s, es[..|es| - 1]), es[|es| - 1], p);
    }
  }

  // The bucket lies there as before.
  predicate StillOffered(s: Cache, t: Cache, e: Entry) {
    Untouched(s, t, e) && Offered(t, e) && e in s.buckets && t.buckets[e] == s.buckets[e]
  }

  // A cleaner busy with another bucket comes back to its scan.
  lemma BackToScan(s: Cache, p: Pid, e: Entry) returns (es: seq<Event>)
    requires Inv(s) && StartOf(ProcessOf(s, p)).Some? && Offered(s, e)
    ensures Forward(s, es) && ProcessOf(RunFrom(s, es), p) == Scanning(StartOf(ProcessOf(s, p)).value)
    ensures StillOffered(s, RunFrom(s, es), e)
  {
    var x := ProcessOf(s, p);
    if x.Scanning? {
      es := [];
    } else {
      BusyElsewhere(s, p, e);
      if x.Removing? {
        es := [Clean(p, RemoveError)];
        RunOne(s, es[0]);
        GivesUp(s, p, e);
      } else {
        es := BackFromCheck(s, p, e);
      }
    }
  }

  lemma BackFromCheck(s: Cache, p: Pid, e: Entry) returns (es: seq<Event>)
    requires ProcessOf(s, p).Checking? && ProcessOf(s, p).entry != e && Offered(s, e)
    ensures Forward(s, es) && ProcessOf(RunFrom(s, es), p) == Scanning(ProcessOf(s, p).now)
    ensures StillOffered(s, RunFrom(s, es), e)
  {
    var t := Next(s, Clean(p, Check));
    ChecksElsewhere(s, p, e);
    if ProcessOf(t, p).Removing? {
      es := [Clean(p, Check), Clean(p, RemoveError)];
      RunTwo(s, es[0], es[1]);
      GivesUp(t, p, e);
    } else {
      es := [Clean(p, Check)];
      RunOne(s, es[0]);
    }
  }

  lemma ChecksElsewhere(s: Cache, p: Pid, e: Entry)
    requires ProcessOf(s, p).Checking? && ProcessOf(s, p).entry != e && Offered(s, e)
    ensures var t := Next(s, Clean(p, Check));
            && StillOffered(s, t, e)
            && ProcessOf(t, p) in {Scanning(ProcessOf(s, p).now), Removing(ProcessOf(s, p).now, ProcessOf(s, p).entry)}
  {
  }

  lemma GivesUp(s: Cache, p: Pid, e: Entry)
    requires ProcessOf(s, p).Removing? && ProcessOf(s, p).entry != e && Offered(s, e)
    ensures var t := Next(s, Clean(p, RemoveError)); StillOffered(s, t, e) && ProcessOf(t, p) == Scanning(ProcessOf(s, p).now)
  {
  }

  lemma BusyElsewhere(s: Cache, p: Pid, e: Entry)
    requires LocksHold(s) && Target(ProcessOf(s, p)).Some? && Holders(s, e) == {}
    ensures Target(ProcessOf(s, p)) != Some(e)
  {
    assert Parent(p) in Holders(s, Target(ProcessOf(s, p)).value);
  }

  lemma RunOne(s: Cache, a: Event)
    ensures RunFrom(s, [a]) == Next(s, a)
  {
    assert [a][..0] == [];
  }

  lemma RunTwo(s: Cache, a: Event, b: Event)
    ensures RunFrom(s, [a, b]) == Next(Next(s, a), b)
  {
    assert [a, b][..1] == [a];
    RunOne(s, a);
  }

  lemma {:induction false} RunConcat(s: Cache, xs: seq<Event>, ys: seq<Event>)
    ensures RunFrom(s, xs + ys) == RunFrom(RunFrom(s, xs), ys)
  {
    if ys == [] {
      assert xs + ys == xs;
    } else {
      var front, last := ys[..|ys| - 1], ys[|ys| - 1];
      var all := xs + ys;
      assert all[..|all| - 1] == xs + front && all[|all| - 1] == last;
      calc {
        RunFrom(s, all);
        Next(RunFrom(s, xs + front), last);
        { RunConcat(s, xs, front); }
        Next(RunFrom(RunFrom(s, xs), front), last);
        RunFrom(RunFrom(s, xs), ys);
      }
    }
  }

  lemma ForwardConcat(s: Cache, xs: seq<Event>, ys: seq<Event>)
    requires Forward(s, xs) && forall y | y in ys :: !y.Tick?
    ensures Forward(s, xs + ys)
  {
    var all := xs + ys;
    assert forall k | |xs| <= k < |all| :: all[k] == ys[k - |xs|] && !all[k].Tick?;
    forall k | 0 <= k < |xs| && xs[k].Tick? ensures RunFrom(s, all[..k]).clock <= all[k].time {
      assert all[..k] == xs[..k] && all[k] == xs[k];
    }
  }

  lemma ForwardTick(s: Cache, time: real, ys: seq<Event>)
    requires s.clock <= time && forall y | y in ys :: !y.Tick?
    ensures Forward(s, [Tick(time)] + ys)
  {
    assert [Tick(time)][..0] == [];
    ForwardConcat(s, [Tick(time)], ys);
  }

  lemma EarlyByStarter(s: Cache, e: Entry, p: Pid) returns (es: seq<Event>)
    requires Inv(s) && Offered(s, e) && Outworked(s, e) && LateStarter(s, p, e)
    ensures Forward(s, es) && EarlyAfter(s, es, p, e)
  {
    var now := StartOf(ProcessOf(s, p)).value;
    var back := BackToScan(s, p, e);
    var t := RunFrom(s, back);
    assert Some(s.uses[e]) == s.buckets[e].record.value.lastUsed;
    ScanRemoves(t, p, now, e);
    var rest := [Clean(p, TryLock(e)), Clean(p, Check)];
    RunTwo(t, rest[0], rest[1]);
    es := back + rest;
    RunConcat(s, back, rest);
    ForwardConcat(s, back, rest);
  }

  lemma EarlyMeansInTime(s: Cache, es: seq<Event>, p: Pid, e: Entry)
    requires Inv(s) && Forward(s, es) && EarlyAfter(s, es, p, e)
    ensures InTime(s, e)
  {
    EarlyWasOutworked(s, es, p, e);
    InvRun(s, es);
    var t := RunFrom(s, es);
    StartTraced(s, es, p);
    assert ProcessHolds(t, p, t.processes[p]);
    assert StartOf(ProcessOf(t, p)) == Some(t.processes[p].now);
    if t.processes[p].now < s.clock { assert LateStarter(s, p, e); }
  }

  // With a clock that does not go back, a bucket that lies there can be removed less than 24 hours
  // after its last use if and only if its record is older than that use and a cleaner comes in time.
  lemma EarlyRemovalInTime(s: Cache, e: Entry)
    requires Inv(s) && Offered(s, e)
    ensures (exists es, p :: Forward(s, es) && EarlyAfter(s, es, p, e)) <==> InTime(s, e)
  {
    if es, p :| Forward(s, es) && EarlyAfter(s, es, p, e) { EarlyMeansInTime(s, es, p, e); }
    if InTime(s, e) {
      if s.clock < s.worked[e] + MAX_IDLE_SECONDS {
        var time := if s.clock < s.uses[e] + MAX_IDLE_SECONDS then s.uses[e] + MAX_IDLE_SECONDS else s.clock;
        var es, p := EarlyBySweep(s, e, time);
        ForwardTick(s, time, Sweep(p, e));
      } else {
        var p :| LateStarter(s, p, e);
        var es := EarlyByStarter(s, e, p);
      }
    }
  }

  lemma {:induction false} RunAfter(s: Cache, ev: Event, es: seq<Event>)
    ensures RunFrom(s, [ev] + es) == RunFrom(Next(s, ev), es)
  {
    var all := [ev] + es;
    if es == [] {
      assert all == [ev] && all[..0] == [];
    } else {
      var front, last := es[..|es| - 1], es[|es| - 1];
      assert all[..|all| - 1] == [ev] + front && all[|all| - 1] == last;
      calc {
        RunFrom(s, all);
        Next(RunFrom(s, [ev] + front), last);
        { RunAfter(s, ev, front); }
        Next(RunFrom(Next(s, ev), front), last);
        RunFrom(Next(s, ev), es);
      }
    }
  }

  // A builder that ends without recording its use, after a day's work, removes in its own cleanup
  // the bucket it has just used.
  lemma SilentBuilderRemovesItsBucket(s: Cache, p: Pid, e: Entry)
    requires Inv(s) && ProcessOf(s, p) == Ending(e) && Holders(s, e) == {Parent(p)}
    requires e in s.worked && s.clock - s.worked[e] < MAX_IDLE_SECONDS <= s.clock - s.uses[e]
    ensures var t := RunFrom(s, [Use(p, Unlock), Clean(p, TryLock(e)), Clean(p, Check)]);
            TakesEarly(t, Clean(p, RemoveRecord), e) && t.processes[p].now == s.clock && t.worked == s.worked
  {
    RunThree(s, Use(p, Unlock), Clean(p, TryLock(e)), Clean(p, Check));
    assert ProcessHolds(s, p, ProcessOf(s, p));
    var s1 := Next(s, Use(p, Unlock));
    assert ProcessOf(s1, p) == Scanning(s.clock) && Holders(s1, e) == {};
    assert Some(s.uses[e]) == s.buckets[e].record.value.lastUsed;
    ScanRemoves(s1, p, s.clock, e);
  }

  lemma ReachableNext(s: Cache, ev: Event)
    requires Reachable(s)
    ensures Reachable(Next(s, ev))
  {
    var s0, es :| Quiet(s0) && RunFrom(s0, es) == s;
    assert (es + [ev])[..|es|] == es;
    assert RunFrom(s0, es + [ev]) == Next(s, ev);
  }

  // A builder creates a bucket: lock, stage, publish.
  lemma BuilderPublishes(s: Cache, p: Pid, e: Entry, staging: Entry) returns (t: Cache)
    requires Reachable(s) && p !in s.processes && BucketName(e.key) && Holders(s, e) == {} && e !in s.buckets
    requires StagingName(e, staging) && staging !in s.buckets
    ensures Reachable(t) && ProcessOf(t, p) == Ready(e) && Holders(t, e) == {Parent(p)}
    ensures t.clock == s.clock && e in t.uses && t.uses[e] == s.clock
  {
    StagingIsNoBucket(e, staging);
    t := Next(s, Prepare(p, Lock(e)));
    ReachableNext(s, Prepare(p, Lock(e)));
    assert ProcessOf(t, p) == Locked(e, s.clock) && Holders(t, e) == {Parent(p)} && t.buckets == s.buckets;
    var inspected := Next(t, Prepare(p, Inspect(staging)));
    ReachableNext(t, Prepare(p, Inspect(staging)));
    assert ProcessOf(inspected, p) == Staging(e, s.clock, staging) && inspected.buckets == s.buckets[staging := Bucket(None, false)];
    t := StagedIsPublished(inspected, p, e, staging);
  }

  lemma StagedIsPublished(s: Cache, p: Pid, e: Entry, staging: Entry) returns (t: Cache)
    requires Reachable(s) && ProcessOf(s, p) == Staging(e, s.clock, staging) && Holders(s, e) == {Parent(p)}
    requires e !in s.buckets && staging in s.buckets && staging != e
    ensures Reachable(t) && ProcessOf(t, p) == Ready(e) && Holders(t, e) == {Parent(p)}
    ensures t.clock == s.clock && e in t.uses && t.uses[e] == s.clock
  {
    ReachableNext(s, Prepare(p, StageRecord));
    var recorded := Next(s, Prepare(p, StageRecord));
    ReachableNext(recorded, Prepare(p, StageBuild));
    var built := Next(recorded, Prepare(p, StageBuild));
    ReachableNext(built, Prepare(p, Publish));
    t := Next(built, Prepare(p, Publish));
    FilledStage(s, p, e, staging);
    PublishedStage(built, p, e, staging);
  }

  lemma FilledStage(s: Cache, p: Pid, e: Entry, staging: Entry)
    requires ProcessOf(s, p) == Staging(e, s.clock, staging) && e !in s.buckets && staging in s.buckets && staging != e
    ensures var t := Next(Next(s, Prepare(p, StageRecord)), Prepare(p, StageBuild));
            && ProcessOf(t, p) == ProcessOf(s, p) && t.clock == s.clock && t.holders == s.holders
            && e !in t.buckets && staging in t.buckets && t.buckets[staging].build
  {
    var recorded := Next(s, Prepare(p, StageRecord));
    assert ProcessOf(recorded, p) == ProcessOf(s, p) && staging in recorded.buckets && recorded.buckets[staging].record.Some?;
  }

  lemma PublishedStage(s: Cache, p: Pid, e: Entry, staging: Entry)
    requires ProcessOf(s, p) == Staging(e, s.clock, staging) && e !in s.buckets && staging in s.buckets && s.buckets[staging].build
    ensures var t := Next(s, Prepare(p, Publish));
            && ProcessOf(t, p) == Ready(e) && t.clock == s.clock && t.holders == s.holders && e in t.uses && t.uses[e] == s.clock
  {
  }

  // ... and works on it for 25 hours.
  lemma BuilderWorksLong(s: Cache, p: Pid, e: Entry) returns (t: Cache)
    requires Reachable(s) && ProcessOf(s, p) == Ready(e) && Holders(s, e) == {Parent(p)}
    requires e in s.uses && s.uses[e] == s.clock && s.clock >= 0.0
    ensures Reachable(t) && ProcessOf(t, p) == Ending(e) && Holders(t, e) == {Parent(p)}
    ensures e in t.worked && t.worked[e] == t.clock && e in t.uses && t.clock - t.uses[e] == 90000.0
  {
    ReachableNext(s, Use(p, Spawn));
    var spawned := Next(s, Use(p, Spawn));
    ReachableNext(spawned, Tick(s.clock + 90000.0));
    var later := Next(spawned, Tick(s.clock + 90000.0));
    ReachableNext(later, ChildExit(p, e));
    var alone := Next(later, ChildExit(p, e));
    ReachableNext(alone, Use(p, Reap));
    t := Next(alone, Use(p, Reap));
    SpawnedLater(s, p, e, s.clock + 90000.0);
    WorkEnds(later, p, e);
  }

  lemma SpawnedLater(s: Cache, p: Pid, e: Entry, time: real)
    requires ProcessOf(s, p) == Ready(e) && Holders(s, e) == {Parent(p)} && time >= 0.0
    ensures var t := Next(Next(s, Use(p, Spawn)), Tick(time));
            && ProcessOf(t, p) == Building(e) && Holders(t, e) == {Parent(p), Child(p)} && t.clock == time && t.uses == s.uses
  {
  }

  lemma WorkEnds(s: Cache, p: Pid, e: Entry)
    requires ProcessOf(s, p) == Building(e) && Holders(s, e) == {Parent(p), Child(p)}
    ensures var t := Next(Next(s, ChildExit(p, e)), Use(p, Reap));
            && ProcessOf(t, p) == Ending(e) && Holders(t, e) == {Parent(p)} && t.clock == s.clock && t.uses == s.uses
            && e in t.worked && t.worked[e] == s.clock
  {
    var alone := Next(s, ChildExit(p, e));
    assert ProcessOf(alone, p) == Building(e) && Holders(alone, e) == {Parent(p)};
  }

  // So wherever a key has no bucket, a builder can come to remove the bucket it has just used: it
  // publishes it, works on it for 25 hours and fails to record that.
  lemma JustUsedBucketIsRemoved(s: Cache, p: Pid, e: Entry, staging: Entry) returns (t: Cache)
    requires Reachable(s) && p !in s.processes && BucketName(e.key) && Holders(s, e) == {} && e !in s.buckets
    requires StagingName(e, staging) && staging !in s.buckets
    ensures Reachable(t) && TakesEarly(t, Clean(p, RemoveRecord), e) && t.processes[p].now == t.worked[e]
  {
    ReachableHolds(s);
    var ready := BuilderPublishes(s, p, e, staging);
    var ending := BuilderWorksLong(ready, p, e);
    ReachableHolds(ending);
    SilentBuilderRemovesItsBucket(ending, p, e);
    RunThree(ending, Use(p, Unlock), Clean(p, TryLock(e)), Clean(p, Check));
    ReachableNext(ending, Use(p, Unlock));
    var scanning := Next(ending, Use(p, Unlock));
    ReachableNext(scanning, Clean(p, TryLock(e)));
    var checking := Next(scanning, Clean(p, TryLock(e)));
    ReachableNext(checking, Clean(p, Check));
    t := Next(checking, Clean(p, Check));
  }

  // ----- Recording after the work -----

  // No record is ahead of the clock.
  predicate NoneAhead(s: Cache) {
    forall e | e in s.uses :: s.uses[e] <= s.clock
  }

  predicate Fresh(x: Process) {
    x.Locked? || x.Owned? || x.Staging?
  }

  // A builder that has not recorded anything yet is alone with its bucket since its start.
  predicate StartHolds(s: Cache, p: Pid, x: Process) {
    Fresh(x) ==>
      && x.now <= s.clock && Holders(s, x.entry) == {Parent(p)}
      && (x.entry in s.worked ==> s.worked[x.entry] <= x.now)
  }

  // Which of the last work and the last recorded use came later.
  predicate EntryHolds(s: Cache, e: Entry) {
    && (e in s.worked ==> s.worked[e] <= s.clock) && (e in s.uses ==> s.uses[e] <= s.clock)
    && (e in s.worked && e in s.settled ==> e in s.uses && s.worked[e] <= s.uses[e])
    && (e in s.worked && e in s.uses && e !in s.settled ==> s.uses[e] <= s.worked[e])
  }

  ghost predicate TimesHold(s: Cache) {
    && (forall e: Entry :: EntryHolds(s, e))
    && (forall p | p in s.processes :: StartHolds(s, p, s.processes[p]))
  }

  // A step of process p on bucket e.
  lemma TimesFrame(s: Cache, t: Cache, p: Pid, e: Entry)
    requires TimesHold(s) && Holders(s, e) <= {Parent(p), Child(p)} && s.clock <= t.clock
    requires t.worked - {e} == s.worked - {e} && t.uses - {e} == s.uses - {e} && t.settled - {e} == s.settled - {e}
    requires t.holders - {e} == s.holders - {e} && t.processes - {p} == s.processes - {p}
    requires StartHolds(t, p, ProcessOf(t, p)) && EntryHolds(t, e)
    ensures TimesHold(t)
  {
    forall f ensures EntryHolds(t, f) {
      if f != e { EntryKept(s, t, e, f); }
    }
    forall q | q in t.processes ensures StartHolds(t, q, t.processes[q]) {
      if q != p {
        assert q in t.processes - {p};
        assert StartHolds(s, q, s.processes[q]);
        if Fresh(s.processes[q]) { StartKept(s, t, p, e, q); }
      }
    }
  }

  lemma EntryKept(s: Cache, t: Cache, e: Entry, f: Entry)
    requires EntryHolds(s, f) && f != e && s.clock <= t.clock
    requires t.worked - {e} == s.worked - {e} && t.uses - {e} == s.uses - {e} && t.settled - {e} == s.settled - {e}
    ensures EntryHolds(t, f)
  {
    assert f in t.worked <==> f in s.worked - {e};
    assert f in t.uses <==> f in s.uses - {e};
    assert f in t.settled <==> f in s.settled - {e};
  }

  lemma StartKept(s: Cache, t: Cache, p: Pid, e: Entry, q: Pid)
    requires Holders(s, e) <= {Parent(p), Child(p)} && q != p && q in s.processes && Fresh(s.processes[q])
    requires StartHolds(s, q, s.processes[q])
    requires t.worked - {e} == s.worked - {e} && t.holders - {e} == s.holders - {e} && s.clock <= t.clock
    ensures StartHolds(t, q, s.processes[q])
  {
    var f := s.processes[q].entry;
    assert Parent(q) in Holders(s, f);
    assert f != e;
    assert f in s.holders - {e};
    assert f in t.worked ==> f in t.worked - {e};
  }

  // A step of a process that has its lock, on its bucket.
  lemma TimesAt(s: Cache, t: Cache, p: Pid)
    requires LocksHold(s) && TimesHold(s) && Target(ProcessOf(s, p)).Some? && s.clock <= t.clock
    requires var e := Target(ProcessOf(s, p)).value;
             && t.worked - {e} == s.worked - {e} && t.uses - {e} == s.uses - {e} && t.settled - {e} == s.settled - {e}
             && t.holders - {e} == s.holders - {e} && t.processes - {p} == s.processes - {p}
             && StartHolds(t, p, ProcessOf(t, p)) && EntryHolds(t, e)
    ensures TimesHold(t)
  {
    var e := Target(ProcessOf(s, p)).value;
    HolderIsAlone(s, p, e);
    TimesFrame(s, t, p, e);
  }

  // A step that neither records a use nor ends work.
  lemma TimesHeld(s: Cache, t: Cache, p: Pid)
    requires LocksHold(s) && TimesHold(s) && Target(ProcessOf(s, p)).Some? && t.clock == s.clock
    requires t.worked == s.worked && t.uses == s.uses && t.settled == s.settled && t.processes - {p} == s.processes - {p}
    requires var e := Target(ProcessOf(s, p)).value; t.holders - {e} == s.holders - {e}
    requires StartHolds(t, p, ProcessOf(t, p))
    ensures TimesHold(t)
  {
    assert EntryHolds(s, Target(ProcessOf(s, p)).value);
    TimesAt(s, t, p);
  }

  // The lock is closed.
  lemma TimesReleased(s: Cache, p: Pid, x: Process, buckets: map<Entry, Bucket>)
    requires LocksHold(s) && TimesHold(s) && Target(ProcessOf(s, p)).Some? && !Fresh(x)
    ensures TimesHold(Moved(Released(s, p, Target(ProcessOf(s, p)).value), p, x).(buckets := buckets))
  {
    TimesHeld(s, Moved(Released(s, p, Target(ProcessOf(s, p)).value), p, x).(buckets := buckets), p);
  }

  // The bucket is written to, and the process moves on to another state.
  lemma TimesWritten(s: Cache, p: Pid, x: Process, buckets: map<Entry, Bucket>)
    requires LocksHold(s) && TimesHold(s) && Target(ProcessOf(s, p)).Some? && StartHolds(s, p, x)
    ensures TimesHold(Moved(s, p, x).(buckets := buckets))
  {
    TimesHeld(s, Moved(s, p, x).(buckets := buckets), p);
  }

  lemma TimesLocked(s: Cache, p: Pid, e: Entry)
    requires TimesHold(s)
    ensures TimesHold(LockStep(s, p, e))
  {
    if LockStep(s, p, e) != s {
      assert EntryHolds(s, e);
      TimesFrame(s, LockStep(s, p, e), p, e);
    }
  }

  lemma TimesInspected(s: Cache, p: Pid, staging: Entry)
    requires LocksHold(s) && TimesHold(s)
    ensures TimesHold(InspectStep(s, p, staging))
  {
    var x := ProcessOf(s, p);
    if x.Locked? {
      assert StartHolds(s, p, x);
      if x.entry !in s.buckets {
        TimesWritten(s, p, Staging(x.entry, x.now, staging), s.buckets[staging := Bucket(None, false)]);
      } else if Valid(s, x.entry, s.buckets[x.entry]) {
        TimesWritten(s, p, Owned(x.entry, x.now), s.buckets);
      } else {
        TimesReleased(s, p, Exited, s.buckets);
      }
    }
  }

  lemma TimesRefreshed(s: Cache, p: Pid)
    requires LocksHold(s) && TimesHold(s)
    ensures TimesHold(RefreshStep(s, p))
  {
    if RefreshStep(s, p) != s {
      assert StartHolds(s, p, ProcessOf(s, p)) && EntryHolds(s, ProcessOf(s, p).entry);
      TimesAt(s, RefreshStep(s, p), p);
    }
  }

  lemma TimesPublished(s: Cache, p: Pid)
    requires LocksHold(s) && TimesHold(s)
    ensures TimesHold(PublishStep(s, p))
  {
    if PublishStep(s, p) != s {
      assert StartHolds(s, p, ProcessOf(s, p)) && EntryHolds(s, ProcessOf(s, p).entry);
      TimesAt(s, PublishStep(s, p), p);
    }
  }

  lemma TimesFailed(s: Cache, p: Pid)
    requires LocksHold(s) && TimesHold(s)
    ensures TimesHold(FailStep(s, p))
  {
    if FailStep(s, p) != s { TimesReleased(s, p, Exited, FailStep(s, p).buckets); }
  }

  lemma TimesStaged(s: Cache, buckets: map<Entry, Bucket>)
    requires TimesHold(s)
    ensures TimesHold(s.(buckets := buckets))
  {
    var t := s.(buckets := buckets);
    forall e ensures EntryHolds(t, e) { assert EntryHolds(s, e); }
    forall q | q in t.processes ensures StartHolds(t, q, t.processes[q]) { assert StartHolds(s, q, s.processes[q]); }
  }

  lemma TimesPrepared(s: Cache, p: Pid, step: PrepareStep)
    requires LocksHold(s) && TimesHold(s)
    ensures TimesHold(Prepared(s, p, step))
  {
    match step
    case Lock(e) => TimesLocked(s, p, e);
    case Inspect(staging) => TimesInspected(s, p, staging);
    case Refresh => TimesRefreshed(s, p);
    case MakeBuild => if MakeBuildStep(s, p) != s { TimesWritten(s, p, Ready(ProcessOf(s, p).entry), MakeBuildStep(s, p).buckets); }
    case StageRecord => TimesStaged(s, StageRecordStep(s, p).buckets);
    case StageBuild => TimesStaged(s, StageBuildStep(s, p).buckets);
    case Publish => TimesPublished(s, p);
    case Fail => TimesFailed(s, p);
  }

  lemma TimesReaped(s: Cache, p: Pid)
    requires LocksHold(s) && TimesHold(s)
    ensures TimesHold(ReapStep(s, p))
  {
    if ReapStep(s, p) != s {
      assert EntryHolds(s, ProcessOf(s, p).entry);
      TimesAt(s, ReapStep(s, p), p);
    }
  }

  lemma TimesUseRecorded(s: Cache, p: Pid)
    requires LocksHold(s) && TimesHold(s)
    ensures TimesHold(RecordUseStep(s, p))
  {
    if RecordUseStep(s, p) != s {
      assert EntryHolds(s, ProcessOf(s, p).entry);
      TimesAt(s, RecordUseStep(s, p), p);
    }
  }

  lemma TimesSpawned(s: Cache, p: Pid)
    requires LocksHold(s) && TimesHold(s)
    ensures TimesHold(SpawnStep(s, p))
  {
    if SpawnStep(s, p) != s { TimesHeld(s, SpawnStep(s, p), p); }
  }

  lemma TimesUsed(s: Cache, p: Pid, step: UseStep)
    requires LocksHold(s) && TimesHold(s)
    ensures TimesHold(Used(s, p, step))
  {
    match step
    case Spawn => TimesSpawned(s, p);
    case Reap => TimesReaped(s, p);
    case RecordUse => TimesUseRecorded(s, p);
    case Unlock => if UnlockStep(s, p) != s { TimesReleased(s, p, Scanning(s.clock), s.buckets); }
  }

  lemma TimesIdle(s: Cache, p: Pid, x: Process)
    requires TimesHold(s) && !Fresh(x)
    ensures TimesHold(Moved(s, p, x))
  {
    var t := Moved(s, p, x);
    forall e ensures EntryHolds(t, e) { assert EntryHolds(s, e); }
    forall q | q in t.processes ensures StartHolds(t, q, t.processes[q]) {
      if q != p { assert StartHolds(s, q, s.processes[q]); }
    }
  }

  lemma TimesTried(s: Cache, p: Pid, e: Entry)
    requires TimesHold(s)
    ensures TimesHold(TryLockStep(s, p, e))
  {
    if TryLockStep(s, p, e) != s {
      assert EntryHolds(s, e);
      TimesFrame(s, TryLockStep(s, p, e), p, e);
    }
  }

  lemma TimesChecked(s: Cache, p: Pid)
    requires LocksHold(s) && TimesHold(s)
    ensures TimesHold(CheckStep(s, p))
  {
    var x, t := ProcessOf(s, p), CheckStep(s, p);
    if t != s {
      if ProcessOf(t, p).Removing? {
        TimesWritten(s, p, ProcessOf(t, p), s.buckets);
      } else {
        TimesReleased(s, p, Scanning(x.now), s.buckets);
      }
    }
  }

  lemma TimesRemoved(s: Cache, p: Pid)
    requires LocksHold(s) && TimesHold(s)
    ensures TimesHold(RemoveBucketStep(s, p))
  {
    if RemoveBucketStep(s, p) != s { TimesReleased(s, p, Scanning(ProcessOf(s, p).now), RemoveBucketStep(s, p).buckets); }
  }

  lemma TimesCleaned(s: Cache, p: Pid, step: CleanStep)
    requires LocksHold(s) && TimesHold(s)
    ensures TimesHold(Cleaned(s, p, step))
  {
    match step
    case Scan => if ScanStep(s, p) != s { TimesIdle(s, p, Scanning(s.clock)); }
    case TryLock(e) => TimesTried(s, p, e);
    case Check => TimesChecked(s, p);
    case RemoveRecord => TimesStaged(s, RemoveRecordStep(s, p).buckets);
    case RemoveBuild => TimesStaged(s, RemoveBuildStep(s, p).buckets);
    case RemoveBucket => TimesRemoved(s, p);
    case RemoveError => if RemoveErrorStep(s, p) != s { TimesReleased(s, p, Scanning(ProcessOf(s, p).now), s.buckets); }
    case Finish => if FinishStep(s, p) != s { TimesIdle(s, p, Exited); }
  }

  lemma TimesCrashed(s: Cache, p: Pid)
    requires LocksHold(s) && TimesHold(s)
    ensures TimesHold(Crashed(s, p))
  {
    var x := ProcessOf(s, p);
    if Target(x).None? {
      TimesIdle(s, p, Exited);
    } else if x.Ready? || x.Building? {
      assert EntryHolds(s, x.entry);
      TimesAt(s, Crashed(s, p), p);
    } else {
      TimesReleased(s, p, Exited, s.buckets);
    }
  }

  lemma TimesChildExited(s: Cache, p: Pid, e: Entry)
    requires LocksHold(s) && TimesHold(s)
    ensures TimesHold(ChildExited(s, p, e))
  {
    if Child(p) in Holders(s, e) {
      forall h | h in Holders(s, e) ensures h in {Parent(p), Child(p)} {
        assert h.pid == Child(p).pid;
        assert h == Parent(h.pid) || h == Child(h.pid);
      }
      var t := ChildExited(s, p, e);
      assert EntryHolds(s, e);
      assert StartHolds(t, p, ProcessOf(t, p)) by {
        if p in s.processes { assert StartHolds(s, p, s.processes[p]); }
      }
      TimesFrame(s, t, p, e);
    }
  }

  lemma TimesTick(s: Cache, time: real)
    requires TimesHold(s) && s.clock <= time
    ensures TimesHold(Next(s, Tick(time)))
  {
    var t := Next(s, Tick(time));
    forall e ensures EntryHolds(t, e) { assert EntryHolds(s, e); }
    forall q | q in t.processes ensures StartHolds(t, q, t.processes[q]) { assert StartHolds(s, q, s.processes[q]); }
  }

  lemma {:induction false} TimesRun(s: Cache, es: seq<Event>)
    requires Quiet(s) && NoneAhead(s) && Forward(s, es)
    ensures Inv(RunFrom(s, es)) && TimesHold(RunFrom(s, es))
  {
    QuietHolds(s);
    InvRun(s, es);
    if es != [] {
      ForwardFront(s, es);
      TimesRun(s, es[..|es| - 1]);
      TimesStep(RunFrom(s, es[..|es| - 1]), es[|es| - 1]);
    }
  }

  lemma TimesStep(s: Cache, ev: Event)
    requires LocksHold(s) && TimesHold(s) && (ev.Tick? ==> s.clock <= ev.time)
    ensures TimesHold(Next(s, ev))
  {
    match ev
    case Tick(time) => TimesTick(s, time);
    case Prepare(p, step) => TimesPrepared(s, p, step);
    case Use(p, step) => TimesUsed(s, p, step);
    case Clean(p, step) => TimesCleaned(s, p, step);
    case ChildExit(p, e) => TimesChildExited(s, p, e);
    case Crash(p) => TimesCrashed(s, p);
  }

  // With a clock that does not go back, the last use on record is older than the last work exactly
  // when it was recorded before that work ended (and not at the same instant).
  lemma OutworkedExactly(s: Cache, es: seq<Event>, e: Entry)
    requires Quiet(s) && NoneAhead(s) && Forward(s, es)
    requires e in RunFrom(s, es).worked && e in RunFrom(s, es).uses
    ensures var t := RunFrom(s, es); Outworked(t, e) <==> e !in t.settled && t.uses[e] != t.worked[e]
  {
    TimesRun(s, es);
    assert EntryHolds(RunFrom(s, es), e);
  }

  // So a bucket whose last use was recorded after its work had ended is never removed within 24
  // hours of that work.
  lemma RecordedUseIsRespected(s: Cache, es: seq<Event>, ev: Event, e: Entry)
    requires Quiet(s) && NoneAhead(s) && Forward(s, es) && e in RunFrom(s, es).settled
    ensures !TakesEarly(RunFrom(s, es), ev, e)
  {
    TimesRun(s, es);
    if TakesEarly(RunFrom(s, es), ev, e) {
      EarlyMeansOutworked(RunFrom(s, es), ev, e);
      OutworkedExactly(s, es, e);
    }
  }
}
