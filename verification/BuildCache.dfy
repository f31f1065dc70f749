// The Rust build cache: builders and cleaners, any number of each, over lock files, record files
// and directories. Each system call that other processes can observe is one step, and the steps of
// all processes interleave in any order; a process may crash between any two of them.
module BuildCache {
  import opened Options

  const MAX_IDLE_SECONDS: real := 86400.0
  const SCHEMA: string := "winwincode-rust-build-v1"

  type Pid = nat

  datatype Profile = Debug | Release

  datatype Entry = Entry(profile: Profile, key: string)

  // A usage record; `lastUsed` is None when it is missing or not a finite number.
  datatype Record = Record(schema: string, project: string, profile: Profile, key: string, lastUsed: Option<real>)

  // A bucket directory: its record, if it has a readable one, and whether it has a build directory.
  datatype Bucket = Bucket(record: Option<Record>, build: bool)

  // A lock is an open file description; a builder shares it with the child it spawns.
  datatype Holder = Parent(pid: Pid) | Child(pid: Pid)

  datatype Process =
    | Unstarted
    | Locked(entry: Entry, now: real)
    | Owned(entry: Entry, now: real)
    | Refreshed(entry: Entry)
    | Staging(entry: Entry, now: real, staging: Entry)
    | Ready(entry: Entry)
    | Building(entry: Entry)
    | Ending(entry: Entry)
    | Scanning(now: real)
    | Checking(now: real, entry: Entry)
    | Removing(now: real, entry: Entry)
    | Exited

  // `buckets` holds every directory of a profile, staging directories included. Three observations go
  // with it: the last use of each bucket that was recorded, the time at which a builder or its child
  // last ended work on it, and the buckets whose last use was recorded after that.
  datatype Cache = Cache(
    project: string,
    clock: real,
    buckets: map<Entry, Bucket>,
    holders: map<Entry, set<Holder>>,
    processes: map<Pid, Process>,
    uses: map<Entry, real>,
    worked: map<Entry, real>,
    settled: set<Entry>)

  predicate ValidRecord(r: Record, project: string, e: Entry) {
    && r.schema == SCHEMA && r.project == project && r.profile == e.profile && r.key == e.key
    && r.lastUsed.Some? && 0.0 <= r.lastUsed.value
  }

  predicate Valid(s: Cache, e: Entry, b: Bucket) {
    b.record.Some? && ValidRecord(b.record.value, s.project, e)
  }

  function NewRecord(s: Cache, e: Entry, now: real): Record {
    Record(SCHEMA, s.project, e.profile, e.key, Some(now))
  }

  // Only names of 64 lower-case hexadecimal digits are buckets to a cleaner.
  predicate BucketName(key: string) {
    |key| == 64 && forall c | c in key :: '0' <= c <= '9' || 'a' <= c <= 'f'
  }

  const DIGITS: string := "0123456789abcdef"

  // hexdigest: two digits for each byte.
  function Hex(bytes: seq<bv8>): string {
    if bytes == [] then "" else [DIGITS[(bytes[0] / 16) as nat], DIGITS[(bytes[0] % 16) as nat]] + Hex(bytes[1..])
  }

  lemma {:induction false} HexDigits(bytes: seq<bv8>)
    ensures |Hex(bytes)| == 2 * |bytes| && forall c | c in Hex(bytes) :: '0' <= c <= '9' || 'a' <= c <= 'f'
  {
    if bytes != [] { HexDigits(bytes[1..]); }
  }

  // The key of a build is a SHA-256 digest, so that every bucket a builder makes is one that a cleaner
  // looks at.
  lemma KeyIsBucketName(digest: seq<bv8>)
    requires |digest| == 32
    ensures BucketName(Hex(digest))
  {
    HexDigits(digest);
  }

  // A staging directory lies beside the buckets, under a name of its own.
  predicate StagingName(e: Entry, staging: Entry) {
    staging.profile == e.profile && ".initializing-" + e.key + "-" <= staging.key
  }

  lemma StagingIsNoBucket(e: Entry, staging: Entry)
    requires StagingName(e, staging)
    ensures !BucketName(staging.key)
  {
    assert staging.key[0] == '.';
    assert staging.key[0] in staging.key;
  }

  function Holders(s: Cache, e: Entry): set<Holder> {
    if e in s.holders then s.holders[e] else {}
  }

  function ProcessOf(s: Cache, p: Pid): Process {
    if p in s.processes then s.processes[p] else Unstarted
  }

  function Moved(s: Cache, p: Pid, next: Process): Cache {
    s.(processes := s.processes[p := next])
  }

  function Acquired(s: Cache, p: Pid, e: Entry): Cache {
    s.(holders := s.holders[e := Holders(s, e) + {Parent(p)}])
  }

  function Released(s: Cache, p: Pid, e: Entry): Cache {
    s.(holders := s.holders[e := Holders(s, e) - {Parent(p)}])
  }

  function Recorded(s: Cache, e: Entry, now: real): Cache
    requires e in s.buckets
  {
    s.(buckets := s.buckets[e := s.buckets[e].(record := Some(NewRecord(s, e, now)))],
       uses := s.uses[e := now], settled := s.settled + {e})
  }

  // Work on a bucket has ended.
  function Rested(s: Cache, e: Entry): Cache {
    s.(worked := s.worked[e := s.clock], settled := s.settled - {e})
  }

  // The entry whose lock the process has taken and not yet closed.
  function Target(x: Process): Option<Entry> {
    match x
    case Unstarted => None
    case Scanning(_) => None
    case Exited => None
    case Checking(_, e) => Some(e)
    case Removing(_, e) => Some(e)
    case _ => Some(x.entry)
  }

  datatype PrepareStep =
    | Lock(entry: Entry)
    | Inspect(staging: Entry)
    | Refresh
    | MakeBuild
    | StageRecord
    | StageBuild
    | Publish
    | Fail

  datatype UseStep =
    | Spawn
    | Reap
    | RecordUse
    | Unlock

  datatype CleanStep =
    | Scan
    | TryLock(entry: Entry)
    | Check
    | RemoveRecord
    | RemoveBuild
    | RemoveBucket
    | RemoveError
    | Finish

  datatype Event =
    | Tick(time: real)
    | Prepare(pid: Pid, prepare: PrepareStep)
    | Use(pid: Pid, use: UseStep)
    | Clean(pid: Pid, clean: CleanStep)
    | ChildExit(pid: Pid, entry: Entry)
    | Crash(pid: Pid)

  // A builder with the lock looks at its bucket: it adopts a bucket with a valid record, refuses
  // any other, and starts a staging directory if there is none.
  function Inspected(s: Cache, p: Pid, e: Entry, now: real, staging: Entry): Cache {
    if e !in s.buckets then
      if staging in s.buckets || !StagingName(e, staging) then s
      else Moved(s.(buckets := s.buckets[staging := Bucket(None, false)]), p, Staging(e, now, staging))
    else if Valid(s, e, s.buckets[e]) then Moved(s, p, Owned(e, now))
    else Moved(Released(s, p, e), p, Exited)
  }

  // A cleaner with the lock looks at the bucket again.
  function Checked(s: Cache, p: Pid, now: real, e: Entry): Cache {
    if e in s.buckets && Valid(s, e, s.buckets[e]) && now - s.buckets[e].record.value.lastUsed.value >= MAX_IDLE_SECONDS
    then Moved(s, p, Removing(now, e))
    else Moved(Released(s, p, e), p, Scanning(now))
  }

  // run_cached up to the end of prepare_entry, step by step. A step that is not the process's next
  // one changes nothing.

  function LockStep(s: Cache, p: Pid, e: Entry): Cache {
    if ProcessOf(s, p) == Unstarted && BucketName(e.key) && Holders(s, e) == {}
    then Moved(Acquired(s, p, e), p, Locked(e, s.clock)) else s
  }

  function InspectStep(s: Cache, p: Pid, staging: Entry): Cache {
    var x := ProcessOf(s, p);
    if x.Locked? then Inspected(s, p, x.entry, x.now, staging) else s
  }

  function RefreshStep(s: Cache, p: Pid): Cache {
    var x := ProcessOf(s, p);
    if x.Owned? && x.entry in s.buckets then Moved(Recorded(s, x.entry, x.now), p, Refreshed(x.entry)) else s
  }

  function MakeBuildStep(s: Cache, p: Pid): Cache {
    var x := ProcessOf(s, p);
    if x.Refreshed? && x.entry in s.buckets
    then Moved(s.(buckets := s.buckets[x.entry := s.buckets[x.entry].(build := true)]), p, Ready(x.entry)) else s
  }

  function StageRecordStep(s: Cache, p: Pid): Cache {
    var x := ProcessOf(s, p);
    if x.Staging? && x.staging in s.buckets
    then s.(buckets := s.buckets[x.staging := s.buckets[x.staging].(record := Some(NewRecord(s, x.entry, x.now)))]) else s
  }

  function StageBuildStep(s: Cache, p: Pid): Cache {
    var x := ProcessOf(s, p);
    if x.Staging? && x.staging in s.buckets && s.buckets[x.staging].record.Some?
    then s.(buckets := s.buckets[x.staging := s.buckets[x.staging].(build := true)]) else s
  }

  function PublishStep(s: Cache, p: Pid): Cache {
    var x := ProcessOf(s, p);
    if x.Staging? && x.staging in s.buckets && s.buckets[x.staging].build && x.entry !in s.buckets
    then Moved(s.(buckets := (s.buckets - {x.staging})[x.entry := s.buckets[x.staging]],
                  uses := s.uses[x.entry := x.now], settled := s.settled + {x.entry}), p, Ready(x.entry)) else s
  }

  function FailStep(s: Cache, p: Pid): Cache {
    var x := ProcessOf(s, p);
    if x.Locked? || x.Owned? || x.Refreshed? then Moved(Released(s, p, x.entry), p, Exited)
    else if x.Staging? then Moved(Released(s, p, x.entry).(buckets := s.buckets - {x.staging}), p, Exited)
    else s
  }

  function Prepared(s: Cache, p: Pid, step: PrepareStep): Cache {
    match step
    case Lock(e) => LockStep(s, p, e)
    case Inspect(staging) => InspectStep(s, p, staging)
    case Refresh => RefreshStep(s, p)
    case MakeBuild => MakeBuildStep(s, p)
    case StageRecord => StageRecordStep(s, p)
    case StageBuild => StageBuildStep(s, p)
    case Publish => PublishStep(s, p)
    case Fail => FailStep(s, p)
  }

  // run_cached from the spawned command to the closed lock.

  function SpawnStep(s: Cache, p: Pid): Cache {
    var x := ProcessOf(s, p);
    if x.Ready? then Moved(s.(holders := s.holders[x.entry := Holders(s, x.entry) + {Child(p)}]), p, Building(x.entry)) else s
  }

  function ReapStep(s: Cache, p: Pid): Cache {
    var x := ProcessOf(s, p);
    if x.Building? || x.Ready? then Moved(Rested(s, x.entry), p, Ending(x.entry)) else s
  }

  function RecordUseStep(s: Cache, p: Pid): Cache {
    var x := ProcessOf(s, p);
    if x.Ending? && x.entry in s.buckets then Recorded(s, x.entry, s.clock) else s
  }

  function UnlockStep(s: Cache, p: Pid): Cache {
    var x := ProcessOf(s, p);
    if x.Ending? then Moved(Released(s, p, x.entry), p, Scanning(s.clock)) else s
  }

  function Used(s: Cache, p: Pid, step: UseStep): Cache {
    match step
    case Spawn => SpawnStep(s, p)
    case Reap => ReapStep(s, p)
    case RecordUse => RecordUseStep(s, p)
    case Unlock => UnlockStep(s, p)
  }

  // cleanup; a scan may try any directory at any time, and passes over those that are not buckets.

  function ScanStep(s: Cache, p: Pid): Cache {
    if ProcessOf(s, p) == Unstarted then Moved(s, p, Scanning(s.clock)) else s
  }

  function TryLockStep(s: Cache, p: Pid, e: Entry): Cache {
    var x := ProcessOf(s, p);
    if x.Scanning? && BucketName(e.key) && e in s.buckets && Holders(s, e) == {}
    then Moved(Acquired(s, p, e), p, Checking(x.now, e)) else s
  }

  function CheckStep(s: Cache, p: Pid): Cache {
    var x := ProcessOf(s, p);
    if x.Checking? then Checked(s, p, x.now, x.entry) else s
  }

  function RemoveRecordStep(s: Cache, p: Pid): Cache {
    var x := ProcessOf(s, p);
    if x.Removing? && x.entry in s.buckets
    then s.(buckets := s.buckets[x.entry := s.buckets[x.entry].(record := None)]) else s
  }

  function RemoveBuildStep(s: Cache, p: Pid): Cache {
    var x := ProcessOf(s, p);
    if x.Removing? && x.entry in s.buckets
    then s.(buckets := s.buckets[x.entry := s.buckets[x.entry].(build := false)]) else s
  }

  function RemoveBucketStep(s: Cache, p: Pid): Cache {
    var x := ProcessOf(s, p);
    if x.Removing? && x.entry in s.buckets && s.buckets[x.entry] == Bucket(None, false)
    then Moved(Released(s, p, x.entry).(buckets := s.buckets - {x.entry}), p, Scanning(x.now)) else s
  }

  function RemoveErrorStep(s: Cache, p: Pid): Cache {
    var x := ProcessOf(s, p);
    if x.Removing? then Moved(Released(s, p, x.entry), p, Scanning(x.now)) else s
  }

  function FinishStep(s: Cache, p: Pid): Cache {
    if ProcessOf(s, p).Scanning? then Moved(s, p, Exited) else s
  }

  function Cleaned(s: Cache, p: Pid, step: CleanStep): Cache {
    match step
    case Scan => ScanStep(s, p)
    case TryLock(e) => TryLockStep(s, p, e)
    case Check => CheckStep(s, p)
    case RemoveRecord => RemoveRecordStep(s, p)
    case RemoveBuild => RemoveBuildStep(s, p)
    case RemoveBucket => RemoveBucketStep(s, p)
    case RemoveError => RemoveErrorStep(s, p)
    case Finish => FinishStep(s, p)
  }

  // A crash closes the process's own descriptor; a child keeps its copy.
  function Crashed(s: Cache, p: Pid): Cache {
    var x := ProcessOf(s, p);
    if Target(x).None? then Moved(s, p, Exited)
    else if x.Ready? || x.Building? then Moved(Released(Rested(s, x.entry), p, x.entry), p, Exited)
    else Moved(Released(s, p, Target(x).value), p, Exited)
  }

  function ChildExited(s: Cache, p: Pid, e: Entry): Cache {
    if Child(p) !in Holders(s, e) then s
    else Rested(s, e).(holders := s.holders[e := Holders(s, e) - {Child(p)}])
  }

  function Next(s: Cache, e: Event): Cache {
    match e
    case Tick(t) => if t >= 0.0 then s.(clock := t) else s
    case Prepare(p, step) => Prepared(s, p, step)
    case Use(p, step) => Used(s, p, step)
    case Clean(p, step) => Cleaned(s, p, step)
    case ChildExit(p, entry) => ChildExited(s, p, entry)
    case Crash(p) => Crashed(s, p)
  }

  function RunFrom(s: Cache, es: seq<Event>): Cache {
    if es == [] then s else Next(RunFrom(s, es[..|es| - 1]), es[|es| - 1])
  }

  // Any cache directory, left by whatever happened before, with no process around and no work seen.
  predicate Quiet(s: Cache) {
    && s.holders == map[] && s.processes == map[] && s.worked == map[] && s.settled == {} && 0.0 <= s.clock
    && (forall e | e in s.buckets && BucketName(e.key) && Valid(s, e, s.buckets[e]) ::
          e in s.uses && Some(s.uses[e]) == s.buckets[e].record.value.lastUsed)
  }

  // ----- The invariant -----

  // A process is named by the lock it holds, and two holders of one lock are one builder and its child.
  predicate LocksHold(s: Cache) {
    && (forall p | p in s.processes && Target(s.processes[p]).Some? :: Parent(p) in Holders(s, Target(s.processes[p]).value))
    && (forall e, h | e in s.holders && h in s.holders[e] && h.Parent? :: Target(ProcessOf(s, h.pid)) == Some(e))
    && (forall e, h, k | e in s.holders && h in s.holders[e] && k in s.holders[e] :: h.pid == k.pid)
  }

  // The bucket is published and usable: valid record (of the last recorded use) and build directory.
  predicate Usable(s: Cache, e: Entry) {
    e in s.buckets && Valid(s, e, s.buckets[e]) && s.buckets[e].build
  }

  predicate ProcessHolds(s: Cache, p: Pid, x: Process) {
    && (Target(x).Some? ==> BucketName(Target(x).value.key))
    && match x
       case Locked(_, now) => 0.0 <= now
       case Owned(e, now) => 0.0 <= now && e in s.buckets && Valid(s, e, s.buckets[e])
       case Refreshed(e) => e in s.buckets && Valid(s, e, s.buckets[e])
       case Staging(e, now, st) =>
         && 0.0 <= now && e !in s.buckets && st in s.buckets && StagingName(e, st)
         && (s.buckets[st].record.Some? ==> s.buckets[st].record.value == NewRecord(s, e, now))
         && (s.buckets[st].build ==> s.buckets[st].record.Some?)
       case Ready(e) => Usable(s, e)
       case Building(e) => Usable(s, e)
       case Ending(e) => Usable(s, e)
       case Checking(_, e) => Holders(s, e) == {Parent(p)}
       case Removing(now, e) =>
         && Holders(s, e) == {Parent(p)}
         && e in s.buckets && (s.buckets[e].record.Some? ==> Valid(s, e, s.buckets[e]))
         && e in s.uses && now - s.uses[e] >= MAX_IDLE_SECONDS
       case _ => true
  }

  predicate ProcessesHold(s: Cache) {
    && (forall p | p in s.processes :: ProcessHolds(s, p, s.processes[p]))
    && (forall p, q | p in s.processes && q in s.processes && p != q && s.processes[p].Staging? && s.processes[q].Staging? ::
          s.processes[p].staging != s.processes[q].staging)
  }

  predicate BucketsHold(s: Cache) {
    && 0.0 <= s.clock
    && (forall e, h | e in s.holders && h in s.holders[e] && h.Child? :: Usable(s, e) && BucketName(e.key))
    && (forall e | e in s.buckets && BucketName(e.key) && Valid(s, e, s.buckets[e]) ::
          e in s.uses && Some(s.uses[e]) == s.buckets[e].record.value.lastUsed)
  }

  predicate Inv(s: Cache) {
    LocksHold(s) && ProcessesHold(s) && BucketsHold(s)
  }

  // From s to t, process p has worked on bucket e and its own staging directory, and on nothing else.
  ghost predicate OnlyAt(s: Cache, t: Cache, p: Pid, e: Entry) {
    && t.project == s.project && t.clock == s.clock
    && (forall f | f != e && BucketName(f.key) :: SameAt(s, t, f))
    && t.uses - {e} == s.uses - {e}
    && t.holders - {e} == s.holders - {e} && t.processes - {p} == s.processes - {p}
    && (forall q | q in s.processes && q != p && s.processes[q].Staging? :: SameAt(s, t, s.processes[q].staging))
  }

  predicate SameAt(s: Cache, t: Cache, f: Entry) {
    if f in s.buckets then f in t.buckets && t.buckets[f] == s.buckets[f] else f !in t.buckets
  }

  // A valid record tells the last recorded use.
  predicate Told(t: Cache, e: Entry) {
    e in t.buckets && Valid(t, e, t.buckets[e]) ==> e in t.uses && Some(t.uses[e]) == t.buckets[e].record.value.lastUsed
  }

  // What p must leave behind at e.
  predicate Left(s: Cache, t: Cache, p: Pid, e: Entry) {
    var x := ProcessOf(t, p);
    && BucketName(e.key) && ProcessHolds(t, p, x)
    && Holders(t, e) <= {Parent(p), Child(p)}
    && (Target(x).None? || Target(x) == Some(e))
    && (Parent(p) in Holders(t, e) <==> Target(x) == Some(e))
    && (Child(p) in Holders(t, e) ==> Usable(t, e))
    && Told(t, e)
    && (x.Staging? ==> x.staging !in s.buckets || ProcessOf(s, p) == x)
  }

  // The process that may work on a bucket is its only one.
  predicate Alone(s: Cache, p: Pid, e: Entry) {
    && Holders(s, e) <= {Parent(p), Child(p)}
    && (Target(ProcessOf(s, p)).None? || Target(ProcessOf(s, p)) == Some(e))
  }

  lemma HolderIsAlone(s: Cache, p: Pid, e: Entry)
    requires LocksHold(s) && Target(ProcessOf(s, p)) == Some(e)
    ensures Alone(s, p, e)
  {
    forall h | h in Holders(s, e) ensures h in {Parent(p), Child(p)} {
      assert Parent(p) in Holders(s, e);
      assert h.pid == Parent(p).pid;
      assert h == Parent(h.pid) || h == Child(h.pid);
    }
  }

  lemma FrameLocks(s: Cache, t: Cache, p: Pid, e: Entry)
    requires LocksHold(s) && OnlyAt(s, t, p, e) && Alone(s, p, e) && Left(s, t, p, e)
    ensures LocksHold(t)
  {
    forall q | q in t.processes && Target(t.processes[q]).Some? ensures Parent(q) in Holders(t, Target(t.processes[q]).value) {
      if q != p {
        assert q in t.processes - {p};
        assert t.processes[q] == s.processes[q];
        var f := Target(s.processes[q]).value;
        assert Parent(q) in Holders(s, f);
        assert f in s.holders - {e};
      }
    }
    forall f, h | f in t.holders && h in t.holders[f] && h.Parent? ensures Target(ProcessOf(t, h.pid)) == Some(f) {
      if f != e {
        assert f in t.holders - {e};
        assert h in s.holders[f];
        if h.pid in s.processes && h.pid != p { assert h.pid in s.processes - {p}; }
      }
    }
    forall f, h, k | f in t.holders && h in t.holders[f] && k in t.holders[f] ensures h.pid == k.pid {
      if f != e { assert f in t.holders - {e}; }
    }
  }

  // Another process is not concerned.
  lemma FrameProcess(s: Cache, t: Cache, p: Pid, e: Entry, q: Pid)
    requires LocksHold(s) && OnlyAt(s, t, p, e) && Holders(s, e) <= {Parent(p), Child(p)}
    requires q != p && q in s.processes && ProcessHolds(s, q, s.processes[q])
    ensures ProcessHolds(t, q, s.processes[q])
  {
    var x := s.processes[q];
    if Target(x).Some? {
      var f := Target(x).value;
      assert Parent(q) in Holders(s, f);
      assert f != e;
      assert SameAt(s, t, f);
      assert f in s.uses <==> f in t.uses - {e};
      assert f in s.holders - {e};
    }
  }

  lemma FrameStaging(s: Cache, t: Cache, p: Pid, e: Entry, q: Pid)
    requires ProcessesHold(s) && OnlyAt(s, t, p, e) && Left(s, t, p, e)
    requires q != p && q in s.processes && s.processes[q].Staging? && ProcessOf(t, p).Staging?
    ensures ProcessOf(t, p).staging != s.processes[q].staging
  {
    assert ProcessHolds(s, q, s.processes[q]);
  }

  lemma FrameProcesses(s: Cache, t: Cache, p: Pid, e: Entry)
    requires LocksHold(s) && ProcessesHold(s) && OnlyAt(s, t, p, e) && Alone(s, p, e) && Left(s, t, p, e)
    ensures ProcessesHold(t)
  {
    forall q | q in t.processes ensures ProcessHolds(t, q, t.processes[q]) {
      if q != p {
        assert q in t.processes - {p};
        FrameProcess(s, t, p, e, q);
      }
    }
    forall q, r | q in t.processes && r in t.processes && q != r && t.processes[q].Staging? && t.processes[r].Staging?
      ensures t.processes[q].staging != t.processes[r].staging
    {
      assert q != p ==> q in t.processes - {p};
      assert r != p ==> r in t.processes - {p};
      if q == p { FrameStaging(s, t, p, e, r); }
      if r == p { FrameStaging(s, t, p, e, q); }
    }
  }

  lemma FrameBuckets(s: Cache, t: Cache, p: Pid, e: Entry)
    requires BucketsHold(s) && OnlyAt(s, t, p, e) && Left(s, t, p, e)
    ensures BucketsHold(t)
  {
    forall f, h | f in t.holders && h in t.holders[f] && h.Child? ensures Usable(t, f) && BucketName(f.key) {
      if f != e {
        assert f in t.holders - {e};
        assert h in s.holders[f];
        assert Usable(s, f);
        assert SameAt(s, t, f);
      }
    }
    forall f | f in t.buckets && BucketName(f.key) && Valid(t, f, t.buckets[f])
      ensures f in t.uses && Some(t.uses[f]) == t.buckets[f].record.value.lastUsed
    {
      if f != e {
        assert SameAt(s, t, f);
        assert f in s.uses - {e};
      }
    }
  }

  lemma Frame(s: Cache, t: Cache, p: Pid, e: Entry)
    requires Inv(s) && OnlyAt(s, t, p, e) && Alone(s, p, e) && Left(s, t, p, e)
    ensures Inv(t)
  {
    FrameLocks(s, t, p, e);
    FrameProcesses(s, t, p, e);
    FrameBuckets(s, t, p, e);
  }

  // Work on the bucket itself leaves every staging directory alone.
  lemma OnlyItsBucket(s: Cache, t: Cache, p: Pid, e: Entry)
    requires ProcessesHold(s) && BucketName(e.key)
    requires t.project == s.project && t.clock == s.clock && t.buckets - {e} == s.buckets - {e}
    requires t.uses - {e} == s.uses - {e} && t.holders - {e} == s.holders - {e} && t.processes - {p} == s.processes - {p}
    ensures OnlyAt(s, t, p, e)
  {
    forall f | f != e ensures SameAt(s, t, f) {
      assert f in t.buckets <==> f in t.buckets - {e};
      assert f in s.buckets <==> f in s.buckets - {e};
    }
    forall q | q in s.processes && q != p && s.processes[q].Staging? ensures SameAt(s, t, s.processes[q].staging) {
      assert ProcessHolds(s, q, s.processes[q]);
      StagingIsNoBucket(s.processes[q].entry, s.processes[q].staging);
    }
  }

  lemma ChildUses(s: Cache, p: Pid, e: Entry)
    requires BucketsHold(s)
    ensures Child(p) in Holders(s, e) ==> Usable(s, e)
  {
    if Child(p) in Holders(s, e) {
      var h := Child(p);
      assert e in s.holders && h in s.holders[e] && h.Child?;
    }
  }

  // A free lock can be taken by a process that has none.
  lemma InvAcquire(s: Cache, p: Pid, e: Entry, x: Process)
    requires Inv(s) && Target(ProcessOf(s, p)).None? && Holders(s, e) == {} && Target(x) == Some(e)
    requires ProcessHolds(Acquired(s, p, e), p, x) && !x.Staging?
    ensures Inv(Moved(Acquired(s, p, e), p, x))
  {
    var t := Moved(Acquired(s, p, e), p, x);
    OnlyItsBucket(s, t, p, e);
    AcquiredLeaves(s, p, e, x);
    Frame(s, t, p, e);
  }

  lemma AcquiredLeaves(s: Cache, p: Pid, e: Entry, x: Process)
    requires BucketsHold(s) && Holders(s, e) == {} && Target(x) == Some(e)
    requires ProcessHolds(Acquired(s, p, e), p, x) && !x.Staging?
    ensures Left(s, Moved(Acquired(s, p, e), p, x), p, e)
  {
    assert Told(s, e);
  }

  // Closing the lock leaves a bucket as it is; a child may still hold it.
  lemma InvRelease(s: Cache, p: Pid, e: Entry, x: Process)
    requires Inv(s) && Target(ProcessOf(s, p)) == Some(e) && Target(x).None?
    ensures Inv(Moved(Released(s, p, e), p, x))
  {
    var t := Moved(Released(s, p, e), p, x);
    assert ProcessHolds(s, p, ProcessOf(s, p));
    HolderIsAlone(s, p, e);
    OnlyItsBucket(s, t, p, e);
    ReleasedLeaves(s, p, e, x);
    Frame(s, t, p, e);
  }

  lemma ReleasedLeaves(s: Cache, p: Pid, e: Entry, x: Process)
    requires BucketsHold(s) && BucketName(e.key) && Holders(s, e) <= {Parent(p), Child(p)} && Target(x).None?
    ensures Left(s, Moved(Released(s, p, e), p, x), p, e)
  {
    assert Told(s, e);
    ChildUses(s, p, e);
  }

  // A process that keeps its lock moves on, changing at most its bucket and its staging directory.
  lemma InvKeep(s: Cache, t: Cache, p: Pid, e: Entry)
    requires Inv(s) && Target(ProcessOf(s, p)) == Some(e)
    requires OnlyAt(s, t, p, e) && Target(ProcessOf(t, p)) == Some(e)
    requires Holders(t, e) == Holders(s, e) || (Holders(t, e) == Holders(s, e) + {Child(p)} && Usable(t, e))
    requires ProcessHolds(t, p, ProcessOf(t, p))
    requires (Usable(s, e) ==> Usable(t, e) || Child(p) !in Holders(s, e)) && Told(t, e)
    requires ProcessOf(t, p).Staging? ==> ProcessOf(t, p).staging !in s.buckets || ProcessOf(s, p) == ProcessOf(t, p)
    ensures Inv(t)
  {
    HolderIsAlone(s, p, e);
    assert Parent(p) in Holders(s, e) && ProcessHolds(s, p, ProcessOf(s, p));
    ChildUses(s, p, e);
    Frame(s, t, p, e);
  }

  // A process that keeps its lock and its bucket writes to the bucket.
  lemma InvWrite(s: Cache, t: Cache, p: Pid, e: Entry)
    requires Inv(s) && Target(ProcessOf(s, p)) == Some(e) && Target(ProcessOf(t, p)) == Some(e) && !ProcessOf(t, p).Staging?
    requires t.project == s.project && t.clock == s.clock && t.buckets - {e} == s.buckets - {e}
    requires t.uses - {e} == s.uses - {e} && t.holders == s.holders && t.processes - {p} == s.processes - {p}
    requires ProcessHolds(t, p, ProcessOf(t, p)) && (Usable(s, e) ==> Usable(t, e) || Child(p) !in Holders(s, e)) && Told(t, e)
    ensures Inv(t)
  {
    assert ProcessHolds(s, p, ProcessOf(s, p));
    OnlyItsBucket(s, t, p, e);
    InvKeep(s, t, p, e);
  }

  lemma InvInspected(s: Cache, p: Pid, staging: Entry)
    requires Inv(s)
    ensures Inv(InspectStep(s, p, staging))
  {
    var x := ProcessOf(s, p);
    if x.Locked? {
      if x.entry !in s.buckets {
        InvStages(s, p, staging);
      } else if Valid(s, x.entry, s.buckets[x.entry]) {
        InvOwned(s, p);
      } else {
        InvRelease(s, p, x.entry, Exited);
      }
    }
  }

  lemma InvOwned(s: Cache, p: Pid)
    requires Inv(s) && ProcessOf(s, p).Locked?
    requires ProcessOf(s, p).entry in s.buckets && Valid(s, ProcessOf(s, p).entry, s.buckets[ProcessOf(s, p).entry])
    ensures Inv(Moved(s, p, Owned(ProcessOf(s, p).entry, ProcessOf(s, p).now)))
  {
    var x := ProcessOf(s, p);
    assert ProcessHolds(s, p, x) && Told(s, x.entry);
    InvWrite(s, Moved(s, p, Owned(x.entry, x.now)), p, x.entry);
  }

  lemma InvStages(s: Cache, p: Pid, staging: Entry)
    requires Inv(s) && ProcessOf(s, p).Locked? && ProcessOf(s, p).entry !in s.buckets
    ensures Inv(Inspected(s, p, ProcessOf(s, p).entry, ProcessOf(s, p).now, staging))
  {
    var e, now := ProcessOf(s, p).entry, ProcessOf(s, p).now;
    assert ProcessHolds(s, p, ProcessOf(s, p));
    if staging !in s.buckets && StagingName(e, staging) {
      var t := Inspected(s, p, e, now, staging);
      StagesOnlyAt(s, p, e, now, staging);
      assert Holders(t, e) == Holders(s, e);
      InvKeep(s, t, p, e);
    }
  }

  lemma StagesOnlyAt(s: Cache, p: Pid, e: Entry, now: real, staging: Entry)
    requires ProcessesHold(s) && e !in s.buckets && staging !in s.buckets && StagingName(e, staging)
    ensures OnlyAt(s, Inspected(s, p, e, now, staging), p, e)
  {
    StagingIsNoBucket(e, staging);
    forall q | q in s.processes && s.processes[q].Staging? ensures s.processes[q].staging in s.buckets {
      assert ProcessHolds(s, q, s.processes[q]);
    }
  }

  // The steps of a builder that holds its lock and stays at work on its bucket.
  lemma InvRefreshed(s: Cache, p: Pid)
    requires Inv(s)
    ensures Inv(RefreshStep(s, p))
  {
    var x, t := ProcessOf(s, p), RefreshStep(s, p);
    if t != s {
      assert ProcessHolds(s, p, x);
      InvWrite(s, t, p, x.entry);
    }
  }

  lemma InvBuildMade(s: Cache, p: Pid)
    requires Inv(s)
    ensures Inv(MakeBuildStep(s, p))
  {
    var x, t := ProcessOf(s, p), MakeBuildStep(s, p);
    if t != s {
      assert ProcessHolds(s, p, x) && Told(s, x.entry);
      InvWrite(s, t, p, x.entry);
    }
  }

  // A builder fills its staging directory.
  lemma InvStaged(s: Cache, p: Pid, b: Bucket)
    requires Inv(s) && ProcessOf(s, p).Staging?
    requires ProcessHolds(s.(buckets := s.buckets[ProcessOf(s, p).staging := b]), p, ProcessOf(s, p))
    ensures Inv(s.(buckets := s.buckets[ProcessOf(s, p).staging := b]))
  {
    var x, t := ProcessOf(s, p), s.(buckets := s.buckets[ProcessOf(s, p).staging := b]);
    assert ProcessHolds(s, p, x);
    StagedOnlyAt(s, p, b);
    assert Holders(t, x.entry) == Holders(s, x.entry);
    InvKeep(s, t, p, x.entry);
  }

  lemma StagedOnlyAt(s: Cache, p: Pid, b: Bucket)
    requires ProcessesHold(s) && ProcessOf(s, p).Staging?
    ensures OnlyAt(s, s.(buckets := s.buckets[ProcessOf(s, p).staging := b]), p, ProcessOf(s, p).entry)
  {
    var x := ProcessOf(s, p);
    assert ProcessHolds(s, p, x);
    StagingIsNoBucket(x.entry, x.staging);
  }

  lemma InvRecordStaged(s: Cache, p: Pid)
    requires Inv(s)
    ensures Inv(StageRecordStep(s, p))
  {
    var x := ProcessOf(s, p);
    if StageRecordStep(s, p) != s {
      assert ProcessHolds(s, p, x);
      StagingIsNoBucket(x.entry, x.staging);
      InvStaged(s, p, s.buckets[x.staging].(record := Some(NewRecord(s, x.entry, x.now))));
    }
  }

  lemma InvBuildStaged(s: Cache, p: Pid)
    requires Inv(s)
    ensures Inv(StageBuildStep(s, p))
  {
    var x := ProcessOf(s, p);
    if StageBuildStep(s, p) != s {
      assert ProcessHolds(s, p, x);
      StagingIsNoBucket(x.entry, x.staging);
      InvStaged(s, p, s.buckets[x.staging].(build := true));
    }
  }

  lemma InvPublished(s: Cache, p: Pid)
    requires Inv(s)
    ensures Inv(PublishStep(s, p))
  {
    var x, t := ProcessOf(s, p), PublishStep(s, p);
    if t != s {
      assert ProcessHolds(s, p, x);
      assert Holders(t, x.entry) == Holders(s, x.entry);
      PublishOnlyAt(s, p);
      InvKeep(s, t, p, x.entry);
    }
  }

  lemma PublishOnlyAt(s: Cache, p: Pid)
    requires ProcessesHold(s) && PublishStep(s, p) != s
    ensures OnlyAt(s, PublishStep(s, p), p, ProcessOf(s, p).entry)
  {
    var x := ProcessOf(s, p);
    assert ProcessHolds(s, p, x);
    StagingIsNoBucket(x.entry, x.staging);
    forall q | q in s.processes && q != p && s.processes[q].Staging?
      ensures s.processes[q].staging != x.staging && s.processes[q].staging != x.entry
    {
      assert ProcessHolds(s, q, s.processes[q]);
    }
  }

  lemma InvSpawned(s: Cache, p: Pid)
    requires Inv(s)
    ensures Inv(SpawnStep(s, p))
  {
    var x, t := ProcessOf(s, p), SpawnStep(s, p);
    if x.Ready? {
      assert ProcessHolds(s, p, x) && Told(s, x.entry);
      assert Holders(t, x.entry) == Holders(s, x.entry) + {Child(p)};
      OnlyItsBucket(s, t, p, x.entry);
      InvKeep(s, t, p, x.entry);
    }
  }

  lemma InvReaped(s: Cache, p: Pid)
    requires Inv(s)
    ensures Inv(ReapStep(s, p))
  {
    var x, t := ProcessOf(s, p), ReapStep(s, p);
    if x.Building? || x.Ready? {
      assert ProcessHolds(s, p, x) && Told(s, x.entry);
      InvWrite(s, t, p, x.entry);
    }
  }

  lemma InvUseRecorded(s: Cache, p: Pid)
    requires Inv(s)
    ensures Inv(RecordUseStep(s, p))
  {
    var x, t := ProcessOf(s, p), RecordUseStep(s, p);
    if t != s {
      assert ProcessHolds(s, p, x);
      InvWrite(s, t, p, x.entry);
    }
  }

  lemma InvUsed(s: Cache, p: Pid, step: UseStep)
    requires Inv(s)
    ensures Inv(Used(s, p, step))
  {
    match step
    case Spawn => InvSpawned(s, p);
    case Reap => InvReaped(s, p);
    case RecordUse => InvUseRecorded(s, p);
    case Unlock => if ProcessOf(s, p).Ending? { InvRelease(s, p, ProcessOf(s, p).entry, Scanning(s.clock)); }
  }

  lemma InvUnstaged(s: Cache, p: Pid)
    requires Inv(s) && ProcessOf(s, p).Staging?
    ensures Inv(FailStep(s, p))
  {
    var x, t := ProcessOf(s, p), FailStep(s, p);
    HolderIsAlone(s, p, x.entry);
    assert ProcessHolds(s, p, x);
    UnstageOnlyAt(s, p);
    UnstageLeaves(s, p);
    Frame(s, t, p, x.entry);
  }

  lemma UnstageOnlyAt(s: Cache, p: Pid)
    requires ProcessesHold(s) && ProcessOf(s, p).Staging?
    ensures OnlyAt(s, FailStep(s, p), p, ProcessOf(s, p).entry)
  {
    var x := ProcessOf(s, p);
    assert ProcessHolds(s, p, x);
    StagingIsNoBucket(x.entry, x.staging);
  }

  lemma UnstageLeaves(s: Cache, p: Pid)
    requires BucketsHold(s) && ProcessOf(s, p).Staging? && ProcessHolds(s, p, ProcessOf(s, p))
    requires Holders(s, ProcessOf(s, p).entry) <= {Parent(p), Child(p)}
    ensures Left(s, FailStep(s, p), p, ProcessOf(s, p).entry)
  {
    ChildUses(s, p, ProcessOf(s, p).entry);
  }

  lemma InvFailed(s: Cache, p: Pid)
    requires Inv(s)
    ensures Inv(FailStep(s, p))
  {
    var x := ProcessOf(s, p);
    if x.Staging? {
      InvUnstaged(s, p);
    } else if x.Locked? || x.Owned? || x.Refreshed? {
      InvRelease(s, p, x.entry, Exited);
    }
  }

  lemma InvLocked(s: Cache, p: Pid, e: Entry)
    requires Inv(s)
    ensures Inv(LockStep(s, p, e))
  {
    if LockStep(s, p, e) != s { InvAcquire(s, p, e, Locked(e, s.clock)); }
  }

  lemma InvPrepared(s: Cache, p: Pid, step: PrepareStep)
    requires Inv(s)
    ensures Inv(Prepared(s, p, step))
  {
    match step
    case Lock(e) => InvLocked(s, p, e);
    case Inspect(staging) => InvInspected(s, p, staging);
    case Refresh => InvRefreshed(s, p);
    case MakeBuild => InvBuildMade(s, p);
    case StageRecord => InvRecordStaged(s, p);
    case StageBuild => InvBuildStaged(s, p);
    case Publish => InvPublished(s, p);
    case Fail => InvFailed(s, p);
  }

  // A cleaner takes from the bucket it is removing.
  lemma InvRemoving(s: Cache, p: Pid, b: Bucket)
    requires Inv(s) && ProcessOf(s, p).Removing? && (b.record.Some? ==> b.record == s.buckets[ProcessOf(s, p).entry].record)
    ensures Inv(s.(buckets := s.buckets[ProcessOf(s, p).entry := b]))
  {
    var x := ProcessOf(s, p);
    assert ProcessHolds(s, p, x) && Told(s, x.entry);
    InvWrite(s, s.(buckets := s.buckets[x.entry := b]), p, x.entry);
  }

  lemma InvRecordRemoved(s: Cache, p: Pid)
    requires Inv(s)
    ensures Inv(RemoveRecordStep(s, p))
  {
    if RemoveRecordStep(s, p) != s { InvRemoving(s, p, s.buckets[ProcessOf(s, p).entry].(record := None)); }
  }

  lemma InvBuildRemoved(s: Cache, p: Pid)
    requires Inv(s)
    ensures Inv(RemoveBuildStep(s, p))
  {
    if RemoveBuildStep(s, p) != s { InvRemoving(s, p, s.buckets[ProcessOf(s, p).entry].(build := false)); }
  }

  lemma InvRemoved(s: Cache, p: Pid)
    requires Inv(s)
    ensures Inv(RemoveBucketStep(s, p))
  {
    var x, t := ProcessOf(s, p), RemoveBucketStep(s, p);
    if t != s {
      assert ProcessHolds(s, p, x);
      HolderIsAlone(s, p, x.entry);
      OnlyItsBucket(s, t, p, x.entry);
      RemovedLeaves(s, p);
      Frame(s, t, p, x.entry);
    }
  }

  lemma RemovedLeaves(s: Cache, p: Pid)
    requires ProcessOf(s, p).Removing? && ProcessHolds(s, p, ProcessOf(s, p)) && RemoveBucketStep(s, p) != s
    ensures Left(s, RemoveBucketStep(s, p), p, ProcessOf(s, p).entry)
  {
    assert Holders(RemoveBucketStep(s, p), ProcessOf(s, p).entry) == {};
  }

  lemma InvChecked(s: Cache, p: Pid)
    requires Inv(s)
    ensures Inv(CheckStep(s, p))
  {
    var x := ProcessOf(s, p);
    if x.Checking? {
      if ProcessOf(CheckStep(s, p), p).Removing? {
        InvApproved(s, p);
      } else {
        InvRelease(s, p, x.entry, Scanning(x.now));
      }
    }
  }

  lemma InvApproved(s: Cache, p: Pid)
    requires Inv(s) && ProcessOf(s, p).Checking? && ProcessOf(CheckStep(s, p), p).Removing?
    ensures Inv(CheckStep(s, p))
  {
    var x := ProcessOf(s, p);
    assert ProcessHolds(s, p, x) && Told(s, x.entry);
    InvWrite(s, CheckStep(s, p), p, x.entry);
  }

  // Process facts do not depend on the clock or on other processes.
  lemma ProcessKept(s: Cache, t: Cache, p: Pid, x: Process)
    requires ProcessHolds(s, p, x)
    requires t.project == s.project && t.buckets == s.buckets && t.holders == s.holders && t.uses == s.uses
    ensures ProcessHolds(t, p, x)
  {
  }

  // A process without a lock starts or ends.
  lemma InvIdle(s: Cache, p: Pid, x: Process)
    requires Inv(s) && Target(ProcessOf(s, p)).None? && Target(x).None?
    ensures Inv(Moved(s, p, x))
  {
    IdleLocks(s, p, x);
    IdleProcesses(s, p, x);
    BucketsKept(s, Moved(s, p, x));
  }

  lemma IdleLocks(s: Cache, p: Pid, x: Process)
    requires LocksHold(s) && Target(ProcessOf(s, p)).None? && Target(x).None?
    ensures LocksHold(Moved(s, p, x))
  {
    var t := Moved(s, p, x);
    forall e, h | e in t.holders && h in t.holders[e] && h.Parent? ensures Target(ProcessOf(t, h.pid)) == Some(e) {
      assert Target(ProcessOf(s, h.pid)) == Some(e);
    }
  }

  lemma IdleProcesses(s: Cache, p: Pid, x: Process)
    requires ProcessesHold(s) && Target(x).None?
    ensures ProcessesHold(Moved(s, p, x))
  {
    var t := Moved(s, p, x);
    forall q | q in t.processes ensures ProcessHolds(t, q, t.processes[q]) {
      if q != p { ProcessKept(s, t, q, s.processes[q]); }
    }
  }

  lemma InvTried(s: Cache, p: Pid, e: Entry)
    requires Inv(s)
    ensures Inv(TryLockStep(s, p, e))
  {
    if TryLockStep(s, p, e) != s { InvAcquire(s, p, e, Checking(ProcessOf(s, p).now, e)); }
  }

  lemma InvCleaned(s: Cache, p: Pid, step: CleanStep)
    requires Inv(s)
    ensures Inv(Cleaned(s, p, step))
  {
    var x := ProcessOf(s, p);
    match step
    case Scan => if x == Unstarted { InvIdle(s, p, Scanning(s.clock)); }
    case TryLock(e) => InvTried(s, p, e);
    case Check => InvChecked(s, p);
    case RemoveRecord => InvRecordRemoved(s, p);
    case RemoveBuild => InvBuildRemoved(s, p);
    case RemoveBucket => InvRemoved(s, p);
    case RemoveError => if x.Removing? { InvRelease(s, p, x.entry, Scanning(x.now)); }
    case Finish => if x.Scanning? { InvIdle(s, p, Exited); }
  }

  lemma InvChildExit(s: Cache, p: Pid, e: Entry)
    requires Inv(s)
    ensures Inv(Next(s, ChildExit(p, e)))
  {
    if Child(p) in Holders(s, e) {
      InvRested(s, e);
      InvChildGone(Rested(s, e), p, e);
    }
  }

  lemma InvChildGone(s: Cache, p: Pid, e: Entry)
    requires Inv(s)
    ensures Inv(s.(holders := s.holders[e := Holders(s, e) - {Child(p)}]))
  {
    var t := s.(holders := s.holders[e := Holders(s, e) - {Child(p)}]);
    forall f, h ensures h in Holders(t, f) <==> h in Holders(s, f) && (h != Child(p) || f != e) {}
    ChildExitProcesses(s, t, p, e);
    forall f, h | f in t.holders && h in t.holders[f] ensures f in s.holders && h in s.holders[f] {
      assert h in Holders(t, f);
    }
    forall f, h | f in t.holders && h in t.holders[f] && h.Child? ensures Usable(t, f) && BucketName(f.key) {
      assert Usable(s, f);
    }
  }

  lemma ChildExitProcesses(s: Cache, t: Cache, p: Pid, e: Entry)
    requires LocksHold(s) && ProcessesHold(s) && t == s.(holders := t.holders)
    requires forall f, h :: h in Holders(t, f) <==> h in Holders(s, f) && (h != Child(p) || f != e)
    ensures ProcessesHold(t)
  {
    forall q | q in t.processes ensures ProcessHolds(t, q, t.processes[q]) {
      assert ProcessHolds(s, q, s.processes[q]);
    }
  }

  lemma LocksKept(s: Cache, t: Cache)
    requires LocksHold(s) && t.processes == s.processes && t.holders == s.holders
    ensures LocksHold(t)
  {
    forall q | q in t.processes && Target(t.processes[q]).Some? ensures Parent(q) in Holders(t, Target(t.processes[q]).value) {
      assert Parent(q) in Holders(s, Target(s.processes[q]).value);
    }
    forall e, h | e in t.holders && h in t.holders[e] && h.Parent? ensures Target(ProcessOf(t, h.pid)) == Some(e) {
      assert Target(ProcessOf(s, h.pid)) == Some(e);
    }
  }

  lemma ProcessesKept(s: Cache, t: Cache)
    requires ProcessesHold(s) && t.processes == s.processes
    requires t.project == s.project && t.buckets == s.buckets && t.holders == s.holders && t.uses == s.uses
    ensures ProcessesHold(t)
  {
    forall q | q in t.processes ensures ProcessHolds(t, q, t.processes[q]) {
      ProcessKept(s, t, q, s.processes[q]);
    }
  }

  lemma BucketsKept(s: Cache, t: Cache)
    requires BucketsHold(s) && 0.0 <= t.clock
    requires t.project == s.project && t.buckets == s.buckets && t.holders == s.holders && t.uses == s.uses
    ensures BucketsHold(t)
  {
    forall f, h | f in t.holders && h in t.holders[f] && h.Child? ensures Usable(t, f) && BucketName(f.key) {
      assert Usable(s, f);
    }
  }

  lemma InvRested(s: Cache, e: Entry)
    requires Inv(s)
    ensures Inv(Rested(s, e))
  {
    var t := Rested(s, e);
    LocksKept(s, t);
    ProcessesKept(s, t);
    BucketsKept(s, t);
  }

  lemma InvTick(s: Cache, time: real)
    requires Inv(s) && 0.0 <= time
    ensures Inv(s.(clock := time))
  {
    var t := s.(clock := time);
    LocksKept(s, t);
    ProcessesKept(s, t);
    BucketsKept(s, t);
  }

  lemma InvNext(s: Cache, e: Event)
    requires Inv(s)
    ensures Inv(Next(s, e))
  {
    match e
    case Tick(time) => if 0.0 <= time { InvTick(s, time); }
    case Prepare(p, step) => InvPrepared(s, p, step);
    case Use(p, step) => InvUsed(s, p, step);
    case Clean(p, step) => InvCleaned(s, p, step);
    case ChildExit(p, entry) => InvChildExit(s, p, entry);
    case Crash(p) => InvCrashed(s, p);
  }

  lemma InvCrashed(s: Cache, p: Pid)
    requires Inv(s)
    ensures Inv(Crashed(s, p))
  {
    var x := ProcessOf(s, p);
    if Target(x).None? {
      InvIdle(s, p, Exited);
    } else if x.Ready? || x.Building? {
      InvRested(s, x.entry);
      InvRelease(Rested(s, x.entry), p, x.entry, Exited);
    } else {
      InvRelease(s, p, Target(x).value, Exited);
    }
  }

  lemma {:induction false} InvRun(s: Cache, es: seq<Event>)
    requires Inv(s)
    ensures Inv(RunFrom(s, es))
  {
    if es != [] {
      InvRun(s, es[..|es| - 1]);
      InvNext(RunFrom(s, es[..|es| - 1]), es[|es| - 1]);
    }
  }

  lemma QuietHolds(s: Cache)
    requires Quiet(s)
    ensures Inv(s)
  {
  }

  ghost predicate Reachable(s: Cache) {
    exists s0, es :: Quiet(s0) && RunFrom(s0, es) == s
  }

  lemma ReachableHolds(s: Cache)
    requires Reachable(s)
    ensures Inv(s)
  {
    var s0, es :| Quiet(s0) && RunFrom(s0, es) == s;
    QuietHolds(s0);
    InvRun(s0, es);
  }
}
