// The clarification form: an editable draft, saved through a port under an idempotency key.
// Each asynchronous method of the source is split at its awaits into atomic segments; the
// port's replies are events that may come in any order, fail, or never come.
module ClarificationSpec {
  import opened Options
  import opened DraftSpec

  type RequestId = nat

  // What the port loads: the draft's snapshot and the server-owned bindings (base revision,
  // product session, publication target) that a save copies into its command.
  datatype Loaded = Loaded(snapshot: Snapshot, bindings: string)

  // The input of one call of the port's save.
  datatype Save = Save(source: Loaded, revision: int, id: RequestId, values: Values)

  datatype Status = Loading | Editing | Failed

  datatype Model = Model(
    draft: Draft,
    snapshot: Option<Loaded>,
    status: Status,
    offline: bool,
    closed: bool,
    pending: Option<RequestId>,
    last: Option<RequestId>,
    generation: nat)

  function FormPolicy(): Policy {
    Policy(true, {})
  }

  function Initial(): Model {
    Model(Cleared(), None, Loading, false, false, None, None, 0)
  }

  function LoadArrived(m: Model, generation: nat, loaded: Loaded): Model {
    if m.closed || generation != m.generation then m
    else m.(snapshot := Some(loaded), draft := Synchronized(FormPolicy(), m.draft, loaded.snapshot), status := Editing)
  }

  function LoadFailed(m: Model, starting: bool): Model {
    if m.closed || !starting then m else m.(status := Failed)
  }

  function FieldEdited(m: Model, f: Field, v: string): Model {
    if m.status != Editing || m.draft.submission.Some? then m
    else m.(draft := Edited(m.draft, f, v), pending := None)
  }

  function ConflictsResolved(m: Model, r: Resolution): Model {
    m.(draft := Resolved(m.draft, r), pending := None)
  }

  // Whether submit reaches the port; `valid` is the verdict of the form's validation.
  predicate Sends(m: Model, valid: bool) {
    && m.status == Editing && m.snapshot.Some? && !m.offline && valid
    && m.draft.dirty != {}
    && Submittable(m.draft)
  }

  function Key(m: Model, minted: RequestId): RequestId {
    if m.pending.Some? then m.pending.value else minted
  }

  function Submitted(m: Model, minted: RequestId): Model {
    m.(draft := Begun(m.draft), generation := m.generation + 1, pending := Some(Key(m, minted)))
  }

  function SaveInput(m: Model, minted: RequestId): Save
    requires m.snapshot.Some? && Submittable(m.draft)
  {
    Save(m.snapshot.value, m.draft.serverRevision.value, Key(m, minted), m.draft.values)
  }

  function SaveCompleted(m: Model, id: RequestId, saved: Loaded): Model {
    if m.closed then m
    else m.(snapshot := Some(saved),
            draft := Finished(Synchronized(FormPolicy(), m.draft, saved.snapshot), Success),
            last := Some(id), pending := None)
  }

  function SaveRejected(m: Model): Model {
    if m.closed then m else m.(draft := Finished(m.draft, Failure))
  }

  function ConflictReloaded(m: Model, latest: Loaded): Model {
    if m.closed then m
    else m.(snapshot := Some(latest),
            draft := Finished(Synchronized(FormPolicy(), m.draft, latest.snapshot), Failure),
            pending := None)
  }

  function ConflictReloadFailed(m: Model): Model {
    m.(draft := Finished(m.draft, Failure))
  }

  function Closed(m: Model): Model {
    m.(closed := true, draft := Cleared())
  }

  // ----- The form and its unanswered calls -----

  // Loads and saves are named by the load generation they were issued at.
  datatype System = System(
    model: Model,
    loads: map<nat, bool>,
    saves: map<nat, RequestId>,
    reloads: set<nat>,
    minted: nat,
    sent: seq<Save>)

  datatype Event =
    | Start
    | Refresh
    | LoadReply(call: nat, loaded: Loaded)
    | LoadError(call: nat)
    | EditField(field: Field, value: string)
    | SetOffline(offline: bool)
    | ResolveConflicts(resolution: Resolution)
    | Submit(valid: bool)
    | SaveReply(call: nat, loaded: Loaded)
    | SaveError(call: nat, conflict: bool)
    | ReloadReply(call: nat, loaded: Loaded)
    | ReloadError(call: nat)
    | Close

  function Begin(s: System, starting: bool): System {
    var m := s.model.(generation := s.model.generation + 1);
    s.(model := m, loads := s.loads[m.generation := starting])
  }

  function Next(s: System, e: Event): System {
    var m := s.model;
    match e
    case Start => Begin(s, true)
    case Refresh => if m.draft.submission.Some? then s else Begin(s, false)
    case LoadReply(c, loaded) =>
      if c in s.loads then s.(model := LoadArrived(m, c, loaded), loads := s.loads - {c}) else s
    case LoadError(c) =>
      if c in s.loads then s.(model := LoadFailed(m, s.loads[c]), loads := s.loads - {c}) else s
    case EditField(f, v) => s.(model := FieldEdited(m, f, v))
    case SetOffline(o) => s.(model := m.(offline := o))
    case ResolveConflicts(r) => s.(model := ConflictsResolved(m, r))
    case Submit(valid) =>
      if !Sends(m, valid) then s
      else
        var input := SaveInput(m, s.minted);
        s.(model := Submitted(m, s.minted),
           saves := s.saves[m.generation + 1 := input.id],
           minted := if m.pending.Some? then s.minted else s.minted + 1,
           sent := s.sent + [input])
    case SaveReply(c, loaded) =>
      if c in s.saves then s.(model := SaveCompleted(m, s.saves[c], loaded), saves := s.saves - {c}) else s
    case SaveError(c, conflict) =>
      if c !in s.saves then s
      else if conflict && !m.closed then s.(saves := s.saves - {c}, reloads := s.reloads + {c})
      else s.(model := SaveRejected(m), saves := s.saves - {c})
    case ReloadReply(c, loaded) =>
      if c in s.reloads then s.(model := ConflictReloaded(m, loaded), reloads := s.reloads - {c}) else s
    case ReloadError(c) =>
      if c in s.reloads then s.(model := ConflictReloadFailed(m), reloads := s.reloads - {c}) else s
    case Close => s.(model := Closed(m))
  }

  function RunAll(es: seq<Event>): System {
    if es == [] then System(Initial(), map[], map[], {}, 0, []) else Next(RunAll(es[..|es| - 1]), es[|es| - 1])
  }

  // The world: what the server holds for a delivery at a revision.
  type World = (string, int) -> Loaded

  predicate Real(w: World, fields: set<Field>, l: Loaded) {
    && l == w(l.snapshot.scope, l.snapshot.revision)
    && WellFormed(l.snapshot) && l.snapshot.values.Keys == fields
  }

  predicate Possible(w: World, fields: set<Field>, e: Event) {
    match e
    case LoadReply(_, l) => Real(w, fields, l)
    case SaveReply(_, l) => Real(w, fields, l)
    case ReloadReply(_, l) => Real(w, fields, l)
    case EditField(f, _) => f in fields
    case _ => true
  }

  predicate PossibleRun(w: World, fields: set<Field>, es: seq<Event>) {
    forall e | e in es :: Possible(w, fields, e)
  }

  // ----- Soundness of the key -----

  // The draft mirrors the world.
  predicate Mirrored(w: World, fields: set<Field>, d: Draft) {
    && Inv(FormPolicy(), fields, d)
    && (d.scope.Some? ==> d.server == w(d.scope.value, d.serverRevision.value).snapshot.values)
  }

  // While the key of `x` may be reused, the draft is still what `x` carried, or has nothing to
  // save, or is blocked by a conflict on each dirty field that only a key-dropping action lifts.
  predicate Guarded(d: Draft, x: Save) {
    Carries(d, x) || d.dirty == {} || Blocked(d)
  }

  predicate Carries(d: Draft, x: Save) {
    d.scope == Some(x.source.snapshot.scope) && d.serverRevision == Some(x.revision) && d.values == x.values
  }

  predicate Blocked(d: Draft) {
    && d.scope.Some? && d.baseRevision.Some? && d.serverRevision.Some?
    && d.baseRevision.value < d.serverRevision.value
    && forall f | f in d.dirty :: Named(d.conflicts, f)
  }

  predicate SourceHolds(w: World, m: Model) {
    m.snapshot.Some? ==>
      && m.snapshot.value == w(m.snapshot.value.snapshot.scope, m.snapshot.value.snapshot.revision)
      && (!m.closed ==> m.draft.scope == Some(m.snapshot.value.snapshot.scope))
  }

  predicate SameWork(x: Save, y: Save) {
    x.source.snapshot.scope == y.source.snapshot.scope && x.revision == y.revision && x.values == y.values
  }

  predicate KeysHold(w: World, s: System) {
    && (forall i | 0 <= i < |s.sent| ::
          && s.sent[i].id < s.minted
          && s.sent[i].source == w(s.sent[i].source.snapshot.scope, s.sent[i].source.snapshot.revision))
    && (s.model.pending.Some? ==> s.model.pending.value < s.minted)
    && (forall i | 0 <= i < |s.sent| && s.model.pending == Some(s.sent[i].id) :: Guarded(s.model.draft, s.sent[i]))
    && (forall i, j | 0 <= i < |s.sent| && 0 <= j < |s.sent| && s.sent[i].id == s.sent[j].id ::
          SameWork(s.sent[i], s.sent[j]))
  }

  predicate Sound(w: World, fields: set<Field>, s: System) {
    && Mirrored(w, fields, s.model.draft)
    && SourceHolds(w, s.model)
    && KeysHold(w, s)
    && (s.model.closed ==> s.model.draft == Cleared())
  }

  lemma MirroredSync(w: World, fields: set<Field>, d: Draft, l: Loaded)
    requires Mirrored(w, fields, d) && Real(w, fields, l)
    ensures Mirrored(w, fields, Synchronized(FormPolicy(), d, l.snapshot))
    ensures Synchronized(FormPolicy(), d, l.snapshot).scope == Some(l.snapshot.scope)
  {
    InvSynchronized(FormPolicy(), fields, d, l.snapshot);
  }

  // A merge at an unchanged revision does not move the draft.
  lemma MergeAtSameRevision(w: World, fields: set<Field>, d: Draft, l: Loaded)
    requires Mirrored(w, fields, d) && Real(w, fields, l)
    requires d.scope == Some(l.snapshot.scope) && d.serverRevision == Some(l.snapshot.revision)
    ensures Merged(FormPolicy(), d, l.snapshot).values == d.values
  {
    MergeOfServer(fields, d, l.snapshot);
  }

  lemma MergeOfServer(fields: set<Field>, d: Draft, s: Snapshot)
    requires Shaped(fields, d) && d.dirty == Difference(d) && d.scope == Some(s.scope) && s.values == d.server
    ensures Merged(FormPolicy(), d, s).values == d.values
  {
    var m := Merged(FormPolicy(), d, s);
    forall f | f in fields ensures m.values[f] == d.values[f] {
      MergedAt(FormPolicy(), d, s, f);
    }
  }

  // A merge past the base revision leaves nothing dirty that is not in conflict.
  lemma MergePastBase(fields: set<Field>, d: Draft, s: Snapshot)
    requires Inv(FormPolicy(), fields, d) && d.scope == Some(s.scope) && !Stale(d, s)
    requires WellFormed(s) && s.values.Keys == fields && d.baseRevision.value < s.revision
    ensures forall f | f in Merged(FormPolicy(), d, s).dirty :: Named(Merged(FormPolicy(), d, s).conflicts, f)
  {
    forall f | f in Merged(FormPolicy(), d, s).dirty ensures Named(Merged(FormPolicy(), d, s).conflicts, f) {
      MergeConflictsExactly(FormPolicy(), fields, d, s, f);
    }
  }

  lemma MergeBlocks(fields: set<Field>, d: Draft, s: Snapshot)
    requires Inv(FormPolicy(), fields, d) && d.scope == Some(s.scope) && !Stale(d, s)
    requires WellFormed(s) && s.values.Keys == fields && d.baseRevision.value < s.revision
    ensures Merged(FormPolicy(), d, s).dirty == {} || Blocked(Merged(FormPolicy(), d, s))
  {
    MergePastBase(fields, d, s);
  }

  lemma GuardedSync(w: World, fields: set<Field>, d: Draft, l: Loaded, x: Save)
    requires Mirrored(w, fields, d) && Real(w, fields, l) && Guarded(d, x)
    ensures Guarded(Synchronized(FormPolicy(), d, l.snapshot), x)
  {
    var s := l.snapshot;
    if d.scope == Some(s.scope) && !Stale(d, s) && d.dirty != {} {
      GuardedMerge(w, fields, d, l, x);
    }
  }

  lemma GuardedMerge(w: World, fields: set<Field>, d: Draft, l: Loaded, x: Save)
    requires Mirrored(w, fields, d) && Real(w, fields, l) && Guarded(d, x)
    requires d.scope == Some(l.snapshot.scope) && !Stale(d, l.snapshot) && d.dirty != {}
    ensures Guarded(Merged(FormPolicy(), d, l.snapshot), x)
  {
    if d.serverRevision == Some(l.snapshot.revision) && Carries(d, x) {
      MergeAtSameRevision(w, fields, d, l);
      assert Carries(Merged(FormPolicy(), d, l.snapshot), x);
    } else {
      assert d.baseRevision.value < l.snapshot.revision;
      MergeBlocks(fields, d, l.snapshot);
    }
  }

  // From d to e the draft stays mirrored and every guard stays in place.
  ghost predicate Keeps(w: World, fields: set<Field>, d: Draft, e: Draft) {
    Mirrored(w, fields, e) && forall x: Save | Guarded(d, x) :: Guarded(e, x)
  }

  lemma SyncKeeps(w: World, fields: set<Field>, d: Draft, l: Loaded)
    requires Mirrored(w, fields, d) && Real(w, fields, l)
    ensures Keeps(w, fields, d, Synchronized(FormPolicy(), d, l.snapshot))
    ensures Synchronized(FormPolicy(), d, l.snapshot).scope == Some(l.snapshot.scope)
  {
    MirroredSync(w, fields, d, l);
    forall x: Save | Guarded(d, x) ensures Guarded(Synchronized(FormPolicy(), d, l.snapshot), x) {
      GuardedSync(w, fields, d, l, x);
    }
  }

  lemma FinishKeeps(w: World, fields: set<Field>, d: Draft, outcome: Outcome)
    requires Mirrored(w, fields, d)
    ensures Keeps(w, fields, d, Finished(d, outcome)) && Finished(d, outcome).scope == d.scope
  {
    InvFinished(FormPolicy(), fields, d, outcome);
    forall x: Save | Guarded(d, x) ensures Guarded(Finished(d, outcome), x) { FinishGuards(d, outcome, x); }
  }

  lemma FinishGuards(d: Draft, outcome: Outcome, x: Save)
    requires Guarded(d, x)
    ensures Guarded(Finished(d, outcome), x)
  {
  }

  // From m to n the model may change everything but what a pending key stands for.
  ghost predicate ModelKeeps(w: World, fields: set<Field>, m: Model, n: Model) {
    && Mirrored(w, fields, n.draft)
    && SourceHolds(w, n)
    && (n.closed ==> n.draft == Cleared())
    && (n.pending.Some? ==> n.pending == m.pending && Keeps(w, fields, m.draft, n.draft))
  }

  // A step that sends nothing is sound if it keeps the draft or drops the key.
  lemma SoundSilent(w: World, fields: set<Field>, s: System, t: System)
    requires Sound(w, fields, s) && t.sent == s.sent && t.minted == s.minted
    requires ModelKeeps(w, fields, s.model, t.model)
    ensures Sound(w, fields, t)
  {
  }

  ghost predicate ModelHolds(w: World, fields: set<Field>, m: Model) {
    Mirrored(w, fields, m.draft) && SourceHolds(w, m) && (m.closed ==> m.draft == Cleared())
  }

  lemma LoadKeeps(w: World, fields: set<Field>, m: Model, generation: nat, l: Loaded)
    requires ModelHolds(w, fields, m) && Real(w, fields, l)
    ensures ModelKeeps(w, fields, m, LoadArrived(m, generation, l))
  {
    SyncKeeps(w, fields, m.draft, l);
  }

  lemma SaveKeeps(w: World, fields: set<Field>, m: Model, id: RequestId, l: Loaded)
    requires ModelHolds(w, fields, m) && Real(w, fields, l)
    ensures ModelKeeps(w, fields, m, SaveCompleted(m, id, l))
  {
    SyncKeeps(w, fields, m.draft, l);
    FinishKeeps(w, fields, Synchronized(FormPolicy(), m.draft, l.snapshot), Success);
  }

  lemma ReloadKeeps(w: World, fields: set<Field>, m: Model, l: Loaded)
    requires ModelHolds(w, fields, m) && Real(w, fields, l)
    ensures ModelKeeps(w, fields, m, ConflictReloaded(m, l))
  {
    SyncKeeps(w, fields, m.draft, l);
    FinishKeeps(w, fields, Synchronized(FormPolicy(), m.draft, l.snapshot), Failure);
  }

  lemma FailureKeeps(w: World, fields: set<Field>, m: Model)
    requires ModelHolds(w, fields, m)
    ensures ModelKeeps(w, fields, m, SaveRejected(m)) && ModelKeeps(w, fields, m, ConflictReloadFailed(m))
  {
    FinishKeeps(w, fields, m.draft, Failure);
  }

  lemma EditKeeps(w: World, fields: set<Field>, m: Model, f: Field, v: string)
    requires ModelHolds(w, fields, m) && f in fields
    ensures ModelKeeps(w, fields, m, FieldEdited(m, f, v))
  {
    InvStep(FormPolicy(), fields, m.draft, Edit(f, v));
  }

  lemma ResolveKeeps(w: World, fields: set<Field>, m: Model, r: Resolution)
    requires ModelHolds(w, fields, m)
    ensures ModelKeeps(w, fields, m, ConflictsResolved(m, r))
  {
    InvResolved(FormPolicy(), fields, m.draft, r);
  }

  lemma QuietKeeps(w: World, fields: set<Field>, m: Model, n: Model)
    requires ModelHolds(w, fields, m)
    requires n.draft == m.draft && n.snapshot == m.snapshot && n.closed == m.closed && n.pending == m.pending
    ensures ModelKeeps(w, fields, m, n) && ModelKeeps(w, fields, m, Closed(m))
  {
  }

  lemma SoundSubmit(w: World, fields: set<Field>, s: System, valid: bool)
    requires Sound(w, fields, s)
    ensures Sound(w, fields, Next(s, Submit(valid)))
  {
    var m := s.model;
    if Sends(m, valid) {
      InvStep(FormPolicy(), fields, m.draft, DraftSpec.Begin);
      ResentAlike(w, fields, s, valid);
    }
  }

  // What a kept key was last sent with is what it is sent with now.
  lemma ResentAlike(w: World, fields: set<Field>, s: System, valid: bool)
    requires Sound(w, fields, s) && Sends(s.model, valid)
    ensures forall i | 0 <= i < |s.sent| && s.sent[i].id == SaveInput(s.model, s.minted).id ::
              SameWork(s.sent[i], SaveInput(s.model, s.minted))
  {
    var m := s.model;
    var f :| f in m.draft.dirty;
    assert !Named(m.draft.conflicts, f);
    var x := SaveInput(m, s.minted);
    forall i | 0 <= i < |s.sent| && s.sent[i].id == x.id ensures SameWork(s.sent[i], x) {
      assert m.pending == Some(s.sent[i].id);
    }
  }

  lemma SoundReply(w: World, fields: set<Field>, s: System, e: Event)
    requires Sound(w, fields, s) && Possible(w, fields, e)
    requires e.LoadReply? || e.SaveReply? || e.ReloadReply?
    ensures Sound(w, fields, Next(s, e))
  {
    match e {
      case LoadReply(c, l) => LoadKeeps(w, fields, s.model, c, l);
      case SaveReply(c, l) => if c in s.saves { SaveKeeps(w, fields, s.model, s.saves[c], l); }
      case ReloadReply(_, l) => ReloadKeeps(w, fields, s.model, l);
    }
    if Next(s, e) != s { SoundSilent(w, fields, s, Next(s, e)); }
  }

  lemma SoundOther(w: World, fields: set<Field>, s: System, e: Event)
    requires Sound(w, fields, s) && Possible(w, fields, e)
    requires !(e.LoadReply? || e.SaveReply? || e.ReloadReply? || e.Submit?)
    ensures Sound(w, fields, Next(s, e))
  {
    match e {
      case EditField(f, v) => EditKeeps(w, fields, s.model, f, v);
      case ResolveConflicts(r) => ResolveKeeps(w, fields, s.model, r);
      case SaveError(_, _) => FailureKeeps(w, fields, s.model);
      case ReloadError(_) => FailureKeeps(w, fields, s.model);
      case _ => SoundQuiet(w, fields, s, e);
    }
    if !Quiet(e) && Next(s, e).model != s.model { SoundSilent(w, fields, s, Next(s, e)); }
  }

  predicate Quiet(e: Event) {
    e.Start? || e.Refresh? || e.LoadError? || e.SetOffline? || e.Close?
  }

  lemma SoundQuiet(w: World, fields: set<Field>, s: System, e: Event)
    requires Sound(w, fields, s) && Quiet(e)
    ensures Sound(w, fields, Next(s, e))
  {
    QuietKeeps(w, fields, s.model, if e.Close? then s.model else Next(s, e).model);
    if Next(s, e).model != s.model { SoundSilent(w, fields, s, Next(s, e)); }
  }

  lemma {:induction false} SoundRun(w: World, fields: set<Field>, es: seq<Event>)
    requires PossibleRun(w, fields, es)
    ensures Sound(w, fields, RunAll(es))
  {
    if es != [] {
      var s, e := RunAll(es[..|es| - 1]), es[|es| - 1];
      SoundRun(w, fields, es[..|es| - 1]);
      assert Possible(w, fields, e);
      if e.LoadReply? || e.SaveReply? || e.ReloadReply? {
        SoundReply(w, fields, s, e);
      } else if e.Submit? {
        SoundSubmit(w, fields, s, e.valid);
      } else {
        SoundOther(w, fields, s, e);
      }
    }
  }

  // One request id is never sent with two expected revisions or two sets of values, nor for two
  // deliveries; and the whole save inputs agree exactly when their sources are of one revision.
  lemma OneKeyOneRequest(w: World, fields: set<Field>, es: seq<Event>, i: nat, j: nat)
    requires PossibleRun(w, fields, es)
    requires i < |RunAll(es).sent| && j < |RunAll(es).sent| && RunAll(es).sent[i].id == RunAll(es).sent[j].id
    ensures var x, y := RunAll(es).sent[i], RunAll(es).sent[j];
            && SameWork(x, y)
            && (x == y <==> x.source.snapshot.revision == y.source.snapshot.revision)
  {
    SoundRun(w, fields, es);
  }

  // The reply that an event brings in and that the form applies, if any.
  function AppliedReply(s: System, e: Event): Option<Loaded> {
    if s.model.closed then None
    else
      match e
      case LoadReply(c, l) => if c in s.loads && c == s.model.generation then Some(l) else None
      case SaveReply(c, l) => if c in s.saves then Some(l) else None
      case ReloadReply(c, l) => if c in s.reloads then Some(l) else None
      case _ => None
  }

  // It is older than what the draft has seen of the same delivery.
  predicate Older(d: Draft, l: Loaded) {
    d.scope == Some(l.snapshot.scope) && Stale(d, l.snapshot)
  }

  // The last reply applied in a run was older than the draft.
  predicate LastWasOlder(es: seq<Event>) {
    es != []
    && var front, e := es[..|es| - 1], es[|es| - 1];
       var reply := AppliedReply(RunAll(front), e);
       if reply.Some? then Older(RunAll(front).model.draft, reply.value) else LastWasOlder(front)
  }

  // The form's source is of the draft's revision, exactly unless the last reply was older.
  predicate Matched(m: Model, older: bool) {
    if m.closed then m.draft == Cleared()
    else m.snapshot.Some? ==> (m.draft.serverRevision == Some(m.snapshot.value.snapshot.revision) <==> !older)
  }

  lemma MatchedReply(s: System, e: Event, older: bool)
    requires Matched(s.model, older) && AppliedReply(s, e).Some?
    ensures Matched(Next(s, e).model, Older(s.model.draft, AppliedReply(s, e).value))
  {
  }

  lemma MatchedOther(s: System, e: Event, older: bool)
    requires Matched(s.model, older) && AppliedReply(s, e).None?
    ensures Matched(Next(s, e).model, older)
  {
  }

  lemma {:induction false} MatchedRun(es: seq<Event>)
    ensures Matched(RunAll(es).model, LastWasOlder(es))
  {
    if es != [] {
      var front, e := es[..|es| - 1], es[|es| - 1];
      MatchedRun(front);
      if AppliedReply(RunAll(front), e).Some? {
        MatchedReply(RunAll(front), e, LastWasOlder(front));
      } else {
        MatchedOther(RunAll(front), e, LastWasOlder(front));
      }
    }
  }

  // A save is sent with the source of the revision it expects if and only if the last reply that was
  // applied before it was not older than the draft.
  lemma SaveIsCurrentExactly(es: seq<Event>, valid: bool)
    requires Sends(RunAll(es).model, valid)
    ensures var x := SaveInput(RunAll(es).model, RunAll(es).minted);
            x.source.snapshot.revision == x.revision <==> !LastWasOlder(es)
  {
    MatchedRun(es);
  }

  // Save i of a run was sent by event k.
  predicate SentBy(es: seq<Event>, i: nat, k: nat) {
    && k < |es| && es[k].Submit? && Sends(RunAll(es[..k]).model, es[k].valid)
    && |RunAll(es[..k]).sent| == i < |RunAll(es).sent|
    && RunAll(es).sent[i] == SaveInput(RunAll(es[..k]).model, RunAll(es[..k]).minted)
  }

  lemma SentStep(s: System, e: Event)
    ensures var t := Next(s, e);
            if e.Submit? && Sends(s.model, e.valid) then t.sent == s.sent + [SaveInput(s.model, s.minted)] else t.sent == s.sent
  {
  }

  lemma {:induction false} SenderOf(es: seq<Event>, i: nat) returns (k: nat)
    requires i < |RunAll(es).sent|
    ensures SentBy(es, i, k)
  {
    var front, e := es[..|es| - 1], es[|es| - 1];
    SentStep(RunAll(front), e);
    if i < |RunAll(front).sent| {
      k := SenderOf(front, i);
      assert front[..k] == es[..k] && front[k] == es[k];
    } else {
      k := |front|;
    }
  }

  // Two saves under one key are one save if both were sent after a reply that was not older, and are
  // not if only one was.
  lemma OneKeyOneRequestInOrder(w: World, fields: set<Field>, es: seq<Event>, i: nat, j: nat) returns (k: nat, l: nat)
    requires PossibleRun(w, fields, es)
    requires i < |RunAll(es).sent| && j < |RunAll(es).sent| && RunAll(es).sent[i].id == RunAll(es).sent[j].id
    ensures SentBy(es, i, k) && SentBy(es, j, l)
    ensures !LastWasOlder(es[..k]) && !LastWasOlder(es[..l]) ==> RunAll(es).sent[i] == RunAll(es).sent[j]
    ensures LastWasOlder(es[..k]) != LastWasOlder(es[..l]) ==> RunAll(es).sent[i] != RunAll(es).sent[j]
  {
    k := SenderOf(es, i);
    l := SenderOf(es, j);
    OneKeyOneRequest(w, fields, es, i, j);
    SaveIsCurrentExactly(es[..k], es[k].valid);
    SaveIsCurrentExactly(es[..l], es[l].valid);
  }

  // ----- What the user typed -----

  // The event takes back what the user typed into a dirty field, or replaces it.
  predicate Discarded(s: System, e: Event, f: Field) {
    var d, reply := s.model.draft, AppliedReply(s, e);
    if reply.Some? then
      || d.scope != Some(reply.value.snapshot.scope)
      || (!Stale(d, reply.value.snapshot) && Lookup(reply.value.snapshot.values, f) == Lookup(d.values, f))
      || (e.SaveReply? && d.submission.Some?)
    else
      match e
      case EditField(g, v) => g == f && Some(v) != Lookup(d.values, f) && s.model.status == Editing && d.submission.None?
      case ResolveConflicts(r) => r == UseServer
      case Close => true
      case _ => false
  }

  // The field is still dirty and shows the same.
  predicate StillTyped(d: Draft, t: Draft, f: Field) {
    f in t.dirty && Lookup(t.values, f) == Lookup(d.values, f)
  }

  lemma FormShaped(w: World, fields: set<Field>, es: seq<Event>)
    requires PossibleRun(w, fields, es)
    ensures Shaped(fields, RunAll(es).model.draft) && RunAll(es).model.draft.dirty == Difference(RunAll(es).model.draft)
  {
    SoundRun(w, fields, es);
  }

  lemma ReplyTyped(fields: set<Field>, s: System, e: Event, f: Field)
    requires Shaped(fields, s.model.draft) && f in fields && f in s.model.draft.dirty && AppliedReply(s, e).Some?
    requires AppliedReply(s, e).value.snapshot.values.Keys == fields
    ensures StillTyped(s.model.draft, Next(s, e).model.draft, f) <==> !Discarded(s, e, f)
  {
    var d, l := s.model.draft, AppliedReply(s, e).value;
    EditOverSync(FormPolicy(), fields, d, l.snapshot, f);
    ReplyDraft(s, e, Synchronized(FormPolicy(), d, l.snapshot));
  }

  lemma ReplyDraft(s: System, e: Event, t: Draft)
    requires AppliedReply(s, e).Some? && t == Synchronized(FormPolicy(), s.model.draft, AppliedReply(s, e).value.snapshot)
    ensures Next(s, e).model.draft == if e.LoadReply? then t else Finished(t, if e.SaveReply? then Success else Failure)
  {
  }

  lemma OtherTyped(fields: set<Field>, s: System, e: Event, f: Field)
    requires Shaped(fields, s.model.draft) && s.model.draft.dirty == Difference(s.model.draft) && f in s.model.draft.dirty && AppliedReply(s, e).None?
    ensures StillTyped(s.model.draft, Next(s, e).model.draft, f) <==> !Discarded(s, e, f)
  {
    if e.EditField? {
      EditTyped(s.model, e.field, e.value, f);
    } else if e.ResolveConflicts? {
      ResolveTyped(s.model, e.resolution, f);
    } else {
      RestTyped(s, e, f);
    }
  }

  lemma ResolveTyped(m: Model, r: Resolution, f: Field)
    requires f in m.draft.dirty && m.draft.dirty == Difference(m.draft) && m.draft.scope.Some? && m.draft.serverRevision.Some?
    ensures StillTyped(m.draft, ConflictsResolved(m, r).draft, f) <==> r == KeepDraft
  {
  }

  lemma RestTyped(s: System, e: Event, f: Field)
    requires f in s.model.draft.dirty && AppliedReply(s, e).None? && !e.EditField? && !e.ResolveConflicts?
    ensures StillTyped(s.model.draft, Next(s, e).model.draft, f) <==> !e.Close?
  {
  }

  lemma EditTyped(m: Model, g: Field, v: string, f: Field)
    requires f in m.draft.dirty && m.draft.scope.Some? && Lookup(m.draft.values, f) != Lookup(m.draft.server, f)
    ensures StillTyped(m.draft, FieldEdited(m, g, v).draft, f)
            <==> !(g == f && Some(v) != Lookup(m.draft.values, f) && m.status == Editing && m.draft.submission.None?)
  {
  }

  // In every run: an event leaves what the user typed as it is, exactly unless it is an edit of the
  // field, a choice of the server's values, the close, a save that succeeded, or a reply that is of
  // another delivery or has the very value.
  lemma TypedIsLostExactly(w: World, fields: set<Field>, es: seq<Event>, e: Event, f: Field)
    requires PossibleRun(w, fields, es) && Possible(w, fields, e) && f in RunAll(es).model.draft.dirty
    ensures StillTyped(RunAll(es).model.draft, Next(RunAll(es), e).model.draft, f) <==> !Discarded(RunAll(es), e, f)
  {
    FormShaped(w, fields, es);
    TypedAt(w, fields, RunAll(es), e, f);
  }

  lemma TypedAt(w: World, fields: set<Field>, s: System, e: Event, f: Field)
    requires Shaped(fields, s.model.draft) && s.model.draft.dirty == Difference(s.model.draft)
    requires Possible(w, fields, e) && f in s.model.draft.dirty
    ensures StillTyped(s.model.draft, Next(s, e).model.draft, f) <==> !Discarded(s, e, f)
  {
    if AppliedReply(s, e).Some? {
      ReplyTyped(fields, s, e, f);
    } else {
      OtherTyped(fields, s, e, f);
    }
  }

  // A reply has moved on from the revision or from the value that an edit started at.
  predicate MovedOn(d: Draft, s: Snapshot, f: Field) {
    d.baseRevision != Some(s.revision) || Lookup(d.base, f) != Lookup(s.values, f)
  }

  // A reply to a reload that meets an edit it does not agree with.
  predicate Meets(fields: set<Field>, s: System, call: nat, l: Loaded, f: Field) {
    && call in s.reloads && !s.model.closed && WellFormed(l.snapshot) && l.snapshot.values.Keys == fields
    && s.model.draft.scope == Some(l.snapshot.scope) && !Stale(s.model.draft, l.snapshot)
    && f in s.model.draft.dirty && Lookup(s.model.draft.values, f) != Lookup(l.snapshot.values, f)
  }

  lemma ReloadKeepsEdit(fields: set<Field>, s: System, call: nat, l: Loaded, f: Field)
    requires Shaped(fields, s.model.draft) && f in fields && Meets(fields, s, call, l, f)
    ensures StillTyped(s.model.draft, Next(s, ReloadReply(call, l)).model.draft, f)
  {
    ReplyTyped(fields, s, ReloadReply(call, l), f);
  }

  lemma SyncNamesEdit(fields: set<Field>, d: Draft, s: Snapshot, f: Field)
    requires Shaped(fields, d) && f in fields && WellFormed(s) && s.values.Keys == fields
    requires d.scope == Some(s.scope) && !Stale(d, s) && f in d.dirty && Lookup(d.values, f) != Lookup(s.values, f)
    ensures Named(Synchronized(FormPolicy(), d, s).conflicts, f) <==> MovedOn(d, s, f)
  {
    assert f in MergedDirty(d, s);
    MergeConflictsExactly(FormPolicy(), fields, d, s, f);
  }

  lemma ReloadNamesEdit(fields: set<Field>, s: System, call: nat, l: Loaded, f: Field)
    requires Shaped(fields, s.model.draft) && f in fields && Meets(fields, s, call, l, f)
    ensures Named(Next(s, ReloadReply(call, l)).model.draft.conflicts, f) <==> MovedOn(s.model.draft, l.snapshot, f)
  {
    SyncNamesEdit(fields, s.model.draft, l.snapshot, f);
    ReloadedConflicts(s, call, l);
  }

  lemma ReloadedConflicts(s: System, call: nat, l: Loaded)
    requires call in s.reloads && !s.model.closed
    ensures Next(s, ReloadReply(call, l)).model.draft.conflicts == Synchronized(FormPolicy(), s.model.draft, l.snapshot).conflicts
  {
  }

  // The reload after a rejected save: every dirty field that the reply does not agree with keeps its
  // value, stays dirty, and is shown as a conflict exactly if the reply has moved on, which every
  // newer one has.
  lemma ReloadShowsConflicts(w: World, fields: set<Field>, es: seq<Event>, call: nat, l: Loaded, f: Field)
    requires PossibleRun(w, fields, es) && Meets(fields, RunAll(es), call, l, f)
    ensures StillTyped(RunAll(es).model.draft, Next(RunAll(es), ReloadReply(call, l)).model.draft, f)
    ensures Named(Next(RunAll(es), ReloadReply(call, l)).model.draft.conflicts, f) <==> MovedOn(RunAll(es).model.draft, l.snapshot, f)
    ensures RunAll(es).model.draft.serverRevision != Some(l.snapshot.revision) ==> MovedOn(RunAll(es).model.draft, l.snapshot, f)
  {
    FormShaped(w, fields, es);
    ReloadKeepsEdit(fields, RunAll(es), call, l, f);
    ReloadNamesEdit(fields, RunAll(es), call, l, f);
    NewerHasMovedOn(fields, RunAll(es).model.draft, l.snapshot, f);
  }

  lemma NewerHasMovedOn(fields: set<Field>, d: Draft, s: Snapshot, f: Field)
    requires Shaped(fields, d) && d.scope.Some? && !Stale(d, s)
    ensures d.serverRevision != Some(s.revision) ==> MovedOn(d, s, f)
  {
  }

  // A save that succeeded leaves nothing to save: the form shows the server's values, which are those
  // of the reply unless a newer reply came first.
  predicate CleanAfter(d: Draft, t: Draft, l: Loaded) {
    && t.dirty == {} && t.values == t.server && t.conflicts == [] && t.submission.None?
    && t.scope == Some(l.snapshot.scope)
    && (!Older(d, l) ==> t.values == l.snapshot.values)
  }

  lemma SavedIsClean(es: seq<Event>, call: nat, l: Loaded)
    requires call in RunAll(es).saves && !RunAll(es).model.closed && RunAll(es).model.draft.submission.Some?
    ensures var m := Next(RunAll(es), SaveReply(call, l)).model;
            CleanAfter(RunAll(es).model.draft, m.draft, l) && m.pending.None? && m.last == Some(RunAll(es).saves[call])
  {
    SaveCleans(RunAll(es).model.draft, l);
  }

  lemma SaveCleans(d: Draft, l: Loaded)
    requires d.submission.Some?
    ensures CleanAfter(d, Finished(Synchronized(FormPolicy(), d, l.snapshot), Success), l)
  {
  }

  // What was sent is what the form showed: the values with the edits, the revision they are based on.
  lemma SavesCarryTheDraft(w: World, fields: set<Field>, es: seq<Event>, i: nat) returns (k: nat)
    requires PossibleRun(w, fields, es) && i < |RunAll(es).sent|
    ensures k < |es| && es[k] == Submit(true)
    ensures var x, m := RunAll(es).sent[i], RunAll(es[..k]).model;
            && x.values == m.draft.values && Some(x.revision) == m.draft.serverRevision && Some(x.source) == m.snapshot
            && m.draft.scope == Some(x.source.snapshot.scope)
            && m.draft.dirty != {} && m.draft.conflicts == [] && m.draft.submission.None? && !m.closed && !m.offline
  {
    k := SenderOf(es, i);
    assert forall e | e in es[..k] :: e in es;
    SoundRun(w, fields, es[..k]);
  }

  // ----- Keys -----

  // The event ends the use of the pending key.
  predicate DropsKey(s: System, e: Event) {
    match e
    case EditField(_, _) => s.model.status == Editing && s.model.draft.submission.None?
    case ResolveConflicts(_) => true
    case SaveReply(call, _) => call in s.saves && !s.model.closed
    case ReloadReply(call, _) => call in s.reloads && !s.model.closed
    case _ => false
  }

  predicate MintedAbove(s: System) {
    (s.model.pending.Some? ==> s.model.pending.value < s.minted) && forall i | 0 <= i < |s.sent| :: s.sent[i].id < s.minted
  }

  lemma KeyStep(s: System, e: Event)
    requires MintedAbove(s)
    ensures var t := Next(s, e);
            && MintedAbove(t) && s.minted <= t.minted
            && (!(e.Submit? && Sends(s.model, e.valid)) ==> t.sent == s.sent && t.model.pending == if DropsKey(s, e) then None else s.model.pending)
            && (e.Submit? && Sends(s.model, e.valid) ==>
                  && t.model.pending == Some(t.sent[|s.sent|].id) && |t.sent| == |s.sent| + 1 && t.sent[..|s.sent|] == s.sent
                  && t.sent[|s.sent|].id == if s.model.pending.Some? then s.model.pending.value else s.minted)
  {
  }

  // Since save i was sent, no event has ended the use of its key.
  predicate KeptSince(es: seq<Event>, i: nat) {
    es != []
    && var front, e := es[..|es| - 1], es[|es| - 1];
       if i < |RunAll(front).sent| then KeptSince(front, i) && !DropsKey(RunAll(front), e) else i < |RunAll(es).sent|
  }

  lemma {:induction false} KeyKeptExactly(es: seq<Event>, i: nat)
    requires i < |RunAll(es).sent|
    ensures MintedAbove(RunAll(es)) && RunAll(es).sent[i].id < RunAll(es).minted
    ensures RunAll(es).model.pending == Some(RunAll(es).sent[i].id) <==> KeptSince(es, i)
  {
    var front, e := es[..|es| - 1], es[|es| - 1];
    MintedRun(front);
    KeyStep(RunAll(front), e);
    if i < |RunAll(front).sent| { KeyKeptExactly(front, i); }
  }

  lemma {:induction false} MintedRun(es: seq<Event>)
    ensures MintedAbove(RunAll(es))
  {
    if es != [] {
      MintedRun(es[..|es| - 1]);
      KeyStep(RunAll(es[..|es| - 1]), es[|es| - 1]);
    }
  }

  // In every run: a save goes out under the key of an earlier one exactly if since that one nothing was
  // edited or resolved, no save has succeeded and no conflict been reloaded.
  lemma SameKeyExactly(es: seq<Event>, i: nat)
    requires i < |RunAll(es).sent| && Sends(RunAll(es).model, true)
    ensures SaveInput(RunAll(es).model, RunAll(es).minted).id == RunAll(es).sent[i].id <==> KeptSince(es, i)
  {
    KeyKeptExactly(es, i);
  }

  // The form is held by a submission only while a save or the reload after one is under way: it never
  // stays locked once they are answered.
  predicate Answerable(s: System) {
    (s.model.draft.submission.Some? ==> s.saves != map[] || s.reloads != {}) && (s.model.closed ==> s.model.draft == Cleared())
  }

  lemma AnswerableStep(s: System, e: Event)
    requires Answerable(s)
    ensures Answerable(Next(s, e))
  {
    if e.Submit? && Sends(s.model, e.valid) { assert s.model.generation + 1 in Next(s, e).saves; }
    if e.SaveError? && e.call in s.saves && e.conflict && !s.model.closed { assert e.call in Next(s, e).reloads; }
  }

  lemma {:induction false} SubmissionIsAwaited(es: seq<Event>)
    ensures Answerable(RunAll(es))
  {
    if es != [] {
      SubmissionIsAwaited(es[..|es| - 1]);
      AnswerableStep(RunAll(es[..|es| - 1]), es[|es| - 1]);
    }
  }

  // ----- Loads -----

  // The event issues a load or a save.
  predicate Issues(s: System, e: Event) {
    e.Start? || (e.Refresh? && s.model.draft.submission.None?) || (e.Submit? && Sends(s.model, e.valid))
  }

  lemma GenerationStep(s: System, e: Event)
    ensures Next(s, e).model.generation == s.model.generation + if Issues(s, e) then 1 else 0
  {
  }

  // The load that event k issued is the newest call.
  predicate NewestSince(es: seq<Event>, k: nat) {
    forall i | k < i < |es| :: !Issues(RunAll(es[..i]), es[i])
  }

  lemma {:induction false} GenerationSince(es: seq<Event>, k: nat)
    requires k < |es|
    ensures var g := RunAll(es[..k + 1]).model.generation;
            g <= RunAll(es).model.generation && (g == RunAll(es).model.generation <==> NewestSince(es, k))
    decreases |es|
  {
    if k + 1 == |es| {
      assert es[..k + 1] == es;
    } else {
      var front := es[..|es| - 1];
      assert front[..k + 1] == es[..k + 1];
      GenerationSince(front, k);
      GenerationStep(RunAll(front), es[|es| - 1]);
      NewestSnoc(es, k);
    }
  }

  lemma NewestSnoc(es: seq<Event>, k: nat)
    requires k + 1 < |es|
    ensures NewestSince(es, k) <==> NewestSince(es[..|es| - 1], k) && !Issues(RunAll(es[..|es| - 1]), es[|es| - 1])
  {
    var front := es[..|es| - 1];
    assert forall i | 0 <= i < |front| :: front[..i] == es[..i] && front[i] == es[i];
  }

  // A load is applied if and only if nothing has been loaded or saved since it was issued, and the
  // form is open.
  lemma LoadIsAppliedExactly(es: seq<Event>, k: nat, l: Loaded)
    requires k < |es| && (es[k].Start? || es[k].Refresh?) && Issues(RunAll(es[..k]), es[k])
    requires RunAll(es[..k + 1]).model.generation in RunAll(es).loads
    ensures AppliedReply(RunAll(es), LoadReply(RunAll(es[..k + 1]).model.generation, l)).Some?
            <==> NewestSince(es, k) && !RunAll(es).model.closed
  {
    GenerationSince(es, k);
  }

  // What an event tells of the loads, if anything: editing if one is applied, failed if a first one fails.
  function Tells(s: System, e: Event): Option<Status> {
    if e.LoadReply? && AppliedReply(s, e).Some? then Some(Editing)
    else if e.LoadError? && !s.model.closed && e.call in s.loads && s.loads[e.call] then Some(Failed)
    else None
  }

  function LastTold(es: seq<Event>): Status {
    if es == [] then Loading
    else
      var told := Tells(RunAll(es[..|es| - 1]), es[|es| - 1]);
      if told.Some? then told.value else LastTold(es[..|es| - 1])
  }

  lemma StatusStep(s: System, e: Event)
    ensures Next(s, e).model.status == if Tells(s, e).Some? then Tells(s, e).value else s.model.status
  {
  }

  // The status is what was told last, whatever else happened since.
  lemma {:induction false} StatusTellsLastLoad(es: seq<Event>)
    ensures RunAll(es).model.status == LastTold(es)
  {
    if es != [] {
      StatusTellsLastLoad(es[..|es| - 1]);
      StatusStep(RunAll(es[..|es| - 1]), es[|es| - 1]);
    }
  }

  lemma RunSnoc(es: seq<Event>, e: Event)
    ensures RunAll(es + [e]) == Next(RunAll(es), e)
  {
    assert (es + [e])[..|es + [e]| - 1] == es;
  }

  // The revisions can differ: wherever a failed save has left its key, a refresh that answers with an
  // older revision is ignored by the draft, but the next save takes its source from it, under that key.
  lemma OlderRefreshChangesTheSource(s: System, l: Loaded)
    requires Sends(s.model, true) && s.model.pending.Some? && !s.model.closed && Older(s.model.draft, l)
    ensures var t := Next(Next(Next(s, Refresh), LoadReply(s.model.generation + 1, l)), Submit(true));
            t.sent == s.sent + [SaveInput(s.model, s.minted).(source := l)]
  {
    var refreshed := Next(s, Refresh);
    assert refreshed.model == s.model.(generation := s.model.generation + 1);
    var answered := Next(refreshed, LoadReply(s.model.generation + 1, l));
    assert answered.model == refreshed.model.(snapshot := Some(l)) && answered.sent == s.sent;
  }

  // A run that leaves such a key behind: load, edit and save; the save fails without a conflict.

  function At(revision: int): Loaded {
    Loaded(Snapshot("delivery", revision, ["goal"], map["goal" := "old goal"]), if revision == 4 then "before" else "after")
  }

  function AfterStart(): System {
    System(Initial().(generation := 1), map[1 := true], map[], {}, 0, [])
  }

  function AfterLoad(): System {
    System(Model(Adopted(At(5).snapshot), Some(At(5)), Editing, false, false, None, None, 1), map[], map[], {}, 0, [])
  }

  function AfterEdit(): System {
    AfterLoad().(model := AfterLoad().model.(draft := Edited(Adopted(At(5).snapshot), "goal", "new goal")))
  }

  function AfterFailedSave(): System {
    var x := Save(At(5), 5, 0, AfterEdit().model.draft.values);
    System(AfterEdit().model.(pending := Some(0), generation := 2), map[], map[], {}, 1, [x])
  }

  lemma LoadNext()
    ensures Next(AfterStart(), LoadReply(1, At(5))) == AfterLoad()
  {
    assert AfterStart().loads - {1} == map[];
  }

  lemma SubmitNext()
    ensures Next(Next(AfterEdit(), Submit(true)), SaveError(2, false)) == AfterFailedSave()
  {
    var submitted := Next(AfterEdit(), Submit(true));
    assert AfterEdit().model.draft.dirty == {"goal"} && Submittable(AfterEdit().model.draft);
    assert submitted.saves == map[2 := 0] && submitted.saves - {2} == map[];
  }

  lemma Extend(w: World, fields: set<Field>, es: seq<Event>, e: Event) returns (fs: seq<Event>)
    requires PossibleRun(w, fields, es) && Possible(w, fields, e)
    ensures PossibleRun(w, fields, fs) && RunAll(fs) == Next(RunAll(es), e)
  {
    fs := es + [e];
    RunSnoc(es, e);
  }

  lemma FailedSaveIsPossible(w: World) returns (es: seq<Event>)
    requires w("delivery", 5) == At(5)
    ensures PossibleRun(w, {"goal"}, es) && RunAll(es) == AfterFailedSave()
    ensures Sends(AfterFailedSave().model, true) && Older(AfterFailedSave().model.draft, At(4))
  {
    es := Extend(w, {"goal"}, [], Start);
    assert RunAll(es) == AfterStart();
    es := Extend(w, {"goal"}, es, LoadReply(1, At(5)));
    LoadNext();
    es := Extend(w, {"goal"}, es, EditField("goal", "new goal"));
    es := Extend(w, {"goal"}, es, Submit(true));
    es := Extend(w, {"goal"}, es, SaveError(2, false));
    SubmitNext();
  }
}

module ClarificationObject {
  import opened Options
  import opened DraftSpec
  import opened DraftObject
  import opened ClarificationSpec

  class ClarificationViewModel {
    const draft: EditableDraft
    var snapshot: Option<Loaded>
    var status: Status
    var offline: bool
    var closed: bool
    var pendingRequestId: Option<RequestId>
    var lastRequestId: Option<RequestId>
    var loadGeneration: nat

    function View(): Model
      reads this, draft
    {
      Model(draft.View(), snapshot, status, offline, closed, pendingRequestId, lastRequestId, loadGeneration)
    }

    ghost predicate Valid()
      reads this
    {
      draft.policy == FormPolicy()
    }

    constructor ()
      ensures Valid() && fresh(draft) && View() == Initial()
    {
      draft := new EditableDraft(FormPolicy());
      snapshot, status, offline, closed := None, Loading, false, false;
      pendingRequestId, lastRequestId, loadGeneration := None, None, 0;
    }

    // synchronize, up to the awaited load.
    method BeginLoad() returns (generation: nat)
      modifies this
      ensures View() == old(View()).(generation := generation) && generation == old(loadGeneration) + 1
    {
      loadGeneration := loadGeneration + 1;
      generation := loadGeneration;
    }

    // synchronize, after the awaited load.
    method FinishLoad(generation: nat, loaded: Loaded)
      requires Valid() && WellFormed(loaded.snapshot)
      modifies this, draft
      ensures View() == LoadArrived(old(View()), generation, loaded)
    {
      if closed || generation != loadGeneration {
        return;
      }
      snapshot := Some(loaded);
      draft.Synchronize(Some(loaded.snapshot));
      status := Editing;
    }

    // The catch blocks of start and refresh.
    method FailLoad(starting: bool)
      modifies this
      ensures View() == LoadFailed(old(View()), starting)
    {
      if closed {
        return;
      }
      if starting {
        status := Failed;
      }
    }

    method Edit(field: Field, value: string)
      modifies this, draft
      ensures View() == FieldEdited(old(View()), field, value)
    {
      if status != Editing || draft.submission.Some? {
        return;
      }
      draft.Edit(field, value);
      pendingRequestId := None;
    }

    method SetOffline(value: bool)
      modifies this
      ensures View() == old(View()).(offline := value)
    {
      offline := value;
    }

    method ResolveConflicts(resolution: Resolution)
      modifies this, draft
      ensures View() == ConflictsResolved(old(View()), resolution)
    {
      draft.ResolveConflicts(resolution);
      pendingRequestId := None;
    }

    // submit, up to the awaited save.
    method Submit(valid: bool, nextRequestId: RequestId) returns (input: Option<Save>)
      modifies this, draft
      ensures input.Some? <==> Sends(old(View()), valid)
      ensures input.None? ==> View() == old(View())
      ensures input.Some? ==> View() == Submitted(old(View()), nextRequestId) && input.value == SaveInput(old(View()), nextRequestId)
    {
      if status != Editing || snapshot.None? || offline || !valid || draft.dirty == {} {
        return None;
      }
      var submission := draft.BeginSubmission();
      if submission.None? {
        return None;
      }
      var requestId := if pendingRequestId.Some? then pendingRequestId.value else nextRequestId;
      loadGeneration := loadGeneration + 1;
      pendingRequestId := Some(requestId);
      input := Some(Save(snapshot.value, submission.value.revision, requestId, submission.value.values));
    }

    method CompleteSave(requestId: RequestId, saved: Loaded)
      requires Valid() && WellFormed(saved.snapshot)
      modifies this, draft
      ensures View() == SaveCompleted(old(View()), requestId, saved)
    {
      if closed {
        return;
      }
      snapshot := Some(saved);
      draft.Synchronize(Some(saved.snapshot));
      draft.FinishSubmission(Success);
      lastRequestId, pendingRequestId := Some(requestId), None;
    }

    method RejectSave()
      modifies this, draft
      ensures View() == SaveRejected(old(View()))
    {
      if closed {
        return;
      }
      draft.FinishSubmission(Failure);
    }

    method FinishReload(latest: Loaded)
      requires Valid() && WellFormed(latest.snapshot)
      modifies this, draft
      ensures View() == ConflictReloaded(old(View()), latest)
    {
      if closed {
        return;
      }
      snapshot := Some(latest);
      draft.Synchronize(Some(latest.snapshot));
      pendingRequestId := None;
      draft.FinishSubmission(Failure);
    }

    method FailReload()
      modifies this, draft
      ensures View() == ConflictReloadFailed(old(View()))
    {
      draft.FinishSubmission(Failure);
    }

    method Close()
      modifies this, draft
      ensures View() == Closed(old(View()))
    {
      closed := true;
      draft.Reset();
    }
  }
}
