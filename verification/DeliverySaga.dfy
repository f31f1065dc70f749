// Creating a delivery from a chat: create, work items, start. Every command carries a request id
// and is kept with the attempt, so that a retry sends the same command again.
// SagaSpec holds the creator's segments between awaits and the system of creator, unanswered calls
// and server; SagaObject is the creator with its variables.
module SagaSpec {
  import opened Options

  type RequestId = nat
  type DeliveryId = nat

  // The submitted form after trimming and de-duplication; the source compares it by its JSON text.
  datatype Input = Input(
    title: string, goal: string, baseRevision: string,
    scope: seq<string>, outOfScope: seq<string>, constraints: seq<string>,
    session: Option<string>, criteria: seq<string>, verification: string)

  datatype Request =
    | CreateDelivery(id: RequestId, delivery: DeliveryId, input: Input)
    | CreateItems(id: RequestId, delivery: DeliveryId, revision: int, contractRevision: int,
                  title: string, goal: string, criteria: seq<string>)
    | StartRun(id: RequestId, delivery: DeliveryId, revision: int)

  datatype Attempt = Attempt(input: Input, create: Request, created: Option<int>, items: Option<Request>, start: Option<Request>)

  datatype Status = Idle | Submitting | Waiting | Created | Error | Closed

  datatype Creator = Creator(status: Status, shown: Option<DeliveryId>, attempt: Option<Attempt>, active: Option<nat>, closed: bool)

  datatype Reply =
    | Accepted
    | Completed(revision: int)
    | Mismatched
    | Aggregate(contractRevision: int, criteria: seq<string>)

  // ----- The creator -----

  predicate Blank(input: Input) {
    input.title == "" || input.goal == "" || input.baseRevision == "" || input.scope == [] || input.criteria == []
  }

  function Initial(): Creator {
    Creator(Idle, None, None, None, false)
  }

  function Published(c: Creator, status: Status): Creator {
    c.(status := status,
       shown := if c.attempt.Some? && c.attempt.value.created.Some? then Some(c.attempt.value.create.delivery) else None)
  }

  // The call is refused without starting a run.
  predicate Refused(c: Creator, input: Input) {
    Blank(input) || (c.attempt.Some? && c.attempt.value.input != input)
  }

  predicate Busy(c: Creator) {
    c.closed || c.status == Submitting || c.status == Waiting
  }

  predicate Launches(c: Creator, input: Input) {
    !Busy(c) && !Refused(c, input) && c.status != Created
  }

  function NewAttempt(input: Input, delivery: DeliveryId, id: RequestId): Attempt {
    Attempt(input, CreateDelivery(id, delivery, input), None, None, None)
  }

  function Called(c: Creator, input: Input, controller: nat, delivery: DeliveryId, id: RequestId): Creator {
    if Busy(c) then c
    else if Refused(c, input) then Published(c, Error)
    else if c.status == Created then c
    else
      var attempt := if c.attempt.Some? then c.attempt else Some(NewAttempt(input, delivery, id));
      Published(c.(attempt := attempt, active := Some(controller)), Submitting)
  }

  // The catch block, with the finally block behind it.
  function Failed(c: Creator, controller: nat): Creator {
    if c.closed || c.active != Some(controller) then c else Published(c, Error).(active := None)
  }

  function CreateAnswered(c: Creator, controller: nat, reply: Reply): Creator
    requires c.attempt.Some?
  {
    if c.closed || c.active != Some(controller) then c
    else match reply
      case Accepted => Published(c, Waiting).(active := None)
      case Completed(revision) => c.(attempt := Some(c.attempt.value.(created := Some(revision))))
      case _ => Failed(c, controller)
  }

  function ItemsOf(a: Attempt, contractRevision: int, criteria: seq<string>, id: RequestId): Request
    requires a.created.Some?
  {
    CreateItems(id, a.create.delivery, a.created.value, contractRevision, a.input.title, a.input.goal, criteria)
  }

  function AggregateAnswered(c: Creator, controller: nat, reply: Reply, id: RequestId): Creator
    requires c.attempt.Some? && c.attempt.value.created.Some?
  {
    if reply.Aggregate? then
      c.(attempt := Some(c.attempt.value.(items := Some(ItemsOf(c.attempt.value, reply.contractRevision, reply.criteria, id)))))
    else Failed(c, controller)
  }

  function ItemsAnswered(c: Creator, controller: nat, reply: Reply, id: RequestId): Creator
    requires c.attempt.Some?
  {
    if reply.Completed? then
      c.(attempt := Some(c.attempt.value.(start := Some(StartRun(id, c.attempt.value.create.delivery, reply.revision)))))
    else Failed(c, controller)
  }

  function StartAnswered(c: Creator, controller: nat, reply: Reply): Creator {
    if !reply.Completed? then Failed(c, controller)
    else if c.closed || c.active != Some(controller) then c
    else Published(c, Created).(active := None)
  }

  function Reset(c: Creator): Creator {
    if c.closed || c.status != Created then c else Published(c.(attempt := None), Idle)
  }

  function Cancelled(c: Creator): Creator {
    if c.closed then c
    else if c.active.None? then if c.status == Waiting then Published(c, Error) else c
    else Published(c.(active := None), Error)
  }

  function Shut(c: Creator): Creator {
    if c.closed then c else Published(c.(closed := true, active := None), Closed)
  }

  // ----- Creator, calls and server -----

  datatype Phase = Creating | Querying | Itemizing | Starting

  // A command on the wire, tagged with the number of the attempt it belongs to.
  datatype Sent = Sent(attempt: nat, request: Request)

  // `attempts` remembers every attempt; the last is the creator's while it holds one. `effects` is
  // what the server applied, `announced` the attempts that onCreated was told of.
  datatype System = System(
    creator: Creator, calls: map<nat, Phase>, controllers: nat, ids: nat, deliveries: nat,
    attempts: seq<Attempt>, sent: seq<Sent>, effects: seq<Sent>, announced: seq<nat>)

  datatype Event =
    | Create(input: Input)
    | Resolve(call: nat, reply: Reply)
    | Reject(call: nat)
    | Deliver(index: nat)
    | Cancel
    | Restart
    | Close

  function Start(): System {
    System(Initial(), map[], 0, 0, 0, [], [], [], [])
  }

  predicate AppliedId(effects: seq<Sent>, id: RequestId) {
    exists i | 0 <= i < |effects| :: effects[i].request.id == id
  }

  // A server answers `completed` only for a command it has applied.
  predicate Honest(s: System, phase: Phase, reply: Reply)
    requires s.creator.attempt.Some?
  {
    var a := s.creator.attempt.value;
    reply.Completed? ==>
      && (phase == Creating ==> AppliedId(s.effects, a.create.id))
      && (phase == Itemizing ==> a.items.Some? && AppliedId(s.effects, a.items.value.id))
      && (phase == Starting ==> a.start.Some? && AppliedId(s.effects, a.start.value.id))
  }

  function NextPhase(a: Attempt): Phase {
    if a.created.None? then Creating
    else if a.items.None? then Querying
    else if a.start.None? then Itemizing
    else Starting
  }

  function RequestFor(a: Attempt): Request
    requires NextPhase(a) != Querying
  {
    if a.created.None? then a.create else if a.start.None? then a.items.value else a.start.value
  }

  // The creator's new variables, with the list of attempts kept in step.
  function WithCreator(s: System, c: Creator): System {
    s.(creator := c,
       attempts := if c.attempt.Some? && s.attempts != [] then s.attempts[|s.attempts| - 1 := c.attempt.value] else s.attempts)
  }

  // A run that is still going issues its next call.
  function Issued(s: System, call: nat): System {
    if s.creator.active != Some(call) || s.creator.attempt.None? || s.attempts == [] then s
    else
      var a := s.creator.attempt.value;
      var next := s.(calls := s.calls[call := NextPhase(a)]);
      if NextPhase(a) == Querying then next.(ids := s.ids + 1)
      else next.(sent := s.sent + [Sent(|s.attempts| - 1, RequestFor(a))])
  }

  // A call that goes on with the creator's attempt, or starts one.
  function Relaunch(s: System, c: Creator): System {
    Issued(s.(creator := c, controllers := s.controllers + 1), s.controllers)
  }

  function Opened(s: System, c: Creator): System
    requires c.attempt.Some?
  {
    s.(creator := c, controllers := s.controllers + 1, attempts := s.attempts + [c.attempt.value],
       ids := s.ids + 1, deliveries := s.deliveries + 1)
  }

  function Launch(s: System, c: Creator): System
    requires c.attempt.Some?
  {
    Issued(Opened(s, c), s.controllers)
  }

  function Begun(s: System, input: Input): System {
    var c := Called(s.creator, input, s.controllers, s.deliveries, s.ids);
    if !Launches(s.creator, input) then s.(creator := c)
    else if s.creator.attempt.Some? then Relaunch(s, c)
    else Launch(s, c)
  }

  // The four replies, each with the next call behind it.
  function CreateReplied(s: System, call: nat, reply: Reply): System
    requires s.creator.attempt.Some?
  {
    Issued(WithCreator(s.(calls := s.calls - {call}), CreateAnswered(s.creator, call, reply)), call)
  }

  function QueryReplied(s: System, call: nat, reply: Reply): System
    requires s.creator.attempt.Some? && s.creator.attempt.value.created.Some?
  {
    var ids := if reply.Aggregate? then s.ids + 1 else s.ids;
    Issued(WithCreator(s.(calls := s.calls - {call}), AggregateAnswered(s.creator, call, reply, s.ids)).(ids := ids), call)
  }

  function ItemsReplied(s: System, call: nat, reply: Reply): System
    requires s.creator.attempt.Some?
  {
    var ids := if reply.Completed? then s.ids + 1 else s.ids;
    Issued(WithCreator(s.(calls := s.calls - {call}), ItemsAnswered(s.creator, call, reply, s.ids)).(ids := ids), call)
  }

  function StartReplied(s: System, call: nat, reply: Reply): System {
    var c := StartAnswered(s.creator, call, reply);
    s.(calls := s.calls - {call}, creator := c,
       announced := if c.status == Created && s.attempts != [] then s.announced + [|s.attempts| - 1] else s.announced)
  }

  function Answered(s: System, call: nat, reply: Reply): System
    requires call in s.calls && s.creator.attempt.Some?
    requires s.calls[call] == Querying ==> s.creator.attempt.value.created.Some?
  {
    match s.calls[call]
    case Creating => CreateReplied(s, call, reply)
    case Querying => QueryReplied(s, call, reply)
    case Itemizing => ItemsReplied(s, call, reply)
    case Starting => StartReplied(s, call, reply)
  }

  // An aborted call never resolves: only the active run gets a reply.
  predicate Answerable(s: System, call: nat, reply: Reply) {
    && call in s.calls && s.creator.active == Some(call) && s.creator.attempt.Some?
    && (s.calls[call] == Querying ==> s.creator.attempt.value.created.Some?)
    && Honest(s, s.calls[call], reply)
  }

  function Next(s: System, e: Event): System {
    match e
    case Create(input) => Begun(s, input)
    case Resolve(call, reply) => if Answerable(s, call, reply) then Answered(s, call, reply) else s
    case Reject(call) =>
      if call in s.calls then s.(creator := Failed(s.creator, call), calls := s.calls - {call}) else s
    case Deliver(i) =>
      if i < |s.sent| && !AppliedId(s.effects, s.sent[i].request.id) then s.(effects := s.effects + [s.sent[i]]) else s
    case Cancel => s.(creator := Cancelled(s.creator))
    case Restart => s.(creator := Reset(s.creator))
    case Close => s.(creator := Shut(s.creator))
  }

  function Run(es: seq<Event>): System {
    if es == [] then Start() else Next(Run(es[..|es| - 1]), es[|es| - 1])
  }

  // ----- Exactly once -----

  predicate Applied(effects: seq<Sent>, n: nat, r: Request) {
    Sent(n, r) in effects
  }

  // Ids of an attempt's commands are in use and pairwise different.
  predicate AttemptHolds(ids: nat, effects: seq<Sent>, n: nat, a: Attempt) {
    && a.create.CreateDelivery? && a.create.id < ids && a.create.input == a.input && !Blank(a.input)
    && (a.created.Some? ==> Applied(effects, n, a.create))
    && (a.items.Some? ==>
          && a.created.Some?
          && a.items.value.CreateItems? && a.create.id < a.items.value.id < ids
          && a.items.value.delivery == a.create.delivery && a.items.value.revision == a.created.value
          && a.items.value.title == a.input.title && a.items.value.goal == a.input.goal)
    && (a.start.Some? ==>
          && a.items.Some? && Applied(effects, n, a.items.value)
          && a.start.value.StartRun? && a.items.value.id < a.start.value.id < ids
          && a.start.value.delivery == a.create.delivery)
  }

  predicate Owns(a: Attempt, r: Request) {
    r == a.create || a.items == Some(r) || a.start == Some(r)
  }

  predicate Before(a: Attempt, id: RequestId) {
    && a.create.id < id
    && (a.items.Some? ==> a.items.value.id < id)
    && (a.start.Some? ==> a.start.value.id < id)
  }

  predicate CreatorHolds(s: System) {
    var c := s.creator;
    && (c.attempt.Some? ==> s.attempts != [] && s.attempts[|s.attempts| - 1] == c.attempt.value)
    && (c.active.Some? ==> c.attempt.Some? && !c.closed && c.status == Submitting && c.active.value < s.controllers)
    && (c.status == Created ==>
          && !c.closed && c.attempt.Some? && c.attempt.value.start.Some?
          && c.shown == Some(c.attempt.value.create.delivery)
          && Applied(s.effects, |s.attempts| - 1, c.attempt.value.start.value))
    && (c.active.Some? && c.active.value in s.calls ==> s.calls[c.active.value] == NextPhase(c.attempt.value))
    && CallsBelow(s.calls, s.controllers)
  }

  predicate CallsBelow(calls: map<nat, Phase>, controllers: nat) {
    forall call | call in calls :: call < controllers
  }

  predicate EachHolds(ids: nat, effects: seq<Sent>, attempts: seq<Attempt>) {
    forall n {:trigger AttemptHolds(ids, effects, n, attempts[n])} | 0 <= n < |attempts| :: AttemptHolds(ids, effects, n, attempts[n])
  }

  // Each attempt's ids come before those of the next.
  predicate InOrder(attempts: seq<Attempt>) {
    forall m, n | 0 <= m < n < |attempts| :: Before(attempts[m], attempts[n].create.id)
  }

  predicate AttemptsHold(s: System) {
    EachHolds(s.ids, s.effects, s.attempts) && InOrder(s.attempts)
  }

  predicate Owned(attempts: seq<Attempt>, x: Sent) {
    x.attempt < |attempts| && Owns(attempts[x.attempt], x.request)
  }

  predicate AllOwned(attempts: seq<Attempt>, sent: seq<Sent>) {
    forall x {:trigger Owned(attempts, x)} | x in sent :: Owned(attempts, x)
  }

  predicate AllSent(effects: seq<Sent>, sent: seq<Sent>) {
    forall x | x in effects :: x in sent
  }

  predicate DistinctIds(effects: seq<Sent>) {
    forall i, j | 0 <= i < j < |effects| :: effects[i].request.id != effects[j].request.id
  }

  predicate WireHolds(s: System) {
    AllOwned(s.attempts, s.sent) && AllSent(s.effects, s.sent) && DistinctIds(s.effects)
  }

  predicate Inv(s: System) {
    CreatorHolds(s) && AttemptsHold(s) && WireHolds(s)
  }

  // No two commands of any attempts share an id.
  lemma IdsDiffer(s: System, m: nat, n: nat, q: Request, r: Request)
    requires Inv(s) && m < |s.attempts| && n < |s.attempts|
    requires Owns(s.attempts[m], q) && Owns(s.attempts[n], r) && q.id == r.id
    ensures m == n && q == r
  {
    assert AttemptHolds(s.ids, s.effects, m, s.attempts[m]) && AttemptHolds(s.ids, s.effects, n, s.attempts[n]);
  }

  lemma AppliedByOwner(s: System, n: nat, r: Request)
    requires Inv(s) && n < |s.attempts| && Owns(s.attempts[n], r) && AppliedId(s.effects, r.id)
    ensures Applied(s.effects, n, r)
  {
    var i :| 0 <= i < |s.effects| && s.effects[i].request.id == r.id;
    var x := s.effects[i];
    assert Owned(s.attempts, x);
    IdsDiffer(s, x.attempt, n, x.request, r);
  }

  // Attempts stay in order as ids are minted and effects happen.
  lemma AttemptsKept(s: System, t: System)
    requires AttemptsHold(s) && t.attempts == s.attempts && s.ids <= t.ids
    requires forall x | x in s.effects :: x in t.effects
    ensures AttemptsHold(t)
  {
    forall n | 0 <= n < |t.attempts| ensures AttemptHolds(t.ids, t.effects, n, t.attempts[n]) {
      assert AttemptHolds(s.ids, s.effects, n, s.attempts[n]);
    }
  }

  // A change that touches only the creator's status, its controller, or drops its attempt.
  lemma InvCreator(s: System, c: Creator, calls: map<nat, Phase>)
    requires Inv(s) && (c.attempt == s.creator.attempt || c.attempt.None?)
    requires c.active.None? || (c.active == s.creator.active && c.status == Submitting && c.attempt.Some? && !c.closed)
    requires c.status == Created ==>
               c.status == s.creator.status && !c.closed && c.attempt.Some? && c.shown == s.creator.shown
    requires forall k | k in calls :: k in s.calls && calls[k] == s.calls[k]
    ensures Inv(s.(creator := c, calls := calls))
  {
    AttemptsKept(s, s.(creator := c, calls := calls));
  }

  // The current attempt may gain knowledge and commands, never lose them.
  predicate Extends(a: Attempt, b: Attempt) {
    && b.input == a.input && b.create == a.create
    && (a.created.Some? ==> b.created == a.created)
    && (a.items.Some? ==> b.items == a.items)
    && (a.start.Some? ==> b.start == a.start)
  }

  // The state in which the current attempt has become b.
  function Extended(s: System, b: Attempt, ids: nat, call: nat): System {
    WithCreator(s.(calls := s.calls - {call}), s.creator.(attempt := Some(b))).(ids := ids)
  }

  lemma ExtendAttempts(s: System, b: Attempt, ids: nat, call: nat)
    requires AttemptsHold(s) && s.attempts != [] && s.ids <= ids && Extends(s.attempts[|s.attempts| - 1], b)
    requires AttemptHolds(ids, s.effects, |s.attempts| - 1, b)
    ensures AttemptsHold(Extended(s, b, ids, call))
  {
    var t := Extended(s, b, ids, call);
    forall n | 0 <= n < |t.attempts| ensures AttemptHolds(t.ids, t.effects, n, t.attempts[n]) {
      assert AttemptHolds(s.ids, s.effects, n, s.attempts[n]);
    }
    forall m, n | 0 <= m < n < |t.attempts| ensures Before(t.attempts[m], t.attempts[n].create.id) {
      assert Before(s.attempts[m], s.attempts[n].create.id);
    }
  }

  lemma ExtendWire(s: System, b: Attempt, ids: nat, call: nat)
    requires WireHolds(s) && s.attempts != [] && Extends(s.attempts[|s.attempts| - 1], b)
    ensures WireHolds(Extended(s, b, ids, call))
  {
    var t := Extended(s, b, ids, call);
    forall x | x in t.sent ensures Owned(t.attempts, x) {
      assert Owned(s.attempts, x);
    }
  }

  lemma InvExtend(s: System, b: Attempt, ids: nat, call: nat)
    requires Inv(s) && s.creator.attempt.Some? && s.creator.active == Some(call) && s.ids <= ids
    requires Extends(s.creator.attempt.value, b)
    requires AttemptHolds(ids, s.effects, |s.attempts| - 1, b)
    ensures var t := Extended(s, b, ids, call); Inv(t) && call !in t.calls && t.creator.active == Some(call)
  {
    ExtendAttempts(s, b, ids, call);
    ExtendWire(s, b, ids, call);
  }

  lemma IssuedWire(s: System, call: nat)
    requires WireHolds(s) && (s.creator.attempt.Some? ==> s.attempts != [] && s.attempts[|s.attempts| - 1] == s.creator.attempt.value)
    ensures WireHolds(Issued(s, call))
  {
    var t := Issued(s, call);
    if t.sent != s.sent {
      var x := Sent(|s.attempts| - 1, RequestFor(s.creator.attempt.value));
      assert t.sent == s.sent + [x] && Owned(s.attempts, x);
    }
  }

  lemma IssuedCreator(s: System, call: nat)
    requires CreatorHolds(s) && call !in s.calls && call < s.controllers
    ensures CreatorHolds(Issued(s, call))
  {
    IssuedQuietly(s, call);
  }

  lemma IssuedQuietly(s: System, call: nat)
    ensures var t := Issued(s, call);
            t.creator == s.creator && t.attempts == s.attempts && t.announced == s.announced && t.effects == s.effects && s.ids <= t.ids
  {
  }

  lemma InvIssued(s: System, call: nat)
    requires Inv(s) && call !in s.calls && call < s.controllers
    ensures Inv(Issued(s, call))
  {
    IssuedCreator(s, call);
    IssuedWire(s, call);
    IssuedQuietly(s, call);
    AttemptsKept(s, Issued(s, call));
  }

  // A reply that teaches the attempt b: the run goes on with its next call.
  lemma InvLearned(s: System, b: Attempt, ids: nat, call: nat)
    requires Inv(s) && s.creator.attempt.Some? && s.creator.active == Some(call) && s.ids <= ids
    requires Extends(s.creator.attempt.value, b)
    requires AttemptHolds(ids, s.effects, |s.attempts| - 1, b)
    ensures Inv(Issued(Extended(s, b, ids, call), call))
  {
    InvExtend(s, b, ids, call);
    InvIssued(Extended(s, b, ids, call), call);
  }

  // A run that ends leaves the attempt as it is.
  lemma InvStopped(s: System, call: nat, c: Creator)
    requires Inv(s) && s.creator.active == Some(call) && c.active.None? && c.attempt == s.creator.attempt && c.status != Created
    ensures var t := WithCreator(s.(calls := s.calls - {call}), c); Inv(t) && Issued(t, call) == t
  {
    InvCreator(s, c, s.calls - {call});
    assert s.attempts[|s.attempts| - 1 := c.attempt.value] == s.attempts;
  }

  // The attempt of the active run.
  lemma CurrentAttempt(s: System)
    requires Inv(s) && s.creator.attempt.Some?
    ensures s.attempts != [] && s.attempts[|s.attempts| - 1] == s.creator.attempt.value
    ensures AttemptHolds(s.ids, s.effects, |s.attempts| - 1, s.creator.attempt.value)
  {
  }

  lemma InvCreated(s: System, call: nat, reply: Reply)
    requires Inv(s) && Answerable(s, call, reply) && s.calls[call] == Creating
    ensures Inv(CreateReplied(s, call, reply))
  {
    if reply.Completed? {
      CurrentAttempt(s);
      AppliedByOwner(s, |s.attempts| - 1, s.creator.attempt.value.create);
      LearnCreated(s, call, reply.revision);
    } else {
      InvStopped(s, call, CreateAnswered(s.creator, call, reply));
    }
  }

  lemma LearnCreated(s: System, call: nat, revision: int)
    requires Inv(s) && s.creator.attempt.Some? && s.creator.active == Some(call) && NextPhase(s.creator.attempt.value) == Creating
    requires Applied(s.effects, |s.attempts| - 1, s.creator.attempt.value.create)
    ensures Inv(Issued(Extended(s, s.creator.attempt.value.(created := Some(revision)), s.ids, call), call))
  {
    CurrentAttempt(s);
    var a := s.creator.attempt.value;
    InvLearned(s, a.(created := Some(revision)), s.ids, call);
  }

  function WithItems(s: System, contractRevision: int, criteria: seq<string>): Attempt
    requires s.creator.attempt.Some? && s.creator.attempt.value.created.Some?
  {
    s.creator.attempt.value.(items := Some(ItemsOf(s.creator.attempt.value, contractRevision, criteria, s.ids)))
  }

  function WithStart(s: System, revision: int): Attempt
    requires s.creator.attempt.Some?
  {
    s.creator.attempt.value.(start := Some(StartRun(s.ids, s.creator.attempt.value.create.delivery, revision)))
  }

  lemma InvQueried(s: System, call: nat, reply: Reply)
    requires Inv(s) && Answerable(s, call, reply) && s.calls[call] == Querying
    ensures Inv(QueryReplied(s, call, reply))
  {
    if reply.Aggregate? {
      LearnItems(s, call, reply.contractRevision, reply.criteria);
      AggregateExtends(s, call, reply);
    } else {
      InvStopped(s, call, Failed(s.creator, call));
    }
  }

  lemma AggregateExtends(s: System, call: nat, reply: Reply)
    requires s.creator.attempt.Some? && s.creator.attempt.value.created.Some? && reply.Aggregate?
    ensures QueryReplied(s, call, reply) == Issued(Extended(s, WithItems(s, reply.contractRevision, reply.criteria), s.ids + 1, call), call)
  {
  }

  lemma LearnItems(s: System, call: nat, contractRevision: int, criteria: seq<string>)
    requires Inv(s) && s.creator.attempt.Some? && s.creator.active == Some(call) && NextPhase(s.creator.attempt.value) == Querying
    ensures Inv(Issued(Extended(s, WithItems(s, contractRevision, criteria), s.ids + 1, call), call))
  {
    CurrentAttempt(s);
    ItemsHold(s.ids, s.effects, |s.attempts| - 1, s.creator.attempt.value, contractRevision, criteria);
    InvLearned(s, WithItems(s, contractRevision, criteria), s.ids + 1, call);
  }

  lemma ItemsHold(ids: nat, effects: seq<Sent>, n: nat, a: Attempt, contractRevision: int, criteria: seq<string>)
    requires AttemptHolds(ids, effects, n, a) && NextPhase(a) == Querying
    ensures var b := a.(items := Some(ItemsOf(a, contractRevision, criteria, ids)));
            AttemptHolds(ids + 1, effects, n, b) && Extends(a, b)
  {
  }

  lemma InvItemized(s: System, call: nat, reply: Reply)
    requires Inv(s) && Answerable(s, call, reply) && s.calls[call] == Itemizing
    ensures Inv(ItemsReplied(s, call, reply))
  {
    if reply.Completed? {
      StartKnown(s, call, reply);
      ItemsExtend(s, call, reply);
      LearnStart(s, call, reply.revision);
    } else {
      InvStopped(s, call, Failed(s.creator, call));
    }
  }

  lemma LearnStart(s: System, call: nat, revision: int)
    requires Inv(s) && s.creator.attempt.Some? && s.creator.active == Some(call)
    requires AttemptHolds(s.ids + 1, s.effects, |s.attempts| - 1, WithStart(s, revision))
    requires Extends(s.creator.attempt.value, WithStart(s, revision))
    ensures Inv(Issued(Extended(s, WithStart(s, revision), s.ids + 1, call), call))
  {
    InvLearned(s, WithStart(s, revision), s.ids + 1, call);
  }

  lemma ItemsExtend(s: System, call: nat, reply: Reply)
    requires s.creator.attempt.Some? && reply.Completed?
    ensures ItemsReplied(s, call, reply) == Issued(Extended(s, WithStart(s, reply.revision), s.ids + 1, call), call)
  {
  }

  lemma StartKnown(s: System, call: nat, reply: Reply)
    requires Inv(s) && Answerable(s, call, reply) && s.calls[call] == Itemizing && reply.Completed?
    ensures AttemptHolds(s.ids + 1, s.effects, |s.attempts| - 1, WithStart(s, reply.revision))
    ensures Extends(s.creator.attempt.value, WithStart(s, reply.revision))
  {
    CurrentAttempt(s);
    AppliedByOwner(s, |s.attempts| - 1, s.creator.attempt.value.items.value);
    StartHolds(s.ids, s.effects, |s.attempts| - 1, s.creator.attempt.value, reply.revision);
  }

  lemma StartHolds(ids: nat, effects: seq<Sent>, n: nat, a: Attempt, revision: int)
    requires AttemptHolds(ids, effects, n, a) && NextPhase(a) == Itemizing && Applied(effects, n, a.items.value)
    ensures var b := a.(start := Some(StartRun(ids, a.create.delivery, revision)));
            AttemptHolds(ids + 1, effects, n, b) && Extends(a, b)
  {
  }

  lemma InvStarted(s: System, call: nat, reply: Reply)
    requires Inv(s) && Answerable(s, call, reply) && s.calls[call] == Starting
    ensures Inv(StartReplied(s, call, reply))
  {
    CurrentAttempt(s);
    if reply.Completed? {
      AppliedByOwner(s, |s.attempts| - 1, s.creator.attempt.value.start.value);
      InvFinished(s, call, reply);
    } else {
      InvCreator(s, StartAnswered(s.creator, call, reply), s.calls - {call});
    }
  }

  lemma InvFinished(s: System, call: nat, reply: Reply)
    requires Inv(s) && s.creator.attempt.Some? && s.creator.active == Some(call) && NextPhase(s.creator.attempt.value) == Starting
    requires reply.Completed? && Applied(s.effects, |s.attempts| - 1, s.creator.attempt.value.start.value)
    ensures Inv(StartReplied(s, call, reply))
  {
    CurrentAttempt(s);
  }

  lemma InvBegun(s: System, input: Input)
    requires Inv(s)
    ensures Inv(Begun(s, input))
  {
    var c := Called(s.creator, input, s.controllers, s.deliveries, s.ids);
    if !Launches(s.creator, input) {
      InvCreator(s, c, s.calls);
    } else if s.creator.attempt.Some? {
      InvRelaunched(s, c);
    } else {
      InvLaunched(s, input, c);
    }
  }

  lemma InvLaunched(s: System, input: Input, c: Creator)
    requires Inv(s) && s.creator.attempt.None? && !Blank(input) && c.active == Some(s.controllers) && c.status == Submitting
    requires !c.closed && c.attempt == Some(NewAttempt(input, s.deliveries, s.ids))
    ensures Inv(Launch(s, c))
  {
    InvAppended(s, Opened(s, c));
    InvIssued(Opened(s, c), s.controllers);
  }

  lemma InvTaken(s: System, c: Creator)
    requires Inv(s) && c.attempt.Some? && c.attempt == s.creator.attempt
    requires c.active == Some(s.controllers) && c.status == Submitting && !c.closed
    ensures Inv(s.(creator := c, controllers := s.controllers + 1)) && s.controllers !in s.calls
  {
    AttemptsKept(s, s.(creator := c, controllers := s.controllers + 1));
  }

  lemma InvRelaunched(s: System, c: Creator)
    requires Inv(s) && c.attempt.Some? && c.attempt == s.creator.attempt
    requires c.active == Some(s.controllers) && c.status == Submitting && !c.closed
    ensures Inv(Relaunch(s, c))
  {
    var t := s.(creator := c, controllers := s.controllers + 1);
    InvTaken(s, c);
    InvIssued(t, s.controllers);
  }

  lemma InvAppended(s: System, t: System)
    requires Inv(s) && s.creator.attempt.None? && t.creator.attempt.Some? && t.creator.active == Some(s.controllers)
    requires var a := t.creator.attempt.value;
             && a == NewAttempt(a.input, a.create.delivery, s.ids) && !Blank(a.input)
             && t.attempts == s.attempts + [a]
    requires t.ids == s.ids + 1 && t.controllers == s.controllers + 1 && t.calls == s.calls
    requires t.sent == s.sent && t.effects == s.effects && !t.creator.closed && t.creator.status == Submitting
    ensures Inv(t)
  {
    forall n | 0 <= n < |t.attempts| ensures AttemptHolds(t.ids, t.effects, n, t.attempts[n]) {
      if n < |s.attempts| { assert AttemptHolds(s.ids, s.effects, n, s.attempts[n]); }
    }
    forall m, n | 0 <= m < n < |t.attempts| ensures Before(t.attempts[m], t.attempts[n].create.id) {
      assert AttemptHolds(s.ids, s.effects, m, s.attempts[m]);
    }
    forall x | x in t.sent ensures Owned(t.attempts, x) {
      assert Owned(s.attempts, x);
    }
  }

  lemma InvDeliver(s: System, i: nat)
    requires Inv(s)
    ensures Inv(Next(s, Deliver(i)))
  {
    var t := Next(s, Deliver(i));
    AttemptsKept(s, t);
    DeliveredOnce(s, i);
  }

  lemma DeliveredOnce(s: System, i: nat)
    requires WireHolds(s)
    ensures WireHolds(Next(s, Deliver(i)))
  {
    var t := Next(s, Deliver(i));
    if t != s {
      forall j, k | 0 <= j < k < |t.effects| ensures t.effects[j].request.id != t.effects[k].request.id {
        if k < |s.effects| { assert t.effects[j] == s.effects[j] && t.effects[k] == s.effects[k]; }
      }
    }
  }

  lemma InvAnswered(s: System, call: nat, reply: Reply)
    requires Inv(s) && Answerable(s, call, reply)
    ensures Inv(Answered(s, call, reply))
  {
    match s.calls[call]
    case Creating => InvCreated(s, call, reply);
    case Querying => InvQueried(s, call, reply);
    case Itemizing => InvItemized(s, call, reply);
    case Starting => InvStarted(s, call, reply);
  }

  lemma InvNext(s: System, e: Event)
    requires Inv(s)
    ensures Inv(Next(s, e))
  {
    match e
    case Create(input) => InvBegun(s, input);
    case Resolve(call, reply) => if Answerable(s, call, reply) { InvAnswered(s, call, reply); }
    case Deliver(i) => InvDeliver(s, i);
    case _ => InvControl(s, e);
  }

  lemma InvRejected(s: System, call: nat)
    requires Inv(s)
    ensures Inv(Next(s, Reject(call)))
  {
    if call in s.calls { InvCreator(s, Failed(s.creator, call), s.calls - {call}); }
  }

  lemma InvControl(s: System, e: Event)
    requires Inv(s) && (e.Reject? || e.Cancel? || e.Restart? || e.Close?)
    ensures Inv(Next(s, e))
  {
    match e
    case Reject(call) => InvRejected(s, call);
    case Cancel => InvCreator(s, Cancelled(s.creator), s.calls);
    case Restart => InvCreator(s, Reset(s.creator), s.calls);
    case Close => InvCreator(s, Shut(s.creator), s.calls);
  }

  lemma {:induction false} InvRun(es: seq<Event>)
    ensures Inv(Run(es))
  {
    if es != [] {
      InvRun(es[..|es| - 1]);
      InvNext(Run(es[..|es| - 1]), es[|es| - 1]);
    }
  }

  predicate SameStep(q: Request, r: Request) {
    q.CreateDelivery? == r.CreateDelivery? && q.CreateItems? == r.CreateItems?
  }

  // Every retry sends the very command of the first try: an attempt has one create, one items and
  // one start command, all for one delivery, and no other attempt uses their ids.
  lemma ResentUnchanged(es: seq<Event>, x: Sent, y: Sent)
    requires x in Run(es).sent && y in Run(es).sent
    ensures x.attempt == y.attempt && SameStep(x.request, y.request) ==> x == y
    ensures x.attempt == y.attempt ==> x.request.delivery == y.request.delivery
    ensures x.request.id == y.request.id ==> x == y
  {
    var s := Run(es);
    InvRun(es);
    assert Owned(s.attempts, x) && Owned(s.attempts, y);
    assert AttemptHolds(s.ids, s.effects, x.attempt, s.attempts[x.attempt]) && AttemptHolds(s.ids, s.effects, y.attempt, s.attempts[y.attempt]);
    if x.request.id == y.request.id {
      IdsDiffer(s, x.attempt, y.attempt, x.request, y.request);
    }
  }

  // The server gets at most one effect per step of an attempt.
  lemma AtMostOneEffect(es: seq<Event>, i: nat, j: nat)
    requires i < j < |Run(es).effects|
    ensures var x, y := Run(es).effects[i], Run(es).effects[j]; !(x.attempt == y.attempt && SameStep(x.request, y.request))
  {
    InvRun(es);
    var x, y := Run(es).effects[i], Run(es).effects[j];
    assert x in Run(es).effects && y in Run(es).effects;
    ResentUnchanged(es, x, y);
  }

  // No step is sent before the server has applied the one before it.
  lemma StepsInOrder(es: seq<Event>, x: Sent)
    requires x in Run(es).sent
    ensures x.request.CreateItems? ==>
              exists y | y in Run(es).effects :: y.attempt == x.attempt && y.request.CreateDelivery?
    ensures x.request.StartRun? ==>
              exists y | y in Run(es).effects :: y.attempt == x.attempt && y.request.CreateItems?
  {
    var s := Run(es);
    InvRun(es);
    assert Owned(s.attempts, x);
    var a := s.attempts[x.attempt];
    assert AttemptHolds(s.ids, s.effects, x.attempt, a);
    if x.request.CreateItems? {
      assert Sent(x.attempt, a.create) in s.effects;
    } else if x.request.StartRun? {
      assert Sent(x.attempt, a.items.value) in s.effects;
    }
  }

  predicate Complete(s: System) {
    && s.creator.attempt.Some? && s.creator.attempt.value.items.Some? && s.creator.attempt.value.start.Some?
    && var a, n := s.creator.attempt.value, |s.attempts| - 1;
       && n >= 0 && Applied(s.effects, n, a.create) && Applied(s.effects, n, a.items.value) && Applied(s.effects, n, a.start.value)
       && s.creator.shown == Some(a.create.delivery)
  }

  lemma CompleteWhenCreated(s: System)
    requires Inv(s) && s.creator.status == Created
    ensures Complete(s)
  {
    assert AttemptHolds(s.ids, s.effects, |s.attempts| - 1, s.creator.attempt.value);
  }

  // `created` is shown only when all three steps have happened, for the delivery shown.
  lemma CreatedIsComplete(es: seq<Event>)
    ensures Run(es).creator.status == Created ==> Complete(Run(es))
  {
    InvRun(es);
    if Run(es).creator.status == Created { CompleteWhenCreated(Run(es)); }
  }

  // ----- Announcements -----

  // No create call is refused while `created` is shown.
  predicate Steady(es: seq<Event>) {
    forall k | 0 <= k < |es| :: !Unsteady(Run(es[..k]), es[k])
  }

  predicate AnnouncedHolds(s: System) {
    && (forall i | 0 <= i < |s.announced| :: s.announced[i] < |s.attempts|)
    && (s.creator.status == Created ==> |s.attempts| - 1 in s.announced)
  }

  predicate AnnouncedOnce(s: System) {
    && (forall i, j | 0 <= i < j < |s.announced| :: s.announced[i] != s.announced[j])
    && (|s.attempts| - 1 in s.announced ==> s.creator.attempt.None? || s.creator.status == Created || s.creator.closed)
  }

  // A step after which the announcements hold as before.
  predicate SameNews(s: System, t: System) {
    t.announced == s.announced && |t.attempts| == |s.attempts| && t.creator.status != Created
    && (s.creator.active.Some? && s.creator.status == Submitting ==> t.creator.attempt.Some?)
  }

  // What a reply does that is not the last of the saga.
  lemma MidwayReply(s: System, call: nat, reply: Reply)
    requires Inv(s) && Answerable(s, call, reply) && s.calls[call] != Starting
    ensures SameNews(s, Answered(s, call, reply))
  {
    CurrentAttempt(s);
    match s.calls[call]
    case Creating => IssuedQuietly(WithCreator(s.(calls := s.calls - {call}), CreateAnswered(s.creator, call, reply)), call);
    case Querying => QueryQuietly(s, call, reply);
    case Itemizing => ItemsQuietly(s, call, reply);
  }

  lemma QueryQuietly(s: System, call: nat, reply: Reply)
    requires s.creator.attempt.Some? && s.creator.attempt.value.created.Some? && s.creator.status != Created
    ensures SameNews(s, QueryReplied(s, call, reply))
  {
    var ids := if reply.Aggregate? then s.ids + 1 else s.ids;
    IssuedQuietly(WithCreator(s.(calls := s.calls - {call}), AggregateAnswered(s.creator, call, reply, s.ids)).(ids := ids), call);
  }

  lemma ItemsQuietly(s: System, call: nat, reply: Reply)
    requires s.creator.attempt.Some? && s.creator.status != Created
    ensures SameNews(s, ItemsReplied(s, call, reply))
  {
    var ids := if reply.Completed? then s.ids + 1 else s.ids;
    IssuedQuietly(WithCreator(s.(calls := s.calls - {call}), ItemsAnswered(s.creator, call, reply, s.ids)).(ids := ids), call);
  }

  predicate Unsteady(s: System, e: Event) {
    e.Create? && s.creator.status == Created && Refused(s.creator, e.input)
  }

  lemma AnnouncedReply(s: System, call: nat, reply: Reply)
    requires Inv(s) && Answerable(s, call, reply) && AnnouncedHolds(s)
    ensures AnnouncedHolds(Answered(s, call, reply)) && (AnnouncedOnce(s) ==> AnnouncedOnce(Answered(s, call, reply)))
  {
    if s.calls[call] == Starting {
      AnnouncedStart(s, call, reply);
    } else {
      MidwayReply(s, call, reply);
    }
  }

  lemma AnnouncedStart(s: System, call: nat, reply: Reply)
    requires CreatorHolds(s) && s.creator.attempt.Some? && s.creator.active == Some(call) && AnnouncedHolds(s)
    ensures AnnouncedHolds(StartReplied(s, call, reply))
    ensures AnnouncedOnce(s) ==> AnnouncedOnce(StartReplied(s, call, reply))
  {
    assert s.creator.status == Submitting;
    assert StartReplied(s, call, reply).attempts == s.attempts;
  }

  lemma AnnouncedCreate(s: System, input: Input)
    requires CreatorHolds(s) && AnnouncedHolds(s)
    ensures AnnouncedHolds(Begun(s, input))
    ensures AnnouncedOnce(s) && !Unsteady(s, Create(input)) ==> AnnouncedOnce(Begun(s, input))
  {
    var c := Called(s.creator, input, s.controllers, s.deliveries, s.ids);
    if Launches(s.creator, input) {
      if s.creator.attempt.Some? {
        IssuedQuietly(s.(creator := c, controllers := s.controllers + 1), s.controllers);
      } else {
        IssuedQuietly(Opened(s, c), s.controllers);
      }
    }
  }

  lemma AnnouncedStep(s: System, e: Event)
    requires Inv(s) && AnnouncedHolds(s)
    ensures AnnouncedHolds(Next(s, e))
    ensures AnnouncedOnce(s) && !Unsteady(s, e) ==> AnnouncedOnce(Next(s, e))
  {
    match e
    case Create(input) => AnnouncedCreate(s, input);
    case Resolve(call, reply) => if Answerable(s, call, reply) { AnnouncedReply(s, call, reply); }
    case _ => AnnouncedOther(s, e);
  }

  lemma AnnouncedOther(s: System, e: Event)
    requires CreatorHolds(s) && AnnouncedHolds(s) && !e.Create? && !e.Resolve?
    ensures AnnouncedHolds(Next(s, e)) && (AnnouncedOnce(s) ==> AnnouncedOnce(Next(s, e)))
  {
    assert Next(s, e).announced == s.announced && Next(s, e).attempts == s.attempts;
  }

  lemma {:induction false} AnnouncedRun(es: seq<Event>)
    ensures AnnouncedHolds(Run(es)) && (Steady(es) ==> AnnouncedOnce(Run(es)))
  {
    if es != [] {
      var front := es[..|es| - 1];
      AnnouncedRun(front);
      InvRun(front);
      AnnouncedStep(Run(front), es[|es| - 1]);
      if Steady(es) { SteadyFront(es); }
    }
  }

  lemma SteadyFront(es: seq<Event>)
    requires es != [] && Steady(es)
    ensures Steady(es[..|es| - 1]) && !Unsteady(Run(es[..|es| - 1]), es[|es| - 1])
  {
    var front := es[..|es| - 1];
    forall k | 0 <= k < |front| ensures !Unsteady(Run(front[..k]), front[k]) {
      assert es[..k] == front[..k] && es[k] == front[k];
    }
  }

  // onCreated is told of an attempt at most once if no create call is refused while `created` is
  // shown ...
  lemma AnnouncedAtMostOnce(es: seq<Event>, i: nat, j: nat)
    requires Steady(es) && i < j < |Run(es).announced|
    ensures Run(es).announced[i] != Run(es).announced[j]
  {
    AnnouncedRun(es);
  }

  ghost predicate Reachable(s: System) {
    exists es :: Run(es) == s
  }

  lemma ReachableHolds(s: System)
    requires Reachable(s)
    ensures Inv(s) && AnnouncedHolds(s)
  {
    var es :| Run(es) == s;
    InvRun(es);
    AnnouncedRun(es);
  }

  // ... and wherever one is refused, calling again with the attempt's own input tells it again.
  lemma RefusalAnnouncesAgain(s: System, other: Input, revision: int)
    requires Reachable(s) && Unsteady(s, Create(other))
    ensures Complete(s) && |s.attempts| - 1 in s.announced
    ensures Next(Next(Next(s, Create(other)), Create(s.creator.attempt.value.input)),
                 Resolve(s.controllers, Completed(revision))).announced == s.announced + [|s.attempts| - 1]
  {
    ReachableHolds(s);
    CompleteWhenCreated(s);
    Reannounced(s, other, revision);
  }

  lemma Relaunched(s: System, other: Input)
    requires Inv(s) && s.creator.status == Created && !s.creator.closed && Complete(s) && Refused(s.creator, other)
    ensures var t := Next(Next(s, Create(other)), Create(s.creator.attempt.value.input));
            && t.calls == s.calls[s.controllers := Starting] && t.creator.active == Some(s.controllers)
            && t.creator.attempt == s.creator.attempt && t.attempts == s.attempts && !t.creator.closed
            && t.effects == s.effects && t.announced == s.announced
  {
    var a := s.creator.attempt.value;
    assert AttemptHolds(s.ids, s.effects, |s.attempts| - 1, a);
    var s1 := Next(s, Create(other));
    assert s1 == s.(creator := Published(s.creator, Error));
    assert Launches(s1.creator, a.input);
  }

  lemma Reannounced(s: System, other: Input, revision: int)
    requires Inv(s) && s.creator.status == Created && !s.creator.closed && Complete(s) && Refused(s.creator, other)
    ensures Next(Next(Next(s, Create(other)), Create(s.creator.attempt.value.input)),
                 Resolve(s.controllers, Completed(revision))).announced == s.announced + [|s.attempts| - 1]
  {
    Relaunched(s, other);
    var a := s.creator.attempt.value;
    var t := Next(Next(s, Create(other)), Create(a.input));
    StartAnnounces(t, s.controllers, revision);
  }

  lemma StartAnnounces(t: System, call: nat, revision: int)
    requires call in t.calls && t.calls[call] == Starting && t.creator.active == Some(call) && !t.creator.closed && t.attempts != []
    requires t.creator.attempt.Some? && t.creator.attempt.value.start.Some?
    requires Applied(t.effects, |t.attempts| - 1, t.creator.attempt.value.start.value)
    ensures Next(t, Resolve(call, Completed(revision))).announced == t.announced + [|t.attempts| - 1]
  {
    var r := t.creator.attempt.value.start.value;
    var i :| 0 <= i < |t.effects| && t.effects[i] == Sent(|t.attempts| - 1, r);
    assert AppliedId(t.effects, r.id);
  }
}

module SagaObject {
  import opened Options
  import opened SagaSpec

  class DeliveryCreator {
    var status: Status
    var shown: Option<DeliveryId>
    var attempt: Option<Attempt>
    var active: Option<nat>
    var closed: bool

    function View(): Creator
      reads this
    {
      Creator(status, shown, attempt, active, closed)
    }

    constructor ()
      ensures View() == Initial()
    {
      status, shown, attempt, active, closed := Idle, None, None, None, false;
    }

    method Publish(next: Status)
      modifies this
      ensures View() == Published(old(View()), next)
    {
      status := next;
      shown := if attempt.Some? && attempt.value.created.Some? then Some(attempt.value.create.delivery) else None;
    }

    // create, up to its first await; `launched` says whether a run goes on.
    method Create(input: Input, controller: nat, nextDeliveryId: DeliveryId, nextRequestId: RequestId) returns (launched: bool)
      modifies this
      ensures View() == Called(old(View()), input, controller, nextDeliveryId, nextRequestId)
      ensures launched == Launches(old(View()), input)
    {
      if closed || status == Submitting || status == Waiting {
        return false;
      }
      if Blank(input) || (attempt.Some? && attempt.value.input != input) {
        Publish(Error);
        return false;
      }
      if status == Created {
        return false;
      }
      if attempt.None? {
        attempt := Some(Attempt(input, CreateDelivery(nextRequestId, nextDeliveryId, input), None, None, None));
      }
      active := Some(controller);
      Publish(Submitting);
      return true;
    }

    method Fail(controller: nat)
      modifies this
      ensures View() == Failed(old(View()), controller)
    {
      if closed || active != Some(controller) {
        return;
      }
      Publish(Error);
      active := None;
    }

    method AnswerCreate(controller: nat, reply: Reply)
      requires attempt.Some?
      modifies this
      ensures View() == CreateAnswered(old(View()), controller, reply)
    {
      if closed || active != Some(controller) {
        return;
      }
      match reply {
        case Accepted =>
          Publish(Waiting);
          active := None;
        case Completed(revision) =>
          attempt := Some(attempt.value.(created := Some(revision)));
        case _ =>
          Fail(controller);
      }
    }

    method AnswerAggregate(controller: nat, reply: Reply, nextRequestId: RequestId)
      requires attempt.Some? && attempt.value.created.Some?
      modifies this
      ensures View() == AggregateAnswered(old(View()), controller, reply, nextRequestId)
    {
      if !reply.Aggregate? {
        Fail(controller);
        return;
      }
      var current := attempt.value;
      attempt := Some(current.(items := Some(CreateItems(nextRequestId, current.create.delivery, current.created.value,
                                                         reply.contractRevision, current.input.title, current.input.goal,
                                                         reply.criteria))));
    }

    method AnswerItems(controller: nat, reply: Reply, nextRequestId: RequestId)
      requires attempt.Some?
      modifies this
      ensures View() == ItemsAnswered(old(View()), controller, reply, nextRequestId)
    {
      if !reply.Completed? {
        Fail(controller);
        return;
      }
      attempt := Some(attempt.value.(start := Some(StartRun(nextRequestId, attempt.value.create.delivery, reply.revision))));
    }

    // `announced` says whether onCreated is called.
    method AnswerStart(controller: nat, reply: Reply) returns (announced: bool)
      modifies this
      ensures View() == StartAnswered(old(View()), controller, reply)
      ensures announced == (reply.Completed? && !old(closed) && old(active) == Some(controller))
    {
      if !reply.Completed? {
        Fail(controller);
        return false;
      }
      if closed || active != Some(controller) {
        return false;
      }
      Publish(Created);
      active := None;
      return true;
    }

    method ResetCreated()
      modifies this
      ensures View() == Reset(old(View()))
    {
      if closed || status != Created {
        return;
      }
      attempt := None;
      Publish(Idle);
    }

    method CancelPending()
      modifies this
      ensures View() == Cancelled(old(View()))
    {
      if closed {
        return;
      }
      if active.None? {
        if status == Waiting {
          Publish(Error);
        }
        return;
      }
      active := None;
      Publish(Error);
    }

    method Close()
      modifies this
      ensures View() == Shut(old(View()))
    {
      if closed {
        return;
      }
      closed, active := true, None;
      Publish(Closed);
    }
  }
}
