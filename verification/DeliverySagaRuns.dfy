// What a run of the delivery saga amounts to: how many attempts one submission makes, where the
// parts of its commands come from, that a retry goes on where the last try stopped, and that every
// submission can be completed.
module SagaRuns {
  import opened Options
  import opened SagaSpec

  // ----- Attempts -----

  // A created delivery is put away, which is what lets a new one be submitted.
  predicate PutsAway(s: System, e: Event) {
    e.Restart? && s.creator.status == Created
  }

  function Restarts(es: seq<Event>): nat {
    if es == [] then 0
    else Restarts(es[..|es| - 1]) + if PutsAway(Run(es[..|es| - 1]), es[|es| - 1]) then 1 else 0
  }

  function Current(c: Creator): nat {
    if c.attempt.Some? then 1 else 0
  }

  // How one event changes attempt n.
  datatype Change = Same | New | LearnsCreated(revision: int) | LearnsItems(contract: int, criteria: seq<string>) | LearnsStart(next: int)

  predicate Changes(s: System, t: System, change: Change) {
    match change
    case Same => t.attempts == s.attempts
    case New => |t.attempts| == |s.attempts| + 1 && t.attempts[..|s.attempts|] == s.attempts && t.attempts[|s.attempts|].created.None?
                && t.attempts[|s.attempts|].items.None? && t.attempts[|s.attempts|].start.None?
    case LearnsCreated(r) =>
      s.attempts != [] && t.attempts == s.attempts[|s.attempts| - 1 := s.attempts[|s.attempts| - 1].(created := Some(r))]
    case LearnsItems(c, criteria) =>
      && s.attempts != [] && |t.attempts| == |s.attempts|
      && var a := t.attempts[|s.attempts| - 1];
         && a.items.Some? && a.items.value.CreateItems? && a.items.value.contractRevision == c && a.items.value.criteria == criteria
         && t.attempts == s.attempts[|s.attempts| - 1 := s.attempts[|s.attempts| - 1].(items := a.items)]
    case LearnsStart(r) =>
      && s.attempts != [] && |t.attempts| == |s.attempts|
      && var a := t.attempts[|s.attempts| - 1];
         && a.start.Some? && a.start.value.StartRun? && a.start.value.revision == r
         && t.attempts == s.attempts[|s.attempts| - 1 := s.attempts[|s.attempts| - 1].(start := a.start)]
  }

  // The change an event makes: only replies teach, and each teaches what it says.
  function ChangeOf(s: System, e: Event): Change {
    if e.Create? && Launches(s.creator, e.input) && s.creator.attempt.None? then New
    else if e.Resolve? && Answerable(s, e.call, e.reply) then
      match (s.calls[e.call], e.reply)
      case (Creating, Completed(r)) => LearnsCreated(r)
      case (Querying, Aggregate(c, criteria)) => LearnsItems(c, criteria)
      case (Itemizing, Completed(r)) => LearnsStart(r)
      case _ => Same
    else Same
  }

  lemma ReplyChanges(s: System, call: nat, reply: Reply)
    requires Inv(s) && Answerable(s, call, reply)
    ensures Changes(s, Answered(s, call, reply), ChangeOf(s, Resolve(call, reply)))
    ensures Answered(s, call, reply).creator.attempt.Some?
  {
    CurrentAttempt(s);
    match s.calls[call]
    case Creating => CreateChanges(s, call, reply);
    case Querying => QueryChanges(s, call, reply);
    case Itemizing => ItemsChange(s, call, reply);
    case Starting =>
  }

  lemma CreateChanges(s: System, call: nat, reply: Reply)
    requires s.creator.attempt.Some? && s.attempts != [] && s.attempts[|s.attempts| - 1] == s.creator.attempt.value
    requires s.creator.active == Some(call) && !s.creator.closed
    ensures var t := CreateReplied(s, call, reply);
            t.creator.attempt.Some? && Changes(s, t, if reply.Completed? then LearnsCreated(reply.revision) else Same)
  {
    IssuedQuietly(WithCreator(s.(calls := s.calls - {call}), CreateAnswered(s.creator, call, reply)), call);
  }

  lemma QueryChanges(s: System, call: nat, reply: Reply)
    requires s.creator.attempt.Some? && s.attempts != [] && s.attempts[|s.attempts| - 1] == s.creator.attempt.value
    requires s.creator.attempt.value.created.Some?
    ensures var t := QueryReplied(s, call, reply);
            t.creator.attempt.Some? && Changes(s, t, if reply.Aggregate? then LearnsItems(reply.contractRevision, reply.criteria) else Same)
  {
    var ids := if reply.Aggregate? then s.ids + 1 else s.ids;
    IssuedQuietly(WithCreator(s.(calls := s.calls - {call}), AggregateAnswered(s.creator, call, reply, s.ids)).(ids := ids), call);
  }

  lemma ItemsChange(s: System, call: nat, reply: Reply)
    requires s.creator.attempt.Some? && s.attempts != [] && s.attempts[|s.attempts| - 1] == s.creator.attempt.value
    ensures var t := ItemsReplied(s, call, reply);
            t.creator.attempt.Some? && Changes(s, t, if reply.Completed? then LearnsStart(reply.revision) else Same)
  {
    var ids := if reply.Completed? then s.ids + 1 else s.ids;
    IssuedQuietly(WithCreator(s.(calls := s.calls - {call}), ItemsAnswered(s.creator, call, reply, s.ids)).(ids := ids), call);
  }

  lemma CreateStep(s: System, input: Input)
    ensures var t := Begun(s, input);
            && Changes(s, t, ChangeOf(s, Create(input)))
            && Current(t.creator) == if Launches(s.creator, input) then 1 else Current(s.creator)
  {
    var c := Called(s.creator, input, s.controllers, s.deliveries, s.ids);
    if Launches(s.creator, input) {
      if s.creator.attempt.Some? {
        IssuedQuietly(s.(creator := c, controllers := s.controllers + 1), s.controllers);
      } else {
        IssuedQuietly(Opened(s, c), s.controllers);
      }
    }
  }

  // Only a submission starts an attempt, only putting a created delivery away ends one.
  lemma AttemptStep(s: System, e: Event)
    requires Inv(s)
    ensures Changes(s, Next(s, e), ChangeOf(s, e))
    ensures |Next(s, e).attempts| - Current(Next(s, e).creator)
            == |s.attempts| - Current(s.creator) + if PutsAway(s, e) then 1 else 0
  {
    match e
    case Create(input) => CreateStep(s, input);
    case Resolve(call, reply) => if Answerable(s, call, reply) { ReplyChanges(s, call, reply); }
    case _ =>
  }

  // In every run there are as many attempts as deliveries were put away, and one more while one is
  // under way: however often a submission is cancelled, refused or retried, it makes one attempt.
  lemma {:induction false} AttemptsExactly(es: seq<Event>)
    ensures |Run(es).attempts| == Restarts(es) + Current(Run(es).creator)
  {
    if es != [] {
      AttemptsExactly(es[..|es| - 1]);
      InvRun(es[..|es| - 1]);
      AttemptStep(Run(es[..|es| - 1]), es[|es| - 1]);
    }
  }

  // So the server never applies more creations than that.
  lemma CreationsPerRestart(es: seq<Event>, x: Sent)
    requires x in Run(es).effects
    ensures x.attempt <= Restarts(es)
  {
    InvRun(es);
    AttemptsExactly(es);
    assert Owned(Run(es).attempts, x);
  }

  lemma IssuedSends(s: System, call: nat)
    requires s.creator.attempt.Some? ==> s.attempts != []
    ensures var t := Issued(s, call);
            t.sent == s.sent || (s.attempts != [] && |t.sent| == |s.sent| + 1 && t.sent[..|s.sent|] == s.sent
                                 && t.sent[|s.sent|].attempt == |s.attempts| - 1)
  {
  }

  // An event sends at most one command, which belongs to the last attempt.
  predicate SendsOne(s: System, t: System) {
    && |s.sent| <= |t.sent| <= |s.sent| + 1 && t.sent[..|s.sent|] == s.sent
    && (|s.sent| < |t.sent| ==> t.attempts != [] && t.sent[|s.sent|].attempt == |t.attempts| - 1 && t.creator.attempt.Some?)
  }

  lemma ReplySends(s: System, call: nat, reply: Reply)
    requires Inv(s) && Answerable(s, call, reply)
    ensures SendsOne(s, Answered(s, call, reply))
  {
    CurrentAttempt(s);
    match s.calls[call]
    case Creating =>
      var t := WithCreator(s.(calls := s.calls - {call}), CreateAnswered(s.creator, call, reply));
      IssuedSends(t, call);
      IssuedQuietly(t, call);
    case Querying =>
      var ids := if reply.Aggregate? then s.ids + 1 else s.ids;
      var t := WithCreator(s.(calls := s.calls - {call}), AggregateAnswered(s.creator, call, reply, s.ids)).(ids := ids);
      IssuedSends(t, call);
      IssuedQuietly(t, call);
    case Itemizing =>
      var ids := if reply.Completed? then s.ids + 1 else s.ids;
      var t := WithCreator(s.(calls := s.calls - {call}), ItemsAnswered(s.creator, call, reply, s.ids)).(ids := ids);
      IssuedSends(t, call);
      IssuedQuietly(t, call);
    case Starting =>
  }

  lemma CreateSends(s: System, input: Input)
    requires CreatorHolds(s)
    ensures SendsOne(s, Begun(s, input))
  {
    var c := Called(s.creator, input, s.controllers, s.deliveries, s.ids);
    if Launches(s.creator, input) {
      if s.creator.attempt.Some? {
        IssuedSends(s.(creator := c, controllers := s.controllers + 1), s.controllers);
        IssuedQuietly(s.(creator := c, controllers := s.controllers + 1), s.controllers);
      } else {
        IssuedSends(Opened(s, c), s.controllers);
        IssuedQuietly(Opened(s, c), s.controllers);
      }
    }
  }

  lemma SendStep(s: System, e: Event)
    requires Inv(s)
    ensures SendsOne(s, Next(s, e))
    ensures |Next(s, e).sent| > |s.sent| ==> e.Create? || e.Resolve?
  {
    match e
    case Create(input) => CreateSends(s, input);
    case Resolve(call, reply) => if Answerable(s, call, reply) { ReplySends(s, call, reply); }
    case _ =>
  }

  lemma {:induction false} SentStays(es: seq<Event>, k: nat)
    requires k <= |es|
    ensures |Run(es[..k]).sent| <= |Run(es).sent| && Run(es).sent[..|Run(es[..k]).sent|] == Run(es[..k]).sent
    decreases |es|
  {
    if k == |es| {
      assert es[..k] == es;
    } else {
      var front := es[..|es| - 1];
      assert front[..k] == es[..k];
      SentStays(front, k);
      InvRun(front);
      SendStep(Run(front), es[|es| - 1]);
    }
  }

  // Since command i was sent, its attempt has ended.
  predicate Past(s: System, i: nat) {
    i < |s.sent| && (s.sent[i].attempt != |s.attempts| - 1 || s.creator.attempt.None?)
  }

  predicate PutAwayAt(es: seq<Event>, k: nat) {
    k < |es| && PutsAway(Run(es[..k]), es[k])
  }

  lemma PastStep(s: System, e: Event, i: nat)
    requires Inv(s) && !Past(s, i) && Past(Next(s, e), i)
    ensures PutsAway(s, e) && i < |s.sent|
  {
    AttemptStep(s, e);
    SendStep(s, e);
  }

  lemma {:induction false} PastWasPutAway(es: seq<Event>, i: nat) returns (k: nat)
    requires Past(Run(es), i)
    ensures PutAwayAt(es, k) && i < |Run(es[..k]).sent|
  {
    var front, e := es[..|es| - 1], es[|es| - 1];
    InvRun(front);
    if Past(Run(front), i) {
      k := PastWasPutAway(front, i);
      assert front[..k] == es[..k] && front[k] == es[k];
    } else {
      PastStep(Run(front), e, i);
      k := |front|;
    }
  }

  // Between the commands of two attempts a created delivery was put away: two creations under two ids
  // never come from one submission.
  lemma {:induction false} PutAwayBetween(es: seq<Event>, i: nat, j: nat) returns (k: nat)
    requires i < j < |Run(es).sent| && Run(es).sent[i].attempt != Run(es).sent[j].attempt
    ensures PutAwayAt(es, k) && i < |Run(es[..k]).sent| <= j
  {
    var front, e := es[..|es| - 1], es[|es| - 1];
    InvRun(front);
    LastSent(Run(front), e, i, j);
    if j < |Run(front).sent| {
      k := PutAwayBetween(front, i, j);
      assert front[..k] == es[..k] && front[k] == es[k];
    } else {
      k := PastWasPutAway(es, i);
      SentBeforeLast(es, k);
    }
  }

  lemma LastSent(s: System, e: Event, i: nat, j: nat)
    requires Inv(s) && i < j < |Next(s, e).sent| && Next(s, e).sent[i].attempt != Next(s, e).sent[j].attempt
    ensures j < |s.sent| ==> s.sent[i] == Next(s, e).sent[i] && s.sent[j] == Next(s, e).sent[j]
    ensures j >= |s.sent| ==> j == |s.sent| && Past(Next(s, e), i)
  {
    SendStep(s, e);
  }

  lemma SentBeforeLast(es: seq<Event>, k: nat)
    requires es != [] && PutAwayAt(es, k)
    ensures |Run(es[..k]).sent| <= |Run(es[..|es| - 1]).sent|
  {
    var front := es[..|es| - 1];
    assert k <= |front| && front[..k] == es[..k];
    SentStays(front, k);
  }

  lemma CreationsOfTwoAttempts(es: seq<Event>, i: nat, j: nat) returns (k: nat)
    requires i < j < |Run(es).sent| && Run(es).sent[i].request.CreateDelivery? && Run(es).sent[j].request.CreateDelivery?
    requires Run(es).sent[i].request.id != Run(es).sent[j].request.id
    ensures PutAwayAt(es, k) && i < |Run(es[..k]).sent| <= j
  {
    ResentUnchanged(es, Run(es).sent[i], Run(es).sent[j]);
    k := PutAwayBetween(es, i, j);
  }

  // ----- Where the commands come from -----

  // Event k brought the reply, in that phase of attempt n.
  predicate ToldAt(es: seq<Event>, n: nat, phase: Phase, reply: Reply, k: nat) {
    && k < |es| && es[k].Resolve? && es[k].reply == reply
    && var s := Run(es[..k]);
       Answerable(s, es[k].call, reply) && s.calls[es[k].call] == phase && |s.attempts| - 1 == n
  }

  lemma ToldStays(es: seq<Event>, n: nat, phase: Phase, reply: Reply, k: nat)
    requires es != [] && ToldAt(es[..|es| - 1], n, phase, reply, k)
    ensures ToldAt(es, n, phase, reply, k)
  {
    var front := es[..|es| - 1];
    assert front[..k] == es[..k] && front[k] == es[k];
  }

  // The event brings the reply, in that phase of attempt n.
  predicate Tells(s: System, e: Event, n: nat, phase: Phase, reply: Reply) {
    e.Resolve? && e.reply == reply && Answerable(s, e.call, reply) && s.calls[e.call] == phase && |s.attempts| - 1 == n
  }

  lemma ToldNow(es: seq<Event>, n: nat, phase: Phase, reply: Reply)
    requires es != [] && Tells(Run(es[..|es| - 1]), es[|es| - 1], n, phase, reply)
    ensures ToldAt(es, n, phase, reply, |es| - 1)
  {
  }

  lemma CreatedStep(s: System, e: Event, n: nat)
    requires Inv(s) && n < |Next(s, e).attempts| && Next(s, e).attempts[n].created.Some?
    ensures (n < |s.attempts| && s.attempts[n].created == Next(s, e).attempts[n].created)
            || Tells(s, e, n, Creating, Completed(Next(s, e).attempts[n].created.value))
  {
    AttemptStep(s, e);
  }

  lemma ItemsStep(s: System, e: Event, n: nat)
    requires Inv(s) && n < |Next(s, e).attempts| && Next(s, e).attempts[n].items.Some?
    ensures (n < |s.attempts| && s.attempts[n].items == Next(s, e).attempts[n].items)
            || (Next(s, e).attempts[n].items.value.CreateItems?
                && var r := Next(s, e).attempts[n].items.value; Tells(s, e, n, Querying, Aggregate(r.contractRevision, r.criteria)))
  {
    AttemptStep(s, e);
  }

  lemma StartStep(s: System, e: Event, n: nat)
    requires Inv(s) && n < |Next(s, e).attempts| && Next(s, e).attempts[n].start.Some?
    ensures (n < |s.attempts| && s.attempts[n].start == Next(s, e).attempts[n].start)
            || (Next(s, e).attempts[n].start.value.StartRun?
                && Tells(s, e, n, Itemizing, Completed(Next(s, e).attempts[n].start.value.revision)))
  {
    AttemptStep(s, e);
  }

  // The revision an attempt was created at is the one its creation was answered with.
  lemma {:induction false} CreatedWasTold(es: seq<Event>, n: nat) returns (k: nat)
    requires n < |Run(es).attempts| && Run(es).attempts[n].created.Some?
    ensures ToldAt(es, n, Creating, Completed(Run(es).attempts[n].created.value), k)
  {
    var front := es[..|es| - 1];
    var reply := Completed(Run(es).attempts[n].created.value);
    InvRun(front);
    CreatedStep(Run(front), es[|es| - 1], n);
    if Tells(Run(front), es[|es| - 1], n, Creating, reply) {
      k := |front|;
      ToldNow(es, n, Creating, reply);
    } else {
      k := CreatedWasTold(front, n);
      ToldStays(es, n, Creating, reply, k);
    }
  }

  // Its items command carries the contract of the aggregate that was read for it ...
  lemma {:induction false} ItemsWereTold(es: seq<Event>, n: nat) returns (k: nat)
    requires n < |Run(es).attempts| && Run(es).attempts[n].items.Some?
    ensures Run(es).attempts[n].items.value.CreateItems?
    ensures var r := Run(es).attempts[n].items.value; ToldAt(es, n, Querying, Aggregate(r.contractRevision, r.criteria), k)
  {
    var front, r := es[..|es| - 1], Run(es).attempts[n].items.value;
    InvRun(front);
    ItemsStep(Run(front), es[|es| - 1], n);
    if n < |Run(front).attempts| && Run(front).attempts[n].items == Some(r) {
      k := ItemsWereTold(front, n);
      ToldStays(es, n, Querying, Aggregate(r.contractRevision, r.criteria), k);
    } else {
      k := |front|;
      ToldNow(es, n, Querying, Aggregate(r.contractRevision, r.criteria));
    }
  }

  // ... and its start command the revision that the items were answered with.
  lemma {:induction false} StartWasTold(es: seq<Event>, n: nat) returns (k: nat)
    requires n < |Run(es).attempts| && Run(es).attempts[n].start.Some?
    ensures Run(es).attempts[n].start.value.StartRun?
    ensures ToldAt(es, n, Itemizing, Completed(Run(es).attempts[n].start.value.revision), k)
  {
    var front, r := es[..|es| - 1], Run(es).attempts[n].start.value;
    InvRun(front);
    StartStep(Run(front), es[|es| - 1], n);
    if n < |Run(front).attempts| && Run(front).attempts[n].start == Some(r) {
      k := StartWasTold(front, n);
      ToldStays(es, n, Itemizing, Completed(r.revision), k);
    } else {
      k := |front|;
      ToldNow(es, n, Itemizing, Completed(r.revision));
    }
  }

  // ----- Retrying -----

  // Until its delivery is put away, whatever else happens, an attempt only learns.
  lemma AttemptOnlyGrows(es: seq<Event>, e: Event)
    requires Run(es).creator.attempt.Some? && !PutsAway(Run(es), e)
    ensures Next(Run(es), e).creator.attempt.Some?
    ensures Extends(Run(es).creator.attempt.value, Next(Run(es), e).creator.attempt.value)
  {
    InvRun(es);
    GrowStep(Run(es), e);
  }

  lemma GrowStep(s: System, e: Event)
    requires Inv(s) && s.creator.attempt.Some? && !PutsAway(s, e)
    ensures Next(s, e).creator.attempt.Some? && Extends(s.creator.attempt.value, Next(s, e).creator.attempt.value)
  {
    InvNext(s, e);
    CurrentAttempt(s);
    AttemptStep(s, e);
    if Next(s, e).creator.attempt.Some? { CurrentAttempt(Next(s, e)); }
  }

  // The command that an attempt has to send next; none while its contract has to be read.
  function Pending(a: Attempt): Option<Request> {
    if a.start.Some? then a.start else if a.items.Some? then a.items else if a.created.Some? then None else Some(a.create)
  }

  function Resent(s: System): seq<Sent> {
    if s.creator.attempt.None? || s.attempts == [] || Pending(s.creator.attempt.value).None? then []
    else [Sent(|s.attempts| - 1, Pending(s.creator.attempt.value).value)]
  }

  predicate GoesOn(s: System, t: System) {
    && s.creator.attempt.Some? && t.creator.attempt == s.creator.attempt && t.attempts == s.attempts
    && t.creator.status == Submitting && !t.creator.closed
    && t.creator.active == Some(s.controllers) && t.calls == s.calls[s.controllers := NextPhase(s.creator.attempt.value)]
    && t.effects == s.effects && t.announced == s.announced
    && t.sent == s.sent + Resent(s)
  }

  // After every run: a submission that failed or was cancelled, made again, goes on with the same
  // attempt and sends the command it stopped at, as it was.
  lemma RetryGoesOn(es: seq<Event>, input: Input)
    requires Run(es).creator.attempt.Some? && Run(es).creator.attempt.value.input == input && Run(es).creator.status == Error
    ensures GoesOn(Run(es), Next(Run(es), Create(input)))
  {
    InvRun(es);
    ClosedShown(es);
    RetryAt(Run(es), input);
  }

  lemma RetryAt(s: System, input: Input)
    requires Inv(s) && s.creator.attempt.Some? && s.creator.attempt.value.input == input && !s.creator.closed && s.creator.status == Error
    ensures GoesOn(s, Next(s, Create(input)))
  {
    CurrentAttempt(s);
    Resumes(s, input);
  }

  lemma {:induction false} ClosedShown(es: seq<Event>)
    ensures Run(es).creator.closed <==> Run(es).creator.status == Closed
  {
    if es != [] {
      ClosedShown(es[..|es| - 1]);
      InvRun(es[..|es| - 1]);
      ClosedNext(Run(es[..|es| - 1]), es[|es| - 1]);
    }
  }

  lemma ClosedNext(s: System, e: Event)
    requires Inv(s) && (s.creator.closed <==> s.creator.status == Closed)
    ensures Next(s, e).creator.closed <==> Next(s, e).creator.status == Closed
  {
    match e
    case Resolve(call, reply) =>
      if Answerable(s, call, reply) {
        CurrentAttempt(s);
        ReplyShown(s, call, reply);
      }
    case _ =>
  }

  lemma ReplyShown(s: System, call: nat, reply: Reply)
    requires Answerable(s, call, reply) && CreatorHolds(s)
    ensures !Answered(s, call, reply).creator.closed && Answered(s, call, reply).creator.status != Closed
  {
  }

  lemma Resumes(s: System, input: Input)
    requires CreatorHolds(s) && s.creator.attempt.Some? && AttemptHolds(s.ids, s.effects, |s.attempts| - 1, s.creator.attempt.value)
    requires s.creator.attempt.value.input == input && !s.creator.closed && s.creator.status == Error
    ensures GoesOn(s, Next(s, Create(input)))
  {
  }

  // After every run: a submission is taken up exactly if nothing is under way or shown as created, the
  // form is filled in, and it is the one of the attempt, if there is one.
  lemma TakenUpExactly(es: seq<Event>, input: Input)
    ensures var s, t := Run(es), Next(Run(es), Create(input));
            (t.controllers == s.controllers + 1 && t.creator.active == Some(s.controllers) && t.creator.status == Submitting) <==>
              && !s.creator.closed && s.creator.status != Submitting && s.creator.status != Waiting && s.creator.status != Created
              && input.title != "" && input.goal != "" && input.baseRevision != "" && input.scope != [] && input.criteria != []
              && (s.creator.attempt.Some? ==> s.creator.attempt.value.input == input)
  {
    TakeUpAt(Run(es), input);
  }

  lemma TakeUpAt(s: System, input: Input)
    ensures var t := Next(s, Create(input));
            (t.controllers == s.controllers + 1 && t.creator.active == Some(s.controllers) && t.creator.status == Submitting) <==>
              Launches(s.creator, input)
  {
    var c := Called(s.creator, input, s.controllers, s.deliveries, s.ids);
    if Launches(s.creator, input) {
      if s.creator.attempt.Some? {
        IssuedQuietly(s.(creator := c, controllers := s.controllers + 1), s.controllers);
      } else {
        IssuedQuietly(Opened(s, c), s.controllers);
      }
      assert Issued(s.(creator := c, controllers := s.controllers + 1), s.controllers).controllers == s.controllers + 1;
    }
  }

  // A delivery is shown only if the server has created it.
  predicate ShownHolds(s: System) {
    s.creator.shown.Some? ==>
      && s.creator.attempt.Some? && s.creator.attempt.value.created.Some?
      && s.creator.shown == Some(s.creator.attempt.value.create.delivery)
  }

  lemma ReplyShows(s: System, call: nat, reply: Reply)
    requires CreatorHolds(s) && Answerable(s, call, reply) && ShownHolds(s)
    ensures ShownHolds(Answered(s, call, reply))
  {
  }

  lemma {:induction false} ShownRun(es: seq<Event>)
    ensures ShownHolds(Run(es))
  {
    if es != [] {
      var s, e := Run(es[..|es| - 1]), es[|es| - 1];
      ShownRun(es[..|es| - 1]);
      InvRun(es[..|es| - 1]);
      ShownStep(s, e);
    }
  }

  lemma ShownStep(s: System, e: Event)
    requires CreatorHolds(s) && ShownHolds(s)
    ensures ShownHolds(Next(s, e))
  {
    match e
    case Resolve(call, reply) => if Answerable(s, call, reply) { ReplyShows(s, call, reply); }
    case _ =>
  }

  lemma ShownWasCreated(es: seq<Event>)
    requires Run(es).creator.shown.Some?
    ensures exists x :: x in Run(es).effects && x.request.CreateDelivery? && Run(es).creator.shown == Some(x.request.delivery)
  {
    InvRun(es);
    ShownRun(es);
    ShownIsApplied(Run(es));
  }

  lemma ShownIsApplied(s: System)
    requires Inv(s) && ShownHolds(s) && s.creator.shown.Some?
    ensures exists x :: x in s.effects && x.request.CreateDelivery? && s.creator.shown == Some(x.request.delivery)
  {
    CurrentAttempt(s);
    assert Sent(|s.attempts| - 1, s.creator.attempt.value.create) in s.effects;
  }

  // A different submission is refused meanwhile, and sends nothing.
  lemma OthersAreRefused(es: seq<Event>, input: Input)
    requires Run(es).creator.attempt.Some? && Run(es).creator.attempt.value.input != input
    ensures var s, t := Run(es), Next(Run(es), Create(input));
            t.sent == s.sent && t.attempts == s.attempts && t.calls == s.calls && t.creator.attempt == s.creator.attempt
            && t.creator.status == if Busy(s.creator) then s.creator.status else Error
  {
  }

  // ----- Stopping -----

  // A cancelled submission, and one whose call fails, shows the error and keeps the attempt.
  lemma StoppedShowsError(es: seq<Event>, call: nat)
    requires Run(es).creator.active == Some(call)
    ensures var s, t := Run(es), Next(Run(es), Cancel);
            t.creator.status == Error && t.creator.active.None? && t.creator.attempt == s.creator.attempt
    ensures call in Run(es).calls ==>
              var s, t := Run(es), Next(Run(es), Reject(call));
              t.creator.status == Error && t.creator.active.None? && t.creator.attempt == s.creator.attempt && call !in t.calls
  {
    InvRun(es);
  }

  // An accepted creation waits; the attempt is kept, and cancelling shows the error.
  lemma AcceptedWaits(es: seq<Event>, call: nat)
    requires Answerable(Run(es), call, Accepted) && Run(es).calls[call] == Creating
    ensures var s, t := Run(es), Next(Run(es), Resolve(call, Accepted));
            && t.creator.status == Waiting && t.creator.active.None? && t.creator.attempt == s.creator.attempt && t.sent == s.sent
            && Next(t, Cancel).creator.status == Error && Next(t, Cancel).creator.attempt == s.creator.attempt
  {
    InvRun(es);
    CurrentAttempt(Run(es));
  }

  predicate Frozen(s: System, t: System) {
    s.creator.closed && t.creator == s.creator && t.sent == s.sent && t.announced == s.announced
  }

  // After the close nothing changes any more and nothing is sent.
  lemma {:induction false} ClosedIsFinal(es: seq<Event>, fs: seq<Event>)
    requires Run(es).creator.closed
    ensures Frozen(Run(es), Run(es + fs))
  {
    if fs == [] {
      assert es + fs == es;
    } else {
      var front, e := fs[..|fs| - 1], fs[|fs| - 1];
      ClosedIsFinal(es, front);
      InvRun(es + front);
      ClosedStep(Run(es + front), e);
      assert es + fs == es + front + [e];
      RunSnoc(es + front, e);
    }
  }

  lemma ClosedStep(s: System, e: Event)
    requires CreatorHolds(s) && s.creator.closed
    ensures Frozen(s, Next(s, e))
  {
  }

  // The reply or failure of a call that is not the active one changes nothing that is shown.
  lemma StaleCallIsSilent(es: seq<Event>, call: nat, reply: Reply)
    requires Run(es).creator.active != Some(call)
    ensures Next(Run(es), Resolve(call, reply)) == Run(es) && Next(Run(es), Reject(call)).creator == Run(es).creator
  {
  }

  // ----- Completing -----

  // The active run awaits an answer, and its command is on the wire.
  predicate Awaits(s: System) {
    s.creator.active.Some? ==>
      && s.creator.active.value in s.calls && s.creator.attempt.Some? && s.attempts != []
      && (NextPhase(s.creator.attempt.value) != Querying ==> Sent(|s.attempts| - 1, RequestFor(s.creator.attempt.value)) in s.sent)
  }

  lemma IssuedAwaits(s: System, call: nat)
    requires s.creator.attempt.Some? ==> s.attempts != []
    requires s.creator.active.None? || (s.creator.active == Some(call) && s.creator.attempt.Some?)
    ensures Awaits(Issued(s, call))
  {
  }

  lemma ReplyAwaits(s: System, call: nat, reply: Reply)
    requires Inv(s) && Answerable(s, call, reply)
    ensures Awaits(Answered(s, call, reply))
  {
    CurrentAttempt(s);
    match s.calls[call]
    case Creating => IssuedAwaits(WithCreator(s.(calls := s.calls - {call}), CreateAnswered(s.creator, call, reply)), call);
    case Querying =>
      var ids := if reply.Aggregate? then s.ids + 1 else s.ids;
      IssuedAwaits(WithCreator(s.(calls := s.calls - {call}), AggregateAnswered(s.creator, call, reply, s.ids)).(ids := ids), call);
    case Itemizing =>
      var ids := if reply.Completed? then s.ids + 1 else s.ids;
      IssuedAwaits(WithCreator(s.(calls := s.calls - {call}), ItemsAnswered(s.creator, call, reply, s.ids)).(ids := ids), call);
    case Starting =>
  }

  lemma CreateAwaits(s: System, input: Input)
    requires CreatorHolds(s) && Awaits(s)
    ensures Awaits(Begun(s, input))
  {
    var c := Called(s.creator, input, s.controllers, s.deliveries, s.ids);
    if Launches(s.creator, input) {
      if s.creator.attempt.Some? {
        IssuedAwaits(s.(creator := c, controllers := s.controllers + 1), s.controllers);
      } else {
        IssuedAwaits(Opened(s, c), s.controllers);
      }
    }
  }

  lemma {:induction false} AwaitsRun(es: seq<Event>)
    ensures Awaits(Run(es))
  {
    if es != [] {
      var s, e := Run(es[..|es| - 1]), es[|es| - 1];
      AwaitsRun(es[..|es| - 1]);
      InvRun(es[..|es| - 1]);
      AwaitsStep(s, e);
    }
  }

  lemma AwaitsStep(s: System, e: Event)
    requires Inv(s) && Awaits(s)
    ensures Awaits(Next(s, e))
  {
    match e
    case Create(input) => CreateAwaits(s, input);
    case Resolve(call, reply) => if Answerable(s, call, reply) { ReplyAwaits(s, call, reply); }
    case _ =>
  }

  // A run is under way in that phase of the attempt for `input`, the n-th.
  predicate Under(s: System, input: Input, n: nat, phase: Phase) {
    && s.creator.active.Some? && s.creator.active.value in s.calls && s.calls[s.creator.active.value] == phase
    && |s.attempts| == n && s.creator.attempt.Some? && s.creator.attempt.value.input == input
  }

  lemma RunSnoc(es: seq<Event>, e: Event)
    ensures Run(es + [e]) == Next(Run(es), e)
  {
    assert (es + [e])[..|es + [e]| - 1] == es;
  }

  // The server gets the command that is on the wire.
  lemma Apply(es: seq<Event>, input: Input, n: nat, phase: Phase) returns (fs: seq<Event>)
    requires Under(Run(es), input, n, phase) && phase != Querying
    ensures es <= fs && Run(fs).creator == Run(es).creator && Run(fs).calls == Run(es).calls && Run(fs).attempts == Run(es).attempts
    ensures Run(fs).announced == Run(es).announced
    ensures NextPhase(Run(fs).creator.attempt.value) == phase && AppliedId(Run(fs).effects, RequestFor(Run(fs).creator.attempt.value).id)
  {
    InvRun(es);
    AwaitsRun(es);
    var s := Run(es);
    var r := RequestFor(s.creator.attempt.value);
    if AppliedId(s.effects, r.id) {
      fs := es;
    } else {
      var i :| 0 <= i < |s.sent| && s.sent[i] == Sent(|s.attempts| - 1, r);
      fs := es + [Deliver(i)];
      RunSnoc(es, Deliver(i));
      assert Run(fs).effects[|s.effects|] == s.sent[i];
    }
  }

  lemma AnswerCreate(es: seq<Event>, input: Input, n: nat, revision: int) returns (fs: seq<Event>)
    requires Under(Run(es), input, n, Creating)
    ensures es <= fs && Under(Run(fs), input, n, Querying)
  {
    var gs := Apply(es, input, n, Creating);
    InvRun(gs);
    CurrentAttempt(Run(gs));
    var e := Resolve(Run(gs).creator.active.value, Completed(revision));
    fs := gs + [e];
    RunSnoc(gs, e);
  }

  lemma AnswerQuery(es: seq<Event>, input: Input, n: nat, contract: int, criteria: seq<string>) returns (fs: seq<Event>)
    requires Under(Run(es), input, n, Querying)
    ensures es <= fs && Under(Run(fs), input, n, Itemizing)
  {
    InvRun(es);
    CurrentAttempt(Run(es));
    var e := Resolve(Run(es).creator.active.value, Aggregate(contract, criteria));
    fs := es + [e];
    RunSnoc(es, e);
  }

  lemma AnswerItems(es: seq<Event>, input: Input, n: nat, revision: int) returns (fs: seq<Event>)
    requires Under(Run(es), input, n, Itemizing)
    ensures es <= fs && Under(Run(fs), input, n, Starting)
  {
    var gs := Apply(es, input, n, Itemizing);
    InvRun(gs);
    CurrentAttempt(Run(gs));
    var e := Resolve(Run(gs).creator.active.value, Completed(revision));
    fs := gs + [e];
    RunSnoc(gs, e);
  }

  predicate Done(s: System, input: Input, n: nat) {
    && s.creator.status == Created && |s.attempts| == n && s.creator.attempt.Some? && s.creator.attempt.value.input == input
    && s.announced != [] && s.announced[|s.announced| - 1] == n - 1
  }

  lemma AnswerStart(es: seq<Event>, input: Input, n: nat, revision: int) returns (fs: seq<Event>)
    requires Under(Run(es), input, n, Starting)
    ensures es <= fs && Done(Run(fs), input, n)
  {
    var gs := Apply(es, input, n, Starting);
    InvRun(gs);
    CurrentAttempt(Run(gs));
    var e := Resolve(Run(gs).creator.active.value, Completed(revision));
    fs := gs + [e];
    RunSnoc(gs, e);
  }

  lemma TakeUp(es: seq<Event>, input: Input) returns (fs: seq<Event>, phase: Phase)
    requires Launches(Run(es).creator, input)
    ensures es <= fs && Under(Run(fs), input, |Run(es).attempts| + 1 - Current(Run(es).creator), phase)
  {
    InvRun(es);
    if Run(es).creator.attempt.Some? { CurrentAttempt(Run(es)); }
    fs := es + [Create(input)];
    RunSnoc(es, Create(input));
    InvRun(fs);
    AwaitsRun(fs);
    CreateStep(Run(es), input);
    phase := Run(fs).calls[Run(fs).creator.active.value];
  }

  // Every submission that is taken up can be completed, from wherever its last try stopped, as one
  // attempt; it then is shown as created and announced.
  lemma SubmissionCompletes(es: seq<Event>, input: Input) returns (fs: seq<Event>)
    requires Launches(Run(es).creator, input)
    ensures es <= fs && Done(Run(fs), input, |Run(es).attempts| + 1 - Current(Run(es).creator))
  {
    var n := |Run(es).attempts| + 1 - Current(Run(es).creator);
    var phase;
    fs, phase := TakeUp(es, input);
    if phase == Creating {
      fs := AnswerCreate(fs, input, n, 0);
      phase := Querying;
    }
    if phase == Querying {
      fs := AnswerQuery(fs, input, n, 0, []);
      phase := Itemizing;
    }
    if phase == Itemizing {
      fs := AnswerItems(fs, input, n, 0);
      phase := Starting;
    }
    fs := AnswerStart(fs, input, n, 0);
  }
}
