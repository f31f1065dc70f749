// The repository list of the selected device: every request takes a new epoch and only the reply
// of the newest epoch is shown.
module RepositoriesSpec {
  import opened Options

  datatype Status = Unloaded | Loading | Loaded | Unavailable

  datatype Shown = Shown(client: Option<string>, repositories: seq<string>, status: Status)

  datatype Progress = Waiting | Listed(repositories: seq<string>) | Refused

  datatype Call = Call(client: string, epoch: nat, progress: Progress)

  datatype State = State(shown: Shown, epoch: nat, calls: seq<Call>, closed: bool)

  // A reply without a list is a failure.
  datatype Event = ShowDevice(client: Option<string>) | Refresh | Reply(call: nat, list: Option<seq<string>>) | Close

  function Start(): State {
    State(Shown(None, [], Unloaded), 0, [], false)
  }

  function DeviceShown(s: State, client: Option<string>): State {
    if s.closed then s
    else if client.None? then s.(epoch := s.epoch + 1, shown := Start().shown)
    else
      var same := s.shown.client == client;
      if same && s.shown.status.Loading? then s
      else
        var shown := if !same || s.shown.status.Unloaded? then Shown(client, if same then s.shown.repositories else [], Loading)
                     else s.shown;
        s.(epoch := s.epoch + 1, shown := shown, calls := s.calls + [Call(client.value, s.epoch + 1, Waiting)])
  }

  function Replied(s: State, call: nat, list: Option<seq<string>>): State {
    if call >= |s.calls| || !s.calls[call].progress.Waiting? then s
    else
      var made := s.calls[call];
      var t := s.(calls := s.calls[call := made.(progress := if list.Some? then Listed(list.value) else Refused)]);
      if s.closed || made.epoch != s.epoch then t
      else if list.Some? then t.(shown := Shown(Some(made.client), list.value, Loaded))
      else
        var kept := if s.shown.client == Some(made.client) then s.shown.repositories else [];
        t.(shown := Shown(Some(made.client), kept, Unavailable))
  }

  function Next(s: State, e: Event): State {
    match e
    case ShowDevice(client) => DeviceShown(s, client)
    case Refresh => if s.shown.client.None? then s else DeviceShown(s, s.shown.client)
    case Reply(call, list) => Replied(s, call, list)
    case Close => if s.closed then s else s.(closed := true, epoch := s.epoch + 1)
  }

  function Run(es: seq<Event>): State {
    if es == [] then Start() else Next(Run(es[..|es| - 1]), es[|es| - 1])
  }

  // ----- What every run keeps -----

  ghost predicate EpochsAscend(s: State) {
    && (forall i | 0 <= i < |s.calls| :: s.calls[i].epoch <= s.epoch)
    && forall i, j | 0 <= i < j < |s.calls| :: s.calls[i].epoch < s.calls[j].epoch
  }

  // What the newest call allows to be shown.
  ghost predicate Decides(s: State, call: Call) {
    && s.shown.client == Some(call.client)
    && match call.progress
       case Waiting => !s.shown.status.Unloaded?
       case Listed(repositories) => s.shown == Shown(Some(call.client), repositories, Loaded)
       case Refused => s.shown.status.Unavailable?
  }

  ghost predicate NewestDecides(s: State) {
    forall i | 0 <= i < |s.calls| && s.calls[i].epoch == s.epoch :: Decides(s, s.calls[i])
  }

  // A device is shown only while a call of this epoch was made for it.
  ghost predicate ShownWasAsked(s: State) {
    s.shown.client.Some? ==> |s.calls| > 0 && s.calls[|s.calls| - 1].epoch == s.epoch
  }

  // A list shown was answered for the device shown.
  ghost predicate Answered(s: State, client: string, repositories: seq<string>) {
    exists i :: 0 <= i < |s.calls| && s.calls[i].client == client && s.calls[i].progress == Listed(repositories)
  }

  ghost predicate ListIsAnswered(s: State) {
    && (s.shown.repositories != [] ==> s.shown.client.Some? && Answered(s, s.shown.client.value, s.shown.repositories))
    && (s.shown.client.None? <==> s.shown.status.Unloaded?)
    && (s.shown.client.None? ==> s.shown.repositories == [])
  }

  ghost predicate Inv(s: State) {
    EpochsAscend(s) && ListIsAnswered(s) && (!s.closed ==> NewestDecides(s) && ShownWasAsked(s))
  }

  // Answers are never taken back.
  lemma AnsweredStays(s: State, t: State, client: string, repositories: seq<string>)
    requires Answered(s, client, repositories) && |s.calls| <= |t.calls|
    requires forall i | 0 <= i < |s.calls| && !s.calls[i].progress.Waiting? :: t.calls[i] == s.calls[i]
    ensures Answered(t, client, repositories)
  {
    var i :| 0 <= i < |s.calls| && s.calls[i].client == client && s.calls[i].progress == Listed(repositories);
    assert t.calls[i] == s.calls[i];
  }

  lemma InvShown(s: State, client: Option<string>)
    requires Inv(s)
    ensures Inv(DeviceShown(s, client))
  {
    var t := DeviceShown(s, client);
    if t.shown.repositories != [] {
      AnsweredStays(s, t, s.shown.client.value, s.shown.repositories);
    }
  }

  lemma InvReplied(s: State, call: nat, list: Option<seq<string>>)
    requires Inv(s)
    ensures Inv(Replied(s, call, list))
  {
    if call < |s.calls| && s.calls[call].progress.Waiting? {
      var t := Replied(s, call, list);
      assert t.calls[call].client == s.calls[call].client && t.calls[call].epoch == s.calls[call].epoch;
      RepliedList(s, call, list);
      if !s.closed { RepliedNewest(s, call, list); }
    }
  }

  lemma RepliedList(s: State, call: nat, list: Option<seq<string>>)
    requires ListIsAnswered(s) && call < |s.calls| && s.calls[call].progress.Waiting?
    ensures ListIsAnswered(Replied(s, call, list))
  {
    var t := Replied(s, call, list);
    if s.shown.repositories != [] { AnsweredStays(s, t, s.shown.client.value, s.shown.repositories); }
    if list.Some? {
      assert t.calls[call].client == s.calls[call].client && t.calls[call].progress == Listed(list.value);
      assert Answered(t, s.calls[call].client, list.value);
    }
  }

  lemma RepliedNewest(s: State, call: nat, list: Option<seq<string>>)
    requires EpochsAscend(s) && NewestDecides(s) && ShownWasAsked(s) && !s.closed
    requires call < |s.calls| && s.calls[call].progress.Waiting?
    ensures NewestDecides(Replied(s, call, list)) && ShownWasAsked(Replied(s, call, list))
  {
    var t := Replied(s, call, list);
    if s.calls[call].epoch == s.epoch { assert Decides(s, s.calls[call]); }
    forall i | 0 <= i < |t.calls| && t.calls[i].epoch == t.epoch ensures Decides(t, t.calls[i]) {
      if i != call { assert Decides(s, s.calls[i]); }
    }
  }

  lemma {:induction false} InvRun(es: seq<Event>)
    ensures Inv(Run(es))
  {
    if es != [] {
      var s, e := Run(es[..|es| - 1]), es[|es| - 1];
      InvRun(es[..|es| - 1]);
      match e
      case ShowDevice(client) => InvShown(s, client);
      case Refresh => InvShown(s, s.shown.client);
      case Reply(call, list) => InvReplied(s, call, list);
      case Close =>
    }
  }

  // While the page says loading, the newest call is for the device shown and still under way; once
  // it is answered, the page shows that answer.
  lemma NewestCallIsShown(es: seq<Event>)
    requires !Run(es).closed && Run(es).shown.client.Some?
    ensures var s := Run(es);
            && |s.calls| > 0
            && var newest := s.calls[|s.calls| - 1];
               && s.shown.client == Some(newest.client)
               && (s.shown.status.Loading? ==> newest.progress.Waiting?)
               && (newest.progress.Listed? ==> s.shown == Shown(Some(newest.client), newest.progress.repositories, Loaded))
               && (newest.progress.Refused? ==> s.shown.status.Unavailable?)
  {
    InvRun(es);
    var s := Run(es);
    assert Decides(s, s.calls[|s.calls| - 1]);
  }

  // A list on show was answered for the device on show, in whatever order the replies came in.
  lemma ListBelongsToDevice(es: seq<Event>)
    requires Run(es).shown.repositories != []
    ensures Run(es).shown.client.Some? && Answered(Run(es), Run(es).shown.client.value, Run(es).shown.repositories)
  {
    InvRun(es);
  }

  // A reply of an older request, and every reply after closing, changes nothing on show.
  lemma LateReplyIsSilent(es: seq<Event>, call: nat, list: Option<seq<string>>)
    requires Run(es).closed || call + 1 < |Run(es).calls|
    ensures Next(Run(es), Reply(call, list)).shown == Run(es).shown
  {
    InvRun(es);
    var s := Run(es);
    assert call + 1 < |s.calls| ==> s.calls[call].epoch < s.calls[call + 1].epoch <= s.epoch;
  }

  // ----- What is shown -----

  // The device an event asks for: the one to show, or on a refresh the one shown, unless the form is
  // closed or that device is being loaded already.
  function AskedFor(s: State, e: Event): Option<string> {
    var client := match e case ShowDevice(client) => client case Refresh => s.shown.client case _ => None;
    if s.closed || (client == s.shown.client && s.shown.status == Loading) then None else client
  }

  lemma AsksExactly(es: seq<Event>, e: Event)
    ensures var s, t := Run(es), Next(Run(es), e);
            match AskedFor(s, e)
            case Some(client) => t.calls == s.calls + [Call(client, t.epoch, Waiting)] && t.epoch == s.epoch + 1
            case None => |t.calls| == |s.calls| && forall i | 0 <= i < |s.calls| :: t.calls[i].client == s.calls[i].client
  {
  }

  // What was shown when the newest call was made.
  function ShownBefore(es: seq<Event>): Shown {
    if es == [] then Start().shown
    else if AskedFor(Run(es[..|es| - 1]), es[|es| - 1]).Some? then Run(es[..|es| - 1]).shown
    else ShownBefore(es[..|es| - 1])
  }

  // A call for another device starts from an empty list; one for the same device keeps what is shown
  // until it is answered, and keeps the list if it fails.
  function ShownBy(call: Call, before: Shown): Shown {
    var same := before.client == Some(call.client);
    match call.progress
    case Waiting => if same then before else Shown(Some(call.client), [], Loading)
    case Listed(repositories) => Shown(Some(call.client), repositories, Loaded)
    case Refused => Shown(Some(call.client), if same then before.repositories else [], Unavailable)
  }

  predicate Exact(s: State, before: Shown) {
    !s.closed ==>
      if s.shown.client.None? then s.shown == Shown(None, [], Unloaded)
      else s.calls != [] && s.shown == ShownBy(s.calls[|s.calls| - 1], before)
  }

  lemma ExactStep(s: State, e: Event, before: Shown)
    requires Inv(s) && Exact(s, before)
    ensures Exact(Next(s, e), if AskedFor(s, e).Some? then s.shown else before)
  {
    if e.Reply? && !s.closed && e.call < |s.calls| && s.calls[e.call].epoch == s.epoch {
      assert Decides(s, s.calls[e.call]);
      assert e.call == |s.calls| - 1;
    }
  }

  // In every run, what is shown is decided by the newest call and by what was shown when it was made.
  lemma {:induction false} ShownIsExact(es: seq<Event>)
    ensures Exact(Run(es), ShownBefore(es))
  {
    if es != [] {
      ShownIsExact(es[..|es| - 1]);
      InvRun(es[..|es| - 1]);
      ExactStep(Run(es[..|es| - 1]), es[|es| - 1], ShownBefore(es[..|es| - 1]));
    }
  }

  lemma RunSnoc(es: seq<Event>, e: Event)
    ensures Run(es + [e]) == Next(Run(es), e)
  {
    assert (es + [e])[..|es + [e]| - 1] == es;
  }

  // After the close nothing changes that is shown, and nothing is asked for.
  lemma {:induction false} ClosedIsFinal(es: seq<Event>, fs: seq<Event>)
    ensures var s, t := Run(es), Run(es + [Close] + fs); t.closed && t.shown == s.shown && |t.calls| == |s.calls|
  {
    if fs == [] {
      RunSnoc(es, Close);
      assert es + [Close] + fs == es + [Close];
    } else {
      var front, e := fs[..|fs| - 1], fs[|fs| - 1];
      ClosedIsFinal(es, front);
      assert es + [Close] + fs == es + [Close] + front + [e];
      RunSnoc(es + [Close] + front, e);
    }
  }
}

module RepositoriesObject {
  import opened Options
  import opened RepositoriesSpec

  class RepositoriesViewModel {
    var current: Shown
    var refreshEpoch: nat
    var calls: seq<Call>
    var closed: bool

    ghost function View(): State
      reads this
    {
      State(current, refreshEpoch, calls, closed)
    }

    constructor ()
      ensures View() == Start()
    {
      current, refreshEpoch, calls, closed := Shown(None, [], Unloaded), 0, [], false;
    }

    // Up to the call.
    method Show(client: Option<string>)
      modifies this
      ensures View() == DeviceShown(old(View()), client)
    {
      if closed { return; }
      if client.None? {
        refreshEpoch := refreshEpoch + 1;
        current := Shown(None, [], Unloaded);
        return;
      }
      var sameDevice := current.client == client;
      if sameDevice && current.status.Loading? { return; }
      refreshEpoch := refreshEpoch + 1;
      if !sameDevice || current.status.Unloaded? {
        current := Shown(client, if sameDevice then current.repositories else [], Loading);
      }
      calls := calls + [Call(client.value, refreshEpoch, Waiting)];
    }

    method RefreshDevice()
      modifies this
      ensures View() == Next(old(View()), Refresh)
    {
      if closed || current.client.None? { return; }
      Show(current.client);
    }

    // From the reply on.
    method ApplyReply(call: nat, list: Option<seq<string>>)
      modifies this
      ensures View() == Next(old(View()), Reply(call, list))
    {
      if call >= |calls| || !calls[call].progress.Waiting? { return; }
      var made := calls[call];
      calls := calls[call := made.(progress := if list.Some? then Listed(list.value) else Refused)];
      if closed || made.epoch != refreshEpoch { return; }
      if list.Some? {
        current := Shown(Some(made.client), list.value, Loaded);
      } else {
        current := Shown(Some(made.client), if current.client == Some(made.client) then current.repositories else [], Unavailable);
      }
    }

    method CloseViewModel()
      modifies this
      ensures View() == Next(old(View()), Close)
    {
      if closed { return; }
      closed := true;
      refreshEpoch := refreshEpoch + 1;
    }
  }
}
