// Claiming and releasing a device: one interaction per device (resting, asking for confirmation,
// submitting, failed), kept in step with the device list and with the calls under way.
module OccupancySpec {
  import opened Options

  datatype Action = Claim | Release | CancelAndRelease | ForceRelease

  datatype Occupancy = Available | OccupiedByMe | Draining | RecoveryPending | Elsewhere

  datatype Device = Device(online: bool, occupancy: Occupancy, capacityUsed: nat)

  datatype Failure = Unavailable | Reported(code: string)

  datatype Interaction = Rest | Confirming(action: Action) | Submitting(action: Action) | Failed(action: Action, failure: Failure)

  // The occupancy port may be missing, and may lack the forced release.
  datatype Port = Absent | Present(force: bool)

  datatype Call = Call(client: string, action: Action, drain: bool, settled: bool)

  datatype State = State(devices: map<string, Device>, interactions: map<string, Interaction>, calls: seq<Call>, closed: bool)

  // A reply carries no failure when the call succeeded.
  datatype Event =
    | DevicesChanged(devices: map<string, Device>)
    | Request(client: string, action: Action)
    | Confirm(client: string)
    | Dismiss(client: string)
    | Reply(call: nat, failure: Option<Failure>)
    | Close

  predicate Applies(action: Action, device: Device) {
    match action
    case Claim => device.online && device.occupancy.Available?
    case Release => device.occupancy.OccupiedByMe?
    case CancelAndRelease => device.occupancy.Draining? || (device.occupancy.OccupiedByMe? && device.capacityUsed > 0)
    case ForceRelease => device.occupancy.RecoveryPending?
  }

  predicate DrainsFirst(device: Device) {
    device.capacityUsed > 0
  }

  function Start(): State {
    State(map[], map[], [], false)
  }

  function At(s: State, client: string): Interaction {
    if client in s.interactions then s.interactions[client] else Rest
  }

  predicate Listed(s: State, client: string, action: Action) {
    client in s.devices && Applies(action, s.devices[client])
  }

  function Put(s: State, client: string, interaction: Interaction): State {
    if At(s, client) == interaction then s else s.(interactions := s.interactions[client := interaction])
  }

  predicate Outdated(devices: map<string, Device>, client: string, interaction: Interaction) {
    (interaction.Confirming? || interaction.Failed?)
    && !(client in devices && Applies(interaction.action, devices[client]))
  }

  predicate Stale(s: State, client: string) {
    Outdated(s.devices, client, At(s, client))
  }

  function Pruned(s: State): State {
    s.(interactions := map c | c in s.interactions :: if Outdated(s.devices, c, s.interactions[c]) then Rest else s.interactions[c])
  }

  function Submitted(port: Port, s: State, client: string, action: Action): State {
    if port.Absent? then Put(s, client, Failed(action, Unavailable))
    else if action.ForceRelease? && !port.force then Put(Put(s, client, Submitting(action)), client, Failed(action, Unavailable))
    else
      var drain := action.Release? && client in s.devices && DrainsFirst(s.devices[client]);
      Put(s, client, Submitting(action)).(calls := s.calls + [Call(client, action, drain, false)])
  }

  function Requested(port: Port, s: State, client: string, action: Action): State {
    if s.closed || At(s, client).Submitting? || !Listed(s, client, action) then s
    else if action.Claim? || (action.Release? && !DrainsFirst(s.devices[client])) then Submitted(port, s, client, action)
    else Put(s, client, Confirming(action))
  }

  function Confirmed(port: Port, s: State, client: string): State {
    match At(s, client)
    case Confirming(action) => if s.closed then s else Submitted(port, s, client, action)
    case Failed(action, _) => if s.closed || action.Claim? then s else Submitted(port, s, client, action)
    case _ => s
  }

  function Dismissed(s: State, client: string): State {
    if s.closed || !(At(s, client).Confirming? || At(s, client).Failed?) then s else Put(s, client, Rest)
  }

  predicate Open(s: State, call: nat) {
    call < |s.calls| && !s.calls[call].settled
  }

  function Replied(s: State, call: nat, failure: Option<Failure>): State {
    if !Open(s, call) then s
    else
      var made := s.calls[call];
      var t := s.(calls := s.calls[call := made.(settled := true)]);
      if s.closed then t
      else Put(t, made.client, if failure.Some? then Failed(made.action, failure.value) else Rest)
  }

  function Next(port: Port, s: State, e: Event): State {
    match e
    case DevicesChanged(devices) => if s.closed then s.(devices := devices) else Pruned(s.(devices := devices))
    case Request(client, action) => Requested(port, s, client, action)
    case Confirm(client) => Confirmed(port, s, client)
    case Dismiss(client) => Dismissed(s, client)
    case Reply(call, failure) => Replied(s, call, failure)
    case Close => if s.closed then s else s.(closed := true, interactions := map[])
  }

  function Run(port: Port, es: seq<Event>): State {
    if es == [] then Start() else Next(port, Run(port, es[..|es| - 1]), es[|es| - 1])
  }

  // ----- One call per device -----

  // Each call under way is the one its device is submitting, and no device has two.
  ghost predicate CallsAreSubmitting(s: State) {
    && (forall i | 0 <= i < |s.calls| && Open(s, i) && !s.closed :: At(s, s.calls[i].client) == Submitting(s.calls[i].action))
    && forall i, j | 0 <= i < j < |s.calls| && Open(s, i) && Open(s, j) :: s.calls[i].client != s.calls[j].client
  }

  ghost predicate Calling(s: State, client: string) {
    exists i :: 0 <= i < |s.calls| && Open(s, i) && s.calls[i].client == client
  }

  ghost predicate SubmittingHasCall(s: State) {
    forall c: string | At(s, c).Submitting? :: Calling(s, c)
  }

  // What awaits confirmation can be done to the device as it is listed now.
  ghost predicate ConfirmingApplies(s: State) {
    forall c: string | At(s, c).Confirming? :: !At(s, c).action.Claim? && Listed(s, c, At(s, c).action)
  }

  ghost predicate Inv(s: State) {
    && CallsAreSubmitting(s) && SubmittingHasCall(s) && ConfirmingApplies(s)
    && (s.closed ==> s.interactions == map[])
  }

  // Changing one device's interaction that has no call.
  lemma InvPut(s: State, client: string, interaction: Interaction)
    requires Inv(s) && !s.closed && !At(s, client).Submitting? && !interaction.Submitting?
    requires interaction.Confirming? ==> !interaction.action.Claim? && Listed(s, client, interaction.action)
    ensures Inv(Put(s, client, interaction))
  {
    var t := Put(s, client, interaction);
    assert forall c: string :: At(t, c) == if c == client then interaction else At(s, c);
    assert forall i: nat :: Open(t, i) <==> Open(s, i);
    forall c: string | At(t, c).Submitting? ensures Calling(t, c) {
      assert Calling(s, c);
      var i :| 0 <= i < |s.calls| && Open(s, i) && s.calls[i].client == c;
      assert Open(t, i) && t.calls[i].client == c;
    }
  }

  lemma InvCalled(s: State, client: string, action: Action, drain: bool)
    requires Inv(s) && !s.closed && !At(s, client).Submitting?
    ensures Inv(Put(s, client, Submitting(action)).(calls := s.calls + [Call(client, action, drain, false)]))
  {
    var t := Put(s, client, Submitting(action)).(calls := s.calls + [Call(client, action, drain, false)]);
    assert forall c: string :: At(t, c) == if c == client then Submitting(action) else At(s, c);
    assert forall i: nat :: i < |s.calls| ==> t.calls[i] == s.calls[i] && (Open(t, i) <==> Open(s, i));
    forall c: string | At(t, c).Submitting? ensures Calling(t, c) {
      if c == client {
        assert Open(t, |s.calls|);
      } else {
        assert Calling(s, c);
        var i :| 0 <= i < |s.calls| && Open(s, i) && s.calls[i].client == c;
        assert Open(t, i);
      }
    }
  }

  lemma InvSubmitted(port: Port, s: State, client: string, action: Action)
    requires Inv(s) && !s.closed && !At(s, client).Submitting?
    ensures Inv(Submitted(port, s, client, action))
  {
    if port.Present? && !(action.ForceRelease? && !port.force) {
      InvCalled(s, client, action, action.Release? && client in s.devices && DrainsFirst(s.devices[client]));
    } else if port.Present? {
      var last := Failed(action, Unavailable);
      InvPut(s, client, last);
      var t, u := Put(Put(s, client, Submitting(action)), client, last), Put(s, client, last);
      assert forall c: string :: At(t, c) == At(u, c);
      InvSeen(u, t);
    } else {
      InvPut(s, client, Failed(action, Unavailable));
    }
  }

  // The invariant sees the interactions only through At.
  lemma InvSeen(s: State, t: State)
    requires Inv(s) && !s.closed && t == s.(interactions := t.interactions) && forall c: string :: At(t, c) == At(s, c)
    ensures Inv(t)
  {
    assert forall i: nat :: Open(t, i) <==> Open(s, i);
    forall c: string | At(t, c).Submitting? ensures Calling(t, c) {
      assert Calling(s, c);
      var i :| 0 <= i < |s.calls| && Open(s, i) && s.calls[i].client == c;
      assert Open(t, i) && t.calls[i].client == c;
    }
  }

  lemma InvDevices(s: State, devices: map<string, Device>)
    requires Inv(s) && !s.closed
    ensures Inv(Pruned(s.(devices := devices)))
  {
    var moved := s.(devices := devices);
    var t := Pruned(moved);
    assert forall c: string :: At(t, c) == if Stale(moved, c) then Rest else At(s, c);
    assert forall i: nat :: Open(t, i) <==> Open(s, i);
    forall c: string | At(t, c).Submitting? ensures Calling(t, c) {
      assert Calling(s, c);
      var i :| 0 <= i < |s.calls| && Open(s, i) && s.calls[i].client == c;
      assert Open(t, i) && t.calls[i].client == c;
    }
  }

  lemma InvReplied(s: State, call: nat, failure: Option<Failure>)
    requires Inv(s)
    ensures Inv(Replied(s, call, failure))
  {
    if Open(s, call) {
      var t := Replied(s, call, failure);
      var client := s.calls[call].client;
      assert forall i: nat :: Open(t, i) <==> Open(s, i) && i != call;
      assert forall i: nat :: i < |s.calls| ==> t.calls[i].client == s.calls[i].client && t.calls[i].action == s.calls[i].action;
      if !s.closed {
        assert forall c: string :: c != client ==> At(t, c) == At(s, c);
        assert !At(t, client).Submitting?;
        forall c: string | At(t, c).Submitting? ensures Calling(t, c) {
          assert Calling(s, c);
          var i :| 0 <= i < |s.calls| && Open(s, i) && s.calls[i].client == c;
          assert Open(t, i);
        }
      }
    }
  }

  lemma InvNext(port: Port, s: State, e: Event)
    requires Inv(s)
    ensures Inv(Next(port, s, e))
  {
    match e
    case DevicesChanged(devices) => if !s.closed { InvDevices(s, devices); }
    case Request(client, action) =>
      if !s.closed && !At(s, client).Submitting? && Listed(s, client, action) {
        InvSubmitted(port, s, client, action);
        if !action.Claim? { InvPut(s, client, Confirming(action)); }
      }
    case Confirm(client) =>
      if !s.closed && (At(s, client).Confirming? || At(s, client).Failed?) { InvSubmitted(port, s, client, At(s, client).action); }
    case Dismiss(client) => if !s.closed && !At(s, client).Submitting? { InvPut(s, client, Rest); }
    case Reply(call, failure) => InvReplied(s, call, failure);
    case Close =>
  }

  lemma {:induction false} InvRun(port: Port, es: seq<Event>)
    ensures Inv(Run(port, es))
  {
    if es != [] {
      InvRun(port, es[..|es| - 1]);
      InvNext(port, Run(port, es[..|es| - 1]), es[|es| - 1]);
    }
  }

  // In every run a device has one call under way exactly while it is submitting, and that call
  // carries the submitted action.
  lemma OneCallWhileSubmitting(port: Port, es: seq<Event>, client: string)
    ensures var s := Run(port, es);
            !s.closed ==>
              && (At(s, client).Submitting? <==> Calling(s, client))
              && forall i, j | 0 <= i < |s.calls| && 0 <= j < |s.calls| && Open(s, i) && Open(s, j)
                               && s.calls[i].client == client && s.calls[j].client == client ::
                   i == j && At(s, client) == Submitting(s.calls[i].action)
  {
    InvRun(port, es);
  }

  // ----- No dangerous call without a confirmed request -----

  // The device is asking, submitting or failed with this action.
  predicate Engaged(s: State, client: string, action: Action) {
    !At(s, client).Rest? && At(s, client).action == action
  }

  // A request that is taken up: the device is listed, suited and not submitting.
  predicate Accepted(s: State, e: Event, client: string) {
    e.Request? && e.client == client && !s.closed && !At(s, client).Submitting? && Listed(s, client, e.action)
  }

  lemma EngagedStep(port: Port, s: State, e: Event, client: string, action: Action)
    requires Inv(s) && Engaged(Next(port, s, e), client, action)
    ensures if Accepted(s, e, client) then e.action == action else Engaged(s, client, action)
  {
    if e.DevicesChanged? && !s.closed {
      var moved := s.(devices := e.devices);
      assert At(Pruned(moved), client) == if Stale(moved, client) then Rest else At(s, client);
    }
  }

  // Event m is the last request for the device that was taken up; it asked for the action, and the
  // device has been engaged in it ever since.
  ghost predicate OpenedAt(port: Port, es: seq<Event>, client: string, action: Action, m: int) {
    && 0 <= m < |es| && es[m] == Request(client, action) && Accepted(Run(port, es[..m]), es[m], client)
    && EngagedSince(port, es, client, action, m) && NoneAcceptedSince(port, es, client, m)
  }

  ghost predicate EngagedSince(port: Port, es: seq<Event>, client: string, action: Action, m: int)
    requires 0 <= m < |es|
  {
    forall k | m < k <= |es| :: Engaged(Run(port, es[..k]), client, action)
  }

  ghost predicate NoneAcceptedSince(port: Port, es: seq<Event>, client: string, m: int)
    requires 0 <= m < |es|
  {
    forall k | m < k < |es| :: !Accepted(Run(port, es[..k]), es[k], client)
  }

  lemma OpenedExtends(port: Port, es: seq<Event>, client: string, action: Action, m: int)
    requires es != [] && OpenedAt(port, es[..|es| - 1], client, action, m) && Engaged(Run(port, es), client, action)
    requires !Accepted(Run(port, es[..|es| - 1]), es[|es| - 1], client)
    ensures OpenedAt(port, es, client, action, m)
  {
    var front := es[..|es| - 1];
    assert front[..m] == es[..m] && es[m] == front[m];
    EngagedExtends(port, es, client, action, m);
    NoneAcceptedExtends(port, es, client, m);
  }

  lemma EngagedExtends(port: Port, es: seq<Event>, client: string, action: Action, m: int)
    requires 0 <= m < |es| - 1 && EngagedSince(port, es[..|es| - 1], client, action, m) && Engaged(Run(port, es), client, action)
    ensures EngagedSince(port, es, client, action, m)
  {
    forall k | m < k <= |es| ensures Engaged(Run(port, es[..k]), client, action) {
      assert es[..k] == if k < |es| then es[..|es| - 1][..k] else es;
    }
  }

  lemma NoneAcceptedExtends(port: Port, es: seq<Event>, client: string, m: int)
    requires 0 <= m < |es| - 1 && NoneAcceptedSince(port, es[..|es| - 1], client, m)
    requires !Accepted(Run(port, es[..|es| - 1]), es[|es| - 1], client)
    ensures NoneAcceptedSince(port, es, client, m)
  {
    var front := es[..|es| - 1];
    forall k | m < k < |es| ensures !Accepted(Run(port, es[..k]), es[k], client) {
      if k < |front| { assert front[..k] == es[..k] && front[k] == es[k]; }
    }
  }

  lemma {:induction false} EngagedWasOpened(port: Port, es: seq<Event>, client: string, action: Action) returns (m: int)
    requires Engaged(Run(port, es), client, action)
    ensures OpenedAt(port, es, client, action, m)
  {
    var n := |es| - 1;
    InvRun(port, es[..n]);
    EngagedStep(port, Run(port, es[..n]), es[n], client, action);
    if Accepted(Run(port, es[..n]), es[n], client) {
      m := n;
      assert es[..|es|] == es;
    } else {
      m := EngagedWasOpened(port, es[..n], client, action);
      OpenedExtends(port, es, client, action, m);
    }
  }

  predicate MakesCall(port: Port, s: State, e: Event, call: Call) {
    Next(port, s, e).calls == s.calls + [call]
  }

  // A step makes at most one call; a call that can disturb work in progress answers a confirmation.
  lemma CallsMade(port: Port, s: State, e: Event)
    requires Inv(s)
    ensures var t := Next(port, s, e);
            || |t.calls| == |s.calls|
            || (&& |t.calls| == |s.calls| + 1 && t.calls[..|s.calls|] == s.calls && !s.closed && port.Present?
                && var call := t.calls[|s.calls|];
                   && !call.settled && !At(s, call.client).Submitting?
                   && (call.drain <==> call.action.Release? && call.client in s.devices && DrainsFirst(s.devices[call.client]))
                   && (call.action.ForceRelease? ==> port.force)
                   && if e == Request(call.client, call.action)
                      then Accepted(s, e, call.client) && (call.action.Claim? || (call.action.Release? && !call.drain))
                      else e == Confirm(call.client) && !call.action.Claim? && Engaged(s, call.client, call.action))
  {
  }

  // In every run: a call to cancel, to force or to drain was confirmed, after a request for that
  // very action, on a device it applied to, that was never dismissed or overtaken in between. That
  // request is the last one taken up.
  lemma DangerIsConfirmed(port: Port, es: seq<Event>, e: Event, call: Call) returns (m: int)
    requires MakesCall(port, Run(port, es), e, call)
    requires call.action.CancelAndRelease? || call.action.ForceRelease? || call.drain
    ensures e == Confirm(call.client) && OpenedAt(port, es, call.client, call.action, m)
  {
    InvRun(port, es);
    CallsMade(port, Run(port, es), e);
    m := EngagedWasOpened(port, es, call.client, call.action);
  }

  // ----- What the user was asked -----

  lemma AskedStep(port: Port, s: State, e: Event, client: string)
    requires At(Next(port, s, e), client).Confirming?
    ensures At(s, client).Confirming? || Accepted(s, e, client)
  {
    if e.DevicesChanged? && !s.closed {
      var moved := s.(devices := e.devices);
      assert At(Pruned(moved), client) == if Stale(moved, client) then Rest else At(s, client);
    }
  }

  // Without a further request that is taken up, a device that is not asking does not start to ask.
  lemma {:induction false} NotAskedSince(port: Port, es: seq<Event>, client: string, from: nat)
    requires from <= |es| && !At(Run(port, es[..from]), client).Confirming?
    requires forall i | from <= i < |es| :: !Accepted(Run(port, es[..i]), es[i], client)
    ensures !At(Run(port, es), client).Confirming?
    decreases |es|
  {
    if from == |es| {
      assert es[..from] == es;
    } else {
      var front := es[..|es| - 1];
      assert front[..from] == es[..from];
      forall i | from <= i < |front| ensures !Accepted(Run(port, front[..i]), front[i], client) {
        assert front[..i] == es[..i] && front[i] == es[i];
      }
      NotAskedSince(port, front, client, from);
      NotAskedNext(port, Run(port, front), es[|es| - 1], client);
    }
  }

  lemma NotAskedNext(port: Port, s: State, e: Event, client: string)
    requires !At(s, client).Confirming? && !Accepted(s, e, client)
    ensures !At(Next(port, s, e), client).Confirming?
  {
    if At(Next(port, s, e), client).Confirming? { AskedStep(port, s, e, client); }
  }

  // The user has been asked for confirmation after event m.
  ghost predicate AskedSince(port: Port, es: seq<Event>, client: string, m: int) {
    exists k | 0 <= k <= |es| :: m < k && At(Run(port, es[..k]), client).Confirming?
  }

  predicate HasWork(s: State, client: string) {
    client in s.devices && DrainsFirst(s.devices[client])
  }

  lemma AskedExactly(port: Port, es: seq<Event>, client: string, m: int)
    requires port.Present? && OpenedAt(port, es, client, Release, m)
    ensures AskedSince(port, es, client, m) <==> HasWork(Run(port, es[..m]), client)
  {
    var s := Run(port, es[..m]);
    assert es[..m + 1][..m] == es[..m];
    assert Run(port, es[..m + 1]) == Requested(port, s, client, Release);
    if !HasWork(s, client) {
      forall k | m < k <= |es| ensures !At(Run(port, es[..k]), client).Confirming? { NotAskedBefore(port, es, client, m, k); }
    }
  }

  lemma NotAskedBefore(port: Port, es: seq<Event>, client: string, m: int, k: int)
    requires 0 <= m < k <= |es| && NoneAcceptedSince(port, es, client, m)
    requires !At(Run(port, es[..m + 1]), client).Confirming?
    ensures !At(Run(port, es[..k]), client).Confirming?
  {
    assert es[..k][..m + 1] == es[..m + 1];
    forall i | m < i < k ensures !Accepted(Run(port, es[..k][..i]), es[..k][i], client) {
      assert es[..k][..i] == es[..i];
    }
    NotAskedSince(port, es[..k], client, m + 1);
  }

  // In every run: a call that drains is a confirmed release, and since the last request that was
  // taken up the user was asked whether to release if and only if the device had work at that request.
  lemma DrainWasAskedExactly(port: Port, es: seq<Event>, e: Event, call: Call) returns (m: int)
    requires MakesCall(port, Run(port, es), e, call) && call.drain
    ensures e == Confirm(call.client) && OpenedAt(port, es, call.client, Release, m)
    ensures AskedSince(port, es, call.client, m) <==> HasWork(Run(port, es[..m]), call.client)
  {
    InvRun(port, es);
    CallsMade(port, Run(port, es), e);
    m := DangerIsConfirmed(port, es, e, call);
    AskedExactly(port, es, call.client, m);
  }

  // ----- Retrying on a device that has changed -----

  lemma FailedStep(port: Port, s: State, e: Event, client: string)
    requires At(Next(port, s, e), client).Failed?
    ensures var t, action := Next(port, s, e), At(Next(port, s, e), client).action;
            if e.DevicesChanged?
            then At(s, client) == At(t, client) && (s.closed || Listed(t, client, action))
            else t.devices == s.devices
  {
    if e.DevicesChanged? && !s.closed {
      var moved := s.(devices := e.devices);
      assert At(Pruned(moved), client) == if Stale(moved, client) then Rest else At(s, client);
    }
  }

  // The failure on show came with event f, and the list of devices may have changed since.
  ghost predicate FailedAt(port: Port, es: seq<Event>, client: string, f: int) {
    && 0 <= f < |es| && At(Run(port, es[..f]), client) != At(Run(port, es), client)
    && forall k | f < k <= |es| :: At(Run(port, es[..k]), client) == At(Run(port, es), client)
  }

  predicate ListAnnounced(es: seq<Event>, f: int) {
    exists k | 0 <= k < |es| :: f < k && es[k].DevicesChanged?
  }

  // The failed action does not apply to its device if and only if it did not when it failed and no
  // list of devices has been announced since.
  ghost predicate UnlistedSince(port: Port, es: seq<Event>, client: string, f: int)
    requires 0 <= f < |es| && At(Run(port, es), client).Failed?
  {
    var action := At(Run(port, es), client).action;
    !Listed(Run(port, es), client, action) <==> !Listed(Run(port, es[..f + 1]), client, action) && !ListAnnounced(es, f)
  }

  lemma {:induction false} UnlistedExactly(port: Port, es: seq<Event>, client: string) returns (f: int)
    requires At(Run(port, es), client).Failed?
    ensures FailedAt(port, es, client, f) && UnlistedSince(port, es, client, f)
  {
    var front := es[..|es| - 1];
    if At(Run(port, front), client) == At(Run(port, es), client) {
      f := UnlistedExactly(port, front, client);
      FailedExtends(port, es, client, f);
      UnlistedNext(port, es, client, f);
    } else {
      f := |es| - 1;
      UnlistedNow(port, es, client);
    }
  }

  lemma UnlistedNow(port: Port, es: seq<Event>, client: string)
    requires es != [] && At(Run(port, es), client).Failed?
    requires At(Run(port, es[..|es| - 1]), client) != At(Run(port, es), client)
    ensures FailedAt(port, es, client, |es| - 1) && UnlistedSince(port, es, client, |es| - 1)
  {
    assert es[..|es|] == es;
  }

  lemma UnlistedNext(port: Port, es: seq<Event>, client: string, f: int)
    requires es != [] && 0 <= f < |es| - 1 && At(Run(port, es), client).Failed?
    requires At(Run(port, es[..|es| - 1]), client) == At(Run(port, es), client)
    requires UnlistedSince(port, es[..|es| - 1], client, f)
    ensures UnlistedSince(port, es, client, f)
  {
    AnnouncedExtends(es, f);
    InvRun(port, es[..|es| - 1]);
    FailedStep(port, Run(port, es[..|es| - 1]), es[|es| - 1], client);
  }

  lemma FailedExtends(port: Port, es: seq<Event>, client: string, f: int)
    requires es != [] && FailedAt(port, es[..|es| - 1], client, f)
    requires At(Run(port, es[..|es| - 1]), client) == At(Run(port, es), client)
    ensures FailedAt(port, es, client, f)
  {
    var front := es[..|es| - 1];
    assert front[..f] == es[..f];
    forall k | f < k <= |es| ensures At(Run(port, es[..k]), client) == At(Run(port, es), client) {
      if k < |es| { assert front[..k] == es[..k]; } else { assert es[..k] == es; }
    }
  }

  lemma AnnouncedExtends(es: seq<Event>, f: int)
    requires es != [] && 0 <= f < |es| - 1
    ensures es[..|es| - 1][..f + 1] == es[..f + 1]
    ensures ListAnnounced(es, f) <==> ListAnnounced(es[..|es| - 1], f) || es[|es| - 1].DevicesChanged?
  {
    var front := es[..|es| - 1];
    if k :| 0 <= k < |front| && f < k && front[k].DevicesChanged? { assert es[k].DevicesChanged?; }
    if k :| 0 <= k < |es| && f < k && es[k].DevicesChanged? { assert k < |front| ==> front[k].DevicesChanged?; }
  }

  // A confirmed call is made on a device its action applies to, unless it is a retry: then exactly
  // when the action applied as it failed, or the devices have been announced since.
  lemma ConfirmedCallApplies(port: Port, es: seq<Event>, client: string) returns (f: int)
    requires At(Run(port, es), client).Confirming? || At(Run(port, es), client).Failed?
    ensures var s := Run(port, es);
            var action := At(s, client).action;
            && (At(s, client).Confirming? ==> Listed(s, client, action))
            && (At(s, client).Failed? ==>
                  && FailedAt(port, es, client, f)
                  && (Listed(s, client, action) <==> Listed(Run(port, es[..f + 1]), client, action) || ListAnnounced(es, f)))
  {
    InvRun(port, es);
    f := 0;
    if At(Run(port, es), client).Failed? { f := UnlistedExactly(port, es, client); }
  }

  // Both happen. In every run, a call that fails is made again on a confirmation, whatever has become
  // of the device: it may drain a device that had no work, and cancel or force on one that is not suited.
  lemma RetryGoesThrough(port: Port, es: seq<Event>, client: string, i: nat, failure: Failure, devices: map<string, Device>)
    requires var s := Run(port, es);
             && !s.closed && Open(s, i) && s.calls[i].client == client && !s.calls[i].action.Claim?
             && port.Present? && (s.calls[i].action.ForceRelease? ==> port.force)
    ensures var s := Run(port, es);
            var made := s.calls[i];
            Run(port, es + [DevicesChanged(devices)] + [Reply(i, Some(failure))] + [Confirm(client)]).calls
            == s.calls[i := made.(settled := true)]
               + [Call(client, made.action, made.action.Release? && client in devices && DrainsFirst(devices[client]), false)]
  {
    InvRun(port, es);
    RunSnoc(port, es, DevicesChanged(devices));
    RunSnoc(port, es + [DevicesChanged(devices)], Reply(i, Some(failure)));
    RunSnoc(port, es + [DevicesChanged(devices)] + [Reply(i, Some(failure))], Confirm(client));
    RetryNext(port, Run(port, es), client, i, failure, devices);
  }

  lemma RunSnoc(port: Port, es: seq<Event>, e: Event)
    ensures Run(port, es + [e]) == Next(port, Run(port, es), e)
  {
    assert (es + [e])[..|es + [e]| - 1] == es;
  }

  lemma RetryNext(port: Port, s: State, client: string, i: nat, failure: Failure, devices: map<string, Device>)
    requires Inv(s) && !s.closed && Open(s, i) && s.calls[i].client == client && !s.calls[i].action.Claim?
    requires port.Present? && (s.calls[i].action.ForceRelease? ==> port.force)
    ensures var failed := Next(port, Next(port, s, DevicesChanged(devices)), Reply(i, Some(failure)));
            Next(port, failed, Confirm(client)).calls
            == s.calls[i := s.calls[i].(settled := true)]
               + [Call(client, s.calls[i].action, s.calls[i].action.Release? && client in devices && DrainsFirst(devices[client]), false)]
  {
    assert At(s, client) == Submitting(s.calls[i].action);
    var moved := Next(port, s, DevicesChanged(devices));
    assert At(moved, client) == At(s, client) && moved.calls == s.calls && moved.devices == devices;
    var failed := Next(port, moved, Reply(i, Some(failure)));
    assert At(failed, client) == Failed(s.calls[i].action, failure) && failed.devices == devices;
  }

  // ----- Each operation -----

  // The device is listed in a state that the action is for.
  predicate Suited(s: State, client: string, action: Action) {
    && client in s.devices
    && var d := s.devices[client];
       match action
       case Claim => d.occupancy == Available && d.online
       case Release => d.occupancy == OccupiedByMe
       case CancelAndRelease => d.occupancy == Draining || (d.occupancy == OccupiedByMe && d.capacityUsed != 0)
       case ForceRelease => d.occupancy == RecoveryPending
  }

  ghost predicate OnlyConcerns(s: State, t: State, client: string) {
    t.devices == s.devices && t.closed == s.closed && forall c: string | c != client :: At(t, c) == At(s, c)
  }

  // After every run: a request is taken up exactly if the device is suited and has no call under way. A
  // claim, and a release of a device without work, is called for at once; anything else is asked first.
  lemma RequestExactly(port: Port, es: seq<Event>, client: string, action: Action)
    ensures var s, t := Run(port, es), Next(port, Run(port, es), Request(client, action));
            if s.closed || At(s, client).Submitting? || !Suited(s, client, action) then t == s
            else
              && OnlyConcerns(s, t, client)
              && if action == Claim || (action == Release && s.devices[client].capacityUsed == 0)
                 then if port.Present?
                   then At(t, client) == Submitting(action) && t.calls == s.calls + [Call(client, action, false, false)]
                   else At(t, client) == Failed(action, Unavailable) && t.calls == s.calls
                 else At(t, client) == Confirming(action) && t.calls == s.calls
  {
    RequestAt(port, Run(port, es), client, action);
  }

  lemma RequestAt(port: Port, s: State, client: string, action: Action)
    ensures var t := Requested(port, s, client, action);
            if s.closed || At(s, client).Submitting? || !Suited(s, client, action) then t == s
            else
              && OnlyConcerns(s, t, client)
              && if action == Claim || (action == Release && s.devices[client].capacityUsed == 0)
                 then if port.Present?
                   then At(t, client) == Submitting(action) && t.calls == s.calls + [Call(client, action, false, false)]
                   else At(t, client) == Failed(action, Unavailable) && t.calls == s.calls
                 else At(t, client) == Confirming(action) && t.calls == s.calls
  {
  }

  // A dismissal sets a question or a failure aside, and nothing else.
  lemma DismissExactly(port: Port, es: seq<Event>, client: string)
    ensures var s, t := Run(port, es), Next(port, Run(port, es), Dismiss(client));
            && OnlyConcerns(s, t, client) && t.calls == s.calls
            && At(t, client) == if At(s, client).Submitting? then At(s, client) else Rest
  {
    InvRun(port, es);
  }

  // After the close nothing is asked, submitted or failed any more, and no call is made.
  lemma {:induction false} ClosedIsFinal(port: Port, es: seq<Event>, fs: seq<Event>)
    ensures var s, t := Run(port, es), Run(port, es + [Close] + fs);
            t.closed && t.interactions == map[] && |t.calls| == |s.calls|
  {
    if fs == [] {
      RunSnoc(port, es, Close);
      InvRun(port, es);
      assert es + [Close] + fs == es + [Close];
    } else {
      var front, e := fs[..|fs| - 1], fs[|fs| - 1];
      ClosedIsFinal(port, es, front);
      assert es + [Close] + fs == es + [Close] + front + [e];
      RunSnoc(port, es + [Close] + front, e);
    }
  }
}

module OccupancyObject {
  import opened Options
  import opened OccupancySpec

  class ClientOccupancyViewModel {
    const port: Port
    var devices: map<string, Device>
    var interactions: map<string, Interaction>
    var calls: seq<Call>
    var closed: bool

    ghost function View(): State
      reads this
    {
      State(devices, interactions, calls, closed)
    }

    constructor (port: Port)
      ensures View() == Start() && this.port == port
    {
      this.port := port;
      devices, interactions, calls, closed := map[], map[], [], false;
    }

    function Interaction(client: string): (interaction: Interaction)
      reads this
      ensures interaction == At(View(), client)
    {
      if client in interactions then interactions[client] else Rest
    }

    method SetInteraction(client: string, interaction: Interaction)
      modifies this`interactions
      ensures View() == Put(old(View()), client, interaction)
    {
      if Interaction(client) != interaction { interactions := interactions[client := interaction]; }
    }

    // The clients view model announced a new list.
    method PruneStaleInteractions(listed: map<string, Device>)
      modifies this`devices, this`interactions
      ensures View() == Next(port, old(View()), DevicesChanged(listed))
    {
      devices := listed;
      if closed { return; }
      ghost var was := interactions;
      var left := interactions.Keys;
      while left != {}
        invariant devices == listed && left <= interactions.Keys == was.Keys
        invariant forall c | c in was ::
                    interactions[c] == if c !in left && Outdated(listed, c, was[c]) then Rest else was[c]
        decreases |left|
      {
        var client :| client in left;
        if Outdated(listed, client, interactions[client]) { interactions := interactions[client := Rest]; }
        left := left - {client};
      }
      assert interactions == Pruned(old(View()).(devices := listed)).interactions;
    }

    method Submit(client: string, action: Action)
      modifies this`interactions, this`calls
      ensures View() == Submitted(port, old(View()), client, action)
    {
      if port.Absent? {
        SetInteraction(client, Failed(action, Unavailable));
        return;
      }
      SetInteraction(client, Submitting(action));
      if action.ForceRelease? && !port.force {
        SetInteraction(client, Failed(action, Unavailable));
        return;
      }
      var drain := action.Release? && client in devices && DrainsFirst(devices[client]);
      calls := calls + [Call(client, action, drain, false)];
    }

    method RequestAction(client: string, action: Action)
      modifies this`interactions, this`calls
      ensures View() == Next(port, old(View()), Request(client, action))
    {
      if closed || Interaction(client).Submitting? { return; }
      if client !in devices || !Applies(action, devices[client]) { return; }
      if action.Claim? || (action.Release? && !DrainsFirst(devices[client])) {
        Submit(client, action);
      } else {
        SetInteraction(client, Confirming(action));
      }
    }

    method ConfirmPending(client: string)
      modifies this`interactions, this`calls
      ensures View() == Next(port, old(View()), Confirm(client))
    {
      if closed { return; }
      var current := Interaction(client);
      if current.Confirming? || (current.Failed? && !current.action.Claim?) { Submit(client, current.action); }
    }

    method DismissPending(client: string)
      modifies this`interactions
      ensures View() == Next(port, old(View()), Dismiss(client))
    {
      if closed { return; }
      var current := Interaction(client);
      if !current.Confirming? && !current.Failed? { return; }
      SetInteraction(client, Rest);
    }

    method CallSettles(call: nat, failure: Option<Failure>)
      modifies this`interactions, this`calls
      ensures View() == Next(port, old(View()), Reply(call, failure))
    {
      if call >= |calls| || calls[call].settled { return; }
      var made := calls[call];
      calls := calls[call := made.(settled := true)];
      if closed { return; }
      SetInteraction(made.client, if failure.Some? then Failed(made.action, failure.value) else Rest);
    }

    method CloseViewModel()
      modifies this`interactions, this`closed
      ensures View() == Next(port, old(View()), Close)
    {
      if closed { return; }
      closed := true;
      interactions := map[];
    }
  }
}
