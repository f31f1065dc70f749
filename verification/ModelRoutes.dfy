// Which model route a chat uses: an explicit choice, the session's own route, or one default that
// is picked once and never silently replaced.
module ModelRoutesSpec {
  import opened Options

  datatype Route = Route(provider: string, model: string, credential: string)

  datatype Reason = RouteReady | Other(code: string)

  datatype Candidate = Candidate(route: Route, client: Option<string>, available: bool, reason: Reason, isDefault: bool)

  datatype Availability = Availability(items: seq<Candidate>, reason: Reason)

  // The selection variables and the part of the published state that depends on them. `client` is
  // the client the chat is bound to, if any.
  datatype Selection = Selection(
    client: Option<string>,
    identity: Option<string>,
    established: bool,
    issue: Option<Reason>,
    ready: bool,
    availability: Option<Availability>,
    selected: Option<Route>,
    closed: bool)

  function Identity(r: Route): string {
    r.provider + "\0" + r.model + "\0" + r.credential
  }

  predicate IsReady(c: Candidate) {
    c.available && c.reason == RouteReady
  }

  predicate OfClient(client: Option<string>, c: Candidate) {
    client.None? || c.client == client
  }

  // Array.find.
  function Find(items: seq<Candidate>, p: Candidate -> bool): (r: Option<Candidate>)
    ensures r.Some? ==> r.value in items && p(r.value)
    ensures r.None? ==> forall c | c in items :: !p(c)
  {
    if items == [] then None else if p(items[0]) then Some(items[0]) else Find(items[1..], p)
  }

  function Initial(client: Option<string>): Selection {
    Selection(client, None, false, None, false, None, None, false)
  }

  // The conditions of the three searches.
  function DefaultReady(client: Option<string>): Candidate -> bool {
    (c: Candidate) => IsReady(c) && OfClient(client, c) && c.isDefault
  }

  function AnyReady(client: Option<string>): Candidate -> bool {
    (c: Candidate) => IsReady(c) && OfClient(client, c)
  }

  function WithIdentity(client: Option<string>, identity: string): Candidate -> bool {
    (c: Candidate) => Identity(c.route) == identity && OfClient(client, c)
  }

  function ReadyWithIdentity(client: Option<string>, identity: string): Candidate -> bool {
    (c: Candidate) => IsReady(c) && OfClient(client, c) && Identity(c.route) == identity
  }

  // The first ready default or, for a chat bound to a client, that client's first ready route.
  function Default(client: Option<string>, a: Availability): Option<Candidate> {
    var default := Find(a.items, DefaultReady(client));
    if default.Some? || client.None? then default else Find(a.items, AnyReady(client))
  }

  function Named(client: Option<string>, a: Availability, identity: string): Option<Candidate> {
    Find(a.items, WithIdentity(client, identity))
  }

  // reconcileSelectedModelRoute, then publishing the availability with the result.
  function Reconciled(s: Selection, a: Availability): Selection {
    var t := s.(ready := true, availability := Some(a));
    if !s.established then
      var default := Default(s.client, a);
      if default.None? then t.(selected := None)
      else t.(identity := Some(Identity(default.value.route)), established := true, issue := None,
              selected := Some(default.value.route))
    else if s.identity.None? then t.(selected := None)
    else
      var found := Named(s.client, a, s.identity.value);
      if found.Some? && IsReady(found.value) then t.(selected := Some(found.value.route))
      else t.(identity := None, issue := Some(if found.Some? then found.value.reason else a.reason), selected := None)
  }

  function Cleared(s: Selection): Selection {
    s.(established := s.established || s.identity.Some? || s.selected.Some?, identity := None)
  }

  datatype Event =
    | Snapshot(session: Option<Route>, availability: Availability)
    | Reload(availability: Availability)
    | Choose(route: Route)
    | Lose // a failed load or reload, or revoked access
    | Reset // a load that empties the view
    | SetReady(ready: bool) // a refresh, a cancellation, or a reload of something else
    | Close

  function Chosen(s: Selection, route: Route): Selection {
    if !s.ready || s.availability.None? then s
    else
      var found := Find(s.availability.value.items, ReadyWithIdentity(s.client, Identity(route)));
      if found.None? then s
      else s.(identity := Some(Identity(route)), established := true, issue := None, selected := Some(found.value.route))
  }

  function Next(s: Selection, e: Event): Selection {
    if s.closed then s
    else match e
      case Snapshot(session, a) =>
        var t := if session.Some? then s.(identity := Some(Identity(session.value)), established := true) else s;
        Reconciled(t, a)
      case Reload(a) => Reconciled(s, a)
      case Choose(route) => Chosen(s, route)
      case Lose => Cleared(s).(ready := false, availability := None, selected := None)
      case Reset => s.(ready := false, availability := None, selected := None)
      case SetReady(ready) => s.(ready := ready)
      case Close => Cleared(s).(ready := false, availability := None, selected := None, issue := None, closed := true)
  }

  function Run(client: Option<string>, es: seq<Event>): Selection {
    if es == [] then Initial(client) else Next(Run(client, es[..|es| - 1]), es[|es| - 1])
  }

  // A selected route is one that is offered now, ready, and of the bound client.
  predicate Offered(s: Selection) {
    s.selected.Some? ==>
      && s.availability.Some?
      && s.identity == Some(Identity(s.selected.value))
      && s.established
      && exists c | c in s.availability.value.items :: IsReady(c) && OfClient(s.client, c) && c.route == s.selected.value
  }

  lemma OfferedStep(s: Selection, e: Event)
    requires Offered(s)
    ensures Offered(Next(s, e))
  {
  }

  lemma {:induction false} SelectedIsOffered(client: Option<string>, es: seq<Event>)
    ensures Offered(Run(client, es)) && Run(client, es).client == client
  {
    if es != [] {
      SelectedIsOffered(client, es[..|es| - 1]);
      OfferedStep(Run(client, es[..|es| - 1]), es[|es| - 1]);
    }
  }

  // ----- Which route is selected -----

  // The route at i is ready and of the bound client; `First…` at the least such place.
  predicate ReadyAt(client: Option<string>, items: seq<Candidate>, i: int) {
    0 <= i < |items| && items[i].available && items[i].reason == RouteReady && (client.None? || items[i].client == client)
  }

  predicate DefaultAt(client: Option<string>, items: seq<Candidate>, i: int) {
    ReadyAt(client, items, i) && items[i].isDefault
  }

  // The route at i has the identity and is of the bound client, ready or not.
  predicate KnownAt(client: Option<string>, items: seq<Candidate>, identity: string, i: int) {
    0 <= i < |items| && Identity(items[i].route) == identity && (client.None? || items[i].client == client)
  }

  predicate FirstReady(client: Option<string>, items: seq<Candidate>, i: int) {
    ReadyAt(client, items, i) && forall j | 0 <= j < i :: !ReadyAt(client, items, j)
  }

  predicate FirstDefault(client: Option<string>, items: seq<Candidate>, i: int) {
    DefaultAt(client, items, i) && forall j | 0 <= j < i :: !DefaultAt(client, items, j)
  }

  predicate FirstKnown(client: Option<string>, items: seq<Candidate>, identity: string, i: int) {
    KnownAt(client, items, identity, i) && forall j | 0 <= j < i :: !KnownAt(client, items, identity, j)
  }

  lemma {:induction false} FindAt(items: seq<Candidate>, p: Candidate -> bool, i: nat)
    requires i < |items| && p(items[i]) && forall j | 0 <= j < i :: !p(items[j])
    ensures Find(items, p) == Some(items[i])
  {
    if i > 0 {
      assert !p(items[0]);
      FindAt(items[1..], p, i - 1);
    }
  }

  predicate Selects(t: Selection, c: Candidate) {
    t.selected == Some(c.route) && t.identity == Some(Identity(c.route)) && t.established
  }

  // The event brings an offer, with or without a session that has a route of its own.
  predicate Offers(e: Event, a: Availability) {
    e == Reload(a) || (e.Snapshot? && e.availability == a)
  }

  // The identity that the offer is searched for: the session's route, or else what was established.
  function Wanted(s: Selection, e: Event): Option<string> {
    if e.Snapshot? && e.session.Some? then Some(Identity(e.session.value)) else if s.established then s.identity else None
  }

  lemma SearchDefault(client: Option<string>, items: seq<Candidate>, i: int)
    ensures FirstDefault(client, items, i) ==> Find(items, DefaultReady(client)) == Some(items[i])
    ensures (forall j :: !DefaultAt(client, items, j)) ==> Find(items, DefaultReady(client)).None?
  {
    var p := DefaultReady(client);
    assert forall j | 0 <= j < |items| :: p(items[j]) <==> DefaultAt(client, items, j);
    if FirstDefault(client, items, i) { FindAt(items, p, i); }
  }

  lemma SearchReady(client: Option<string>, items: seq<Candidate>, i: int)
    ensures FirstReady(client, items, i) ==> Find(items, AnyReady(client)) == Some(items[i])
    ensures (forall j :: !ReadyAt(client, items, j)) ==> Find(items, AnyReady(client)).None?
  {
    var p := AnyReady(client);
    assert forall j | 0 <= j < |items| :: p(items[j]) <==> ReadyAt(client, items, j);
    if FirstReady(client, items, i) { FindAt(items, p, i); }
  }

  lemma SearchKnown(client: Option<string>, items: seq<Candidate>, identity: string, i: int)
    ensures FirstKnown(client, items, identity, i) ==> Find(items, WithIdentity(client, identity)) == Some(items[i])
    ensures (forall j :: !KnownAt(client, items, identity, j)) ==> Find(items, WithIdentity(client, identity)).None?
  {
    var p := WithIdentity(client, identity);
    assert forall j | 0 <= j < |items| :: p(items[j]) <==> KnownAt(client, items, identity, j);
    if FirstKnown(client, items, identity, i) { FindAt(items, p, i); }
  }

  // With nothing established, an offer selects its first ready default; a bound chat without one
  // takes the first ready route of its client; otherwise nothing is selected and nothing established.
  lemma FirstOfferSelects(s: Selection, e: Event, a: Availability, i: int)
    requires !s.closed && !s.established && Offers(e, a) && Wanted(s, e).None?
    ensures var t := Next(s, e);
            && t.availability == Some(a) && t.ready
            && (FirstDefault(s.client, a.items, i) ==> Selects(t, a.items[i]) && t.issue.None?)
            && (s.client.Some? && (forall j :: !DefaultAt(s.client, a.items, j)) && FirstReady(s.client, a.items, i) ==>
                  Selects(t, a.items[i]) && t.issue.None?)
            && ((forall j :: !DefaultAt(s.client, a.items, j)) && (s.client.None? || forall j :: !ReadyAt(s.client, a.items, j)) ==>
                  t.selected.None? && !t.established && t.identity == s.identity)
  {
    SearchDefault(s.client, a.items, i);
    SearchReady(s.client, a.items, i);
  }

  // The wanted route is selected by an offer exactly if the first route with its identity is ready;
  // otherwise it is given up, for that route's reason or, if there is none, the offer's.
  lemma WantedIsSelectedExactly(s: Selection, e: Event, a: Availability, i: int)
    requires !s.closed && Offers(e, a) && Wanted(s, e).Some?
    ensures var t, identity := Next(s, e), Wanted(s, e).value;
            && t.availability == Some(a) && t.ready && t.established
            && (FirstKnown(s.client, a.items, identity, i) && ReadyAt(s.client, a.items, i) ==>
                  Selects(t, a.items[i]) && t.issue == s.issue)
            && (FirstKnown(s.client, a.items, identity, i) && !ReadyAt(s.client, a.items, i) ==>
                  t.selected.None? && t.identity.None? && t.issue == Some(a.items[i].reason))
            && ((forall j :: !KnownAt(s.client, a.items, identity, j)) ==>
                  t.selected.None? && t.identity.None? && t.issue == Some(a.reason))
  {
    SearchKnown(s.client, a.items, Wanted(s, e).value, i);
  }

  // What was established and lost is not replaced by an offer.
  lemma LostIsNotReplaced(s: Selection, e: Event, a: Availability)
    requires !s.closed && s.established && Offers(e, a) && Wanted(s, e).None?
    ensures Next(s, e) == s.(ready := true, availability := Some(a), selected := None)
  {
  }

  predicate Choosable(s: Selection, route: Route, i: int) {
    s.availability.Some? && ReadyAt(s.client, s.availability.value.items, i) && KnownAt(s.client, s.availability.value.items, Identity(route), i)
  }

  // A choice is taken exactly if the chat is ready and a ready route of the client has its identity;
  // otherwise nothing happens.
  lemma ChoiceIsTakenExactly(s: Selection, route: Route)
    requires !s.closed
    ensures var t := Next(s, Choose(route));
            if s.ready && exists i :: Choosable(s, route, i)
            then t == s.(identity := Some(Identity(route)), established := true, issue := None, selected := t.selected)
                 && t.selected.Some? && Identity(t.selected.value) == Identity(route)
            else t == s
  {
    if s.ready && s.availability.Some? {
      var items, p := s.availability.value.items, ReadyWithIdentity(s.client, Identity(route));
      assert forall i | 0 <= i < |items| :: p(items[i]) <==> Choosable(s, route, i);
      if i :| Choosable(s, route, i) { assert p(items[i]); }
    }
  }

  // The user chose no route and the session has none of its own.
  predicate Automatic(e: Event) {
    !e.Choose? && !(e.Snapshot? && e.session.Some?)
  }

  // Once a route has been picked automatically, no other is: it is kept, or lost for good.
  lemma PickedStays(s: Selection, e: Event, picked: string)
    requires Offered(s) && Automatic(e) && s.established && (s.identity.None? || s.identity == Some(picked))
    ensures var t := Next(s, e); t.established && (t.identity.None? || t.identity == Some(picked))
  {
  }

  lemma {:induction false} PickedOnce(client: Option<string>, es: seq<Event>, k: nat)
    requires k <= |es| && (forall e | e in es :: Automatic(e)) && Run(client, es[..k]).selected.Some?
    ensures var picked, s := Identity(Run(client, es[..k]).selected.value), Run(client, es);
            s.established && (s.identity.None? || s.identity == Some(picked))
    decreases |es|
  {
    SelectedIsOffered(client, es[..k]);
    if k == |es| {
      assert es[..k] == es;
    } else {
      var front := es[..|es| - 1];
      assert front[..k] == es[..k];
      PickedOnce(client, front, k);
      SelectedIsOffered(client, front);
      PickedStays(Run(client, front), es[|es| - 1], Identity(Run(client, es[..k]).selected.value));
    }
  }

  // ----- Losing routes -----

  // Nothing is selected, and nothing is wanted that an offer could bring back.
  predicate Lost(s: Selection) {
    s.established && s.identity.None? && s.selected.None?
  }

  lemma {:induction false} LostStays(s: Selection, es: seq<Event>)
    requires Lost(s) && forall e | e in es :: Automatic(e)
    ensures Lost(RunOn(s, es))
  {
    if es != [] {
      LostStays(s, es[..|es| - 1]);
      assert Automatic(es[|es| - 1]);
    }
  }

  function RunOn(s: Selection, es: seq<Event>): Selection {
    if es == [] then s else Next(RunOn(s, es[..|es| - 1]), es[|es| - 1])
  }

  // After every run: a chat that loses its routes loses its selection for good, whatever is offered
  // later, until the user chooses again or the session has a route.
  lemma LossIsForGood(client: Option<string>, es: seq<Event>, fs: seq<Event>)
    requires !Run(client, es).closed && (Run(client, es).selected.Some? || Run(client, es).identity.Some?)
    requires forall e | e in fs :: Automatic(e)
    ensures Lost(RunOn(Next(Run(client, es), Lose), fs))
  {
    LostStays(Next(Run(client, es), Lose), fs);
  }

  // A view that is only emptied, or is busy, wants what it wanted before.
  lemma EmptyingKeepsTheChoice(s: Selection, e: Event, later: Event)
    requires e.Reset? || e.SetReady?
    ensures Wanted(Next(s, e), later) == Wanted(s, later) && Next(s, e).established == s.established
  {
  }

  // What the events of an open chat say of its readiness, if anything.
  function SaysReady(e: Event): Option<bool> {
    match e
    case Snapshot(_, _) => Some(true)
    case Reload(_) => Some(true)
    case Choose(_) => None
    case SetReady(ready) => Some(ready)
    case _ => Some(false)
  }

  function LastReady(client: Option<string>, es: seq<Event>): bool {
    if es == [] then false
    else
      var said := SaysReady(es[|es| - 1]);
      if !Run(client, es[..|es| - 1]).closed && said.Some? then said.value else LastReady(client, es[..|es| - 1])
  }

  lemma {:induction false} ReadyTellsLast(client: Option<string>, es: seq<Event>)
    ensures Run(client, es).ready == LastReady(client, es)
  {
    if es != [] { ReadyTellsLast(client, es[..|es| - 1]); }
  }

  // A closed chat holds no route and no issue, for good.
  lemma {:induction false} ClosedIsEmpty(client: Option<string>, es: seq<Event>)
    ensures var s := Run(client, es);
            s.closed ==> s.selected.None? && s.identity.None? && s.availability.None? && s.issue.None? && !s.ready
    ensures Close in es ==> Run(client, es).closed
  {
    if es != [] {
      assert es == es[..|es| - 1] + [es[|es| - 1]];
      ClosedIsEmpty(client, es[..|es| - 1]);
    }
  }

  // The parts of a route hold no NUL, which is what separates them in its identity.
  predicate Plain(r: Route) {
    '\0' !in r.provider && '\0' !in r.model && '\0' !in r.credential
  }

  lemma FirstPart(x: string, y: string, xs: string, ys: string)
    requires '\0' !in x && '\0' !in y && x + "\0" + xs == y + "\0" + ys
    ensures x == y && xs == ys
  {
    var all := x + "\0" + xs;
    assert all[|x|] == '\0' && forall i | 0 <= i < |x| :: all[i] == x[i];
    assert all == y + "\0" + ys;
    assert all[|y|] == '\0' && forall i | 0 <= i < |y| :: all[i] == y[i];
    assert |x| == |y|;
    assert x == all[..|x|] && y == all[..|x|];
    assert xs == all[|x| + 1..] && ys == all[|x| + 1..];
  }

  // The identity of a route stands for the route.
  lemma IdentityIsInjective(r: Route, q: Route)
    requires Plain(r) && Plain(q) && Identity(r) == Identity(q)
    ensures r == q
  {
    assert Identity(r) == r.provider + "\0" + (r.model + "\0" + r.credential);
    assert Identity(q) == q.provider + "\0" + (q.model + "\0" + q.credential);
    FirstPart(r.provider, q.provider, r.model + "\0" + r.credential, q.model + "\0" + q.credential);
    FirstPart(r.model, q.model, r.credential, q.credential);
  }

  // Without a choice and without a session route, all routes ever shown in a run are one route: when
  // it is lost, nothing takes its place.
  lemma NoSilentSwitch(client: Option<string>, es: seq<Event>, j: nat, k: nat)
    requires j <= k <= |es| && forall e | e in es :: Automatic(e)
    requires Run(client, es[..j]).selected.Some? && Run(client, es[..k]).selected.Some?
    ensures var r, q := Run(client, es[..j]).selected.value, Run(client, es[..k]).selected.value;
            Identity(r) == Identity(q) && (Plain(r) && Plain(q) ==> r == q)
  {
    assert es[..k][..j] == es[..j];
    PickedOnce(client, es[..k], j);
    SelectedIsOffered(client, es[..k]);
    var r, q := Run(client, es[..j]).selected.value, Run(client, es[..k]).selected.value;
    if Plain(r) && Plain(q) { IdentityIsInjective(r, q); }
  }
}

module ModelRoutesObject {
  import opened Options
  import opened ModelRoutesSpec

  class RouteSelection {
    const client: Option<string>
    var selectedIdentity: Option<string>
    var established: bool
    var issue: Option<Reason>
    var ready: bool
    var availability: Option<Availability>
    var selected: Option<Route>
    var closed: bool

    function View(): Selection
      reads this
    {
      Selection(client, selectedIdentity, established, issue, ready, availability, selected, closed)
    }

    constructor (client: Option<string>)
      ensures View() == Initial(client)
    {
      this.client := client;
      selectedIdentity, established, issue := None, false, None;
      ready, availability, selected, closed := false, None, None, false;
    }

    method Reconcile(offer: Availability)
      modifies this
      ensures View() == Reconciled(old(View()), offer)
    {
      ready, availability := true, Some(offer);
      if !established {
        var default := Default(client, offer);
        if default.None? {
          selected := None;
          return;
        }
        selectedIdentity, established, issue := Some(Identity(default.value.route)), true, None;
        selected := Some(default.value.route);
        return;
      }
      if selectedIdentity.None? {
        selected := None;
        return;
      }
      var matching := Named(client, offer, selectedIdentity.value);
      if matching.None? || !IsReady(matching.value) {
        issue := Some(if matching.Some? then matching.value.reason else offer.reason);
        selectedIdentity, selected := None, None;
        return;
      }
      selected := Some(matching.value.route);
    }

    method PublishSnapshot(session: Option<Route>, offer: Availability)
      requires !closed
      modifies this
      ensures View() == Next(old(View()), Snapshot(session, offer))
    {
      if session.Some? {
        selectedIdentity, established := Some(Identity(session.value)), true;
      }
      Reconcile(offer);
    }

    method SelectRoute(route: Route)
      requires !closed
      modifies this
      ensures View() == Next(old(View()), Choose(route))
    {
      if !ready || availability.None? {
        return;
      }
      var found := Find(availability.value.items, ReadyWithIdentity(client, Identity(route)));
      if found.None? {
        return;
      }
      selectedIdentity, established, issue := Some(Identity(route)), true, None;
      selected := Some(found.value.route);
    }

    method ClearSelection()
      modifies this
      ensures View() == Cleared(old(View()))
    {
      if selectedIdentity.Some? || selected.Some? {
        established := true;
      }
      selectedIdentity := None;
    }

    method LoseRoutes()
      requires !closed
      modifies this
      ensures View() == Next(old(View()), Lose)
    {
      ClearSelection();
      ready, availability, selected := false, None, None;
    }
  }
}
