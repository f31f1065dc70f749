// The chat's message list: pages and appended events are checked, merged by id and ordered by
// sequence; a page that fails the check leaves the list as it was.
module MessageStore {
  import opened Options
  import StableSort

  datatype Message = Message(id: string, session: string, sequence: int, text: string)

  datatype Fault = SessionMismatch | OrderInvalid

  datatype Outcome = Messages(messages: seq<Message>) | Rejected(fault: Fault)

  // ----- Checking and ordering -----

  predicate OfSession(messages: seq<Message>, session: string) {
    forall i | 0 <= i < |messages| :: messages[i].session == session
  }

  predicate Distinct(messages: seq<Message>) {
    forall i, j | 0 <= i < j < |messages| :: messages[i].id != messages[j].id && messages[i].sequence != messages[j].sequence
  }

  predicate Ascending(messages: seq<Message>) {
    forall i, j | 0 <= i < j < |messages| :: messages[i].sequence < messages[j].sequence
  }

  predicate Earlier(a: Message, b: Message) {
    a.sequence < b.sequence
  }

  function Sort(messages: seq<Message>): seq<Message> {
    StableSort.Sort(Earlier, messages)
  }

  lemma CountedOnce(messages: seq<Message>, k: nat)
    requires Distinct(messages) && k < |messages|
    ensures multiset(messages)[messages[k]] == 1
  {
    assert messages == messages[..k] + [messages[k]] + messages[k + 1..];
    assert messages[k] !in messages[..k] && messages[k] !in messages[k + 1..];
  }

  lemma CountedTwice(messages: seq<Message>, i: nat, j: nat)
    requires i < j < |messages| && messages[i] == messages[j]
    ensures multiset(messages)[messages[i]] >= 2
  {
    assert messages == messages[..j] + [messages[j]] + messages[j + 1..];
    assert messages[..j][i] == messages[i];
  }

  // Sorting messages with distinct sequences orders them strictly and changes nothing else.
  lemma SortExact(messages: seq<Message>)
    requires Distinct(messages)
    ensures Ascending(Sort(messages)) && multiset(Sort(messages)) == multiset(messages)
  {
    var sorted := Sort(messages);
    StableSort.SortExact(Earlier, messages);
    forall i, j | 0 <= i < j < |sorted| ensures sorted[i].sequence != sorted[j].sequence {
      assert sorted[i] in multiset(sorted) && sorted[j] in multiset(sorted);
      var a :| 0 <= a < |messages| && messages[a] == sorted[i];
      var b :| 0 <= b < |messages| && messages[b] == sorted[j];
      CountedOnce(messages, a);
      if sorted[i] == sorted[j] { CountedTwice(sorted, i, j); }
    }
  }

  predicate Clashes(messages: seq<Message>, m: Message) {
    exists x | x in messages :: x.id == m.id || x.sequence == m.sequence
  }

  lemma DistinctSnoc(messages: seq<Message>, m: Message)
    ensures Distinct(messages + [m]) <==> Distinct(messages) && !Clashes(messages, m)
  {
    var more := messages + [m];
    assert forall i | 0 <= i < |messages| :: more[i] == messages[i] && messages[i] in messages;
    if Distinct(more) {
      forall x | x in messages ensures x.id != m.id && x.sequence != m.sequence {
        var i :| 0 <= i < |messages| && messages[i] == x;
        assert more[i] == x && more[|messages|] == m;
      }
    }
  }

  // The fault of the first message that has one.
  function FaultIn(messages: seq<Message>, session: string): Option<Fault> {
    if messages == [] then None
    else
      var front, last := messages[..|messages| - 1], messages[|messages| - 1];
      var before := FaultIn(front, session);
      if before.Some? then before
      else if last.session != session then Some(SessionMismatch)
      else if Clashes(front, last) then Some(OrderInvalid)
      else None
  }

  lemma {:induction false} FaultExact(messages: seq<Message>, session: string)
    ensures FaultIn(messages, session).None? <==> OfSession(messages, session) && Distinct(messages)
  {
    if messages != [] {
      var front, last := messages[..|messages| - 1], messages[|messages| - 1];
      assert messages == front + [last];
      FaultExact(front, session);
      DistinctSnoc(front, last);
    }
  }

  function Asserted(messages: seq<Message>, session: string): Outcome {
    match FaultIn(messages, session)
    case Some(fault) => Rejected(fault)
    case None => Messages(Sort(messages))
  }

  lemma {:induction false} FaultStays(messages: seq<Message>, session: string, n: nat)
    requires n <= |messages| && FaultIn(messages[..n], session).Some?
    ensures FaultIn(messages, session) == FaultIn(messages[..n], session)
    decreases |messages|
  {
    if n == |messages| {
      assert messages[..n] == messages;
    } else {
      assert messages[..|messages| - 1][..n] == messages[..n];
      FaultStays(messages[..|messages| - 1], session, n);
    }
  }

  function IdsOf(messages: seq<Message>): set<string> {
    set m | m in messages :: m.id
  }

  function SequencesOf(messages: seq<Message>): set<int> {
    set m | m in messages :: m.sequence
  }

  lemma SeenSnoc(messages: seq<Message>, m: Message)
    ensures IdsOf(messages + [m]) == IdsOf(messages) + {m.id} && SequencesOf(messages + [m]) == SequencesOf(messages) + {m.sequence}
  {
  }

  lemma FaultSnoc(messages: seq<Message>, m: Message, session: string)
    requires FaultIn(messages, session).None?
    ensures FaultIn(messages + [m], session) ==
            if m.session != session then Some(SessionMismatch)
            else if m.id in IdsOf(messages) || m.sequence in SequencesOf(messages) then Some(OrderInvalid)
            else None
  {
    assert (messages + [m])[..|messages|] == messages;
  }

  // A page is accepted exactly when its messages are of the session and distinct, and is then put
  // in order.
  lemma AssertedExact(messages: seq<Message>, session: string)
    ensures var outcome := Asserted(messages, session);
            && (outcome.Messages? <==> OfSession(messages, session) && Distinct(messages))
            && (outcome.Messages? ==> Ascending(outcome.messages) && multiset(outcome.messages) == multiset(messages))
  {
    FaultExact(messages, session);
    if Asserted(messages, session).Messages? { SortExact(messages); }
  }

  method AssertMessages(messages: seq<Message>, session: string) returns (outcome: Outcome)
    ensures outcome == Asserted(messages, session)
    ensures outcome.Messages? <==> OfSession(messages, session) && Distinct(messages)
    ensures outcome.Messages? ==> Ascending(outcome.messages) && multiset(outcome.messages) == multiset(messages)
  {
    outcome := CheckMessages(messages, session);
    AssertedExact(messages, session);
  }

  // The pass with the sets of ids and sequences seen.
  method CheckMessages(messages: seq<Message>, session: string) returns (outcome: Outcome)
    ensures outcome == Asserted(messages, session)
  {
    var ids, sequences := {}, {};
    for i := 0 to |messages|
      invariant ids == IdsOf(messages[..i]) && sequences == SequencesOf(messages[..i])
      invariant FaultIn(messages[..i], session).None?
    {
      var message := messages[i];
      assert messages[..i + 1] == messages[..i] + [message];
      FaultSnoc(messages[..i], message, session);
      SeenSnoc(messages[..i], message);
      if message.session != session {
        FaultStays(messages, session, i + 1);
        return Rejected(SessionMismatch);
      }
      if message.id in ids || message.sequence in sequences {
        FaultStays(messages, session, i + 1);
        return Rejected(OrderInvalid);
      }
      ids, sequences := ids + {message.id}, sequences + {message.sequence};
    }
    assert messages[..|messages|] == messages;
    outcome := Messages(Sort(messages));
  }

  // ----- Merging -----

  // One `set` of a map keyed by id: an entry keeps its place, a new one goes last.
  function Upsert(messages: seq<Message>, m: Message): seq<Message> {
    if messages == [] then [m]
    else if messages[0].id == m.id then [m] + messages[1..]
    else [messages[0]] + Upsert(messages[1..], m)
  }

  function UpsertAll(messages: seq<Message>, incoming: seq<Message>): seq<Message> {
    if incoming == [] then messages
    else Upsert(UpsertAll(messages, incoming[..|incoming| - 1]), incoming[|incoming| - 1])
  }

  function Merged(current: seq<Message>, incoming: seq<Message>, session: string): Outcome {
    Asserted(UpsertAll(current, incoming), session)
  }

  method MergeMessages(current: seq<Message>, incoming: seq<Message>, session: string) returns (outcome: Outcome)
    ensures outcome == Merged(current, incoming, session)
  {
    var byId := current;
    for i := 0 to |incoming|
      invariant byId == UpsertAll(current, incoming[..i])
    {
      assert incoming[..i + 1][..i] == incoming[..i];
      byId := Upsert(byId, incoming[i]);
    }
    assert incoming[..|incoming|] == incoming;
    outcome := AssertMessages(byId, session);
  }

  // ----- The store -----

  datatype Event =
    | Snapshot(page: seq<Message>) // a first page replaces the list
    | Merge(page: seq<Message>) // an appended event or an older page
    | Clear

  // Each page is checked before anything else; a fault, there or in the merged list, leaves the
  // list as it was.
  function Step(messages: seq<Message>, e: Event, session: string): seq<Message> {
    match e
    case Clear => []
    case Snapshot(page) => var o := Asserted(page, session); if o.Messages? then o.messages else messages
    case Merge(page) =>
      var o := Asserted(page, session);
      if o.Rejected? then messages
      else var m := Merged(messages, o.messages, session); if m.Messages? then m.messages else messages
  }

  // The event handler and the two loaders, on the list they keep.
  method Receive(messages: seq<Message>, e: Event, session: string) returns (next: seq<Message>)
    ensures next == Step(messages, e, session)
  {
    match e {
      case Clear => return [];
      case Snapshot(page) =>
        var o := AssertMessages(page, session);
        return if o.Messages? then o.messages else messages;
      case Merge(page) =>
        var o := AssertMessages(page, session);
        if o.Rejected? { return messages; }
        var m := MergeMessages(messages, o.messages, session);
        return if m.Messages? then m.messages else messages;
    }
  }

  function Run(es: seq<Event>, session: string): seq<Message> {
    if es == [] then [] else Step(Run(es[..|es| - 1], session), es[|es| - 1], session)
  }

  predicate Ordered(messages: seq<Message>, session: string) {
    Ascending(messages) && Distinct(messages) && OfSession(messages, session)
  }

  lemma AssertedOrdered(messages: seq<Message>, session: string)
    ensures Asserted(messages, session).Messages? ==> Ordered(Asserted(messages, session).messages, session)
  {
    FaultExact(messages, session);
    if FaultIn(messages, session).None? {
      var sorted := Sort(messages);
      SortExact(messages);
      forall i | 0 <= i < |sorted| ensures sorted[i].session == session {
        assert sorted[i] in multiset(sorted);
        assert sorted[i] in messages;
      }
      forall i, j | 0 <= i < j < |sorted| ensures sorted[i].id != sorted[j].id {
        assert sorted[i] in multiset(sorted) && sorted[j] in multiset(sorted);
        var a :| 0 <= a < |messages| && messages[a] == sorted[i];
        var b :| 0 <= b < |messages| && messages[b] == sorted[j];
        assert sorted[i].sequence < sorted[j].sequence;
      }
    }
  }

  // Through every run of snapshots, appended messages, older pages and resets the list is strictly
  // ascending by sequence with distinct ids, all of one session.
  lemma {:induction false} StoreStaysOrdered(es: seq<Event>, session: string)
    ensures Ordered(Run(es, session), session)
  {
    if es != [] {
      var before, e := Run(es[..|es| - 1], session), es[|es| - 1];
      StoreStaysOrdered(es[..|es| - 1], session);
      if e.Snapshot? { AssertedOrdered(e.page, session); }
      if e.Merge? && Asserted(e.page, session).Messages? {
        AssertedOrdered(UpsertAll(before, Asserted(e.page, session).messages), session);
      }
    }
  }

  // ----- What a merge does -----

  function Elements(messages: seq<Message>): set<Message> {
    set m | m in messages
  }

  predicate DistinctIds(messages: seq<Message>) {
    forall i, j | 0 <= i < j < |messages| :: messages[i].id != messages[j].id
  }

  lemma ConsDistinct(m: Message, messages: seq<Message>)
    ensures DistinctIds([m] + messages) <==> DistinctIds(messages) && forall x | x in messages :: x.id != m.id
  {
    var all := [m] + messages;
    if DistinctIds(all) {
      forall x | x in messages ensures x.id != m.id {
        var k :| 0 <= k < |messages| && messages[k] == x;
        assert all[k + 1] == x && all[0] == m;
      }
      forall i, j | 0 <= i < j < |messages| ensures messages[i].id != messages[j].id {
        assert all[i + 1].id != all[j + 1].id;
      }
    }
  }

  lemma {:induction false} UpsertElements(messages: seq<Message>, m: Message)
    requires DistinctIds(messages)
    ensures DistinctIds(Upsert(messages, m))
    ensures forall x :: x in Upsert(messages, m) <==> x == m || (x in messages && x.id != m.id)
  {
    if messages != [] {
      var first, rest := messages[0], messages[1..];
      assert messages == [first] + rest;
      ConsDistinct(first, rest);
      if first.id == m.id {
        ConsDistinct(m, rest);
      } else {
        UpsertElements(rest, m);
        ConsDistinct(first, Upsert(rest, m));
      }
    }
  }

  // Delivered last of all messages with its id.
  predicate Latest(delivered: seq<Message>, m: Message) {
    exists k | 0 <= k < |delivered| :: delivered[k] == m && forall j | k < j < |delivered| :: delivered[j].id != m.id
  }

  lemma LatestSnoc(delivered: seq<Message>, x: Message, m: Message)
    ensures Latest(delivered + [x], m) <==> m == x || (m.id != x.id && Latest(delivered, m))
  {
    var all := delivered + [x];
    assert all[|delivered|] == x;
    if m.id != x.id {
      if k :| 0 <= k < |delivered| && delivered[k] == m && forall j | k < j < |delivered| :: delivered[j].id != m.id {
        assert all[k] == m && forall j | k < j < |delivered| :: all[j] == delivered[j];
      }
      if k :| 0 <= k < |all| && all[k] == m && forall j | k < j < |all| :: all[j].id != m.id {
        assert delivered[k] == m && forall j | k < j < |delivered| :: delivered[j] == all[j];
      }
    }
  }

  // The list is what was delivered last for each id.
  ghost predicate Shows(messages: seq<Message>, delivered: seq<Message>) {
    DistinctIds(messages) && forall m :: m in messages <==> Latest(delivered, m)
  }

  lemma {:induction false} UpsertAllShows(messages: seq<Message>, delivered: seq<Message>, incoming: seq<Message>)
    requires Shows(messages, delivered)
    ensures Shows(UpsertAll(messages, incoming), delivered + incoming)
  {
    if incoming == [] {
      assert delivered + incoming == delivered;
    } else {
      var front, last := incoming[..|incoming| - 1], incoming[|incoming| - 1];
      UpsertAllShows(messages, delivered, front);
      UpsertElements(UpsertAll(messages, front), last);
      assert delivered + incoming == delivered + front + [last];
      forall m ensures m in UpsertAll(messages, incoming) <==> Latest(delivered + incoming, m) {
        LatestSnoc(delivered + front, last, m);
      }
    }
  }

  lemma {:induction false} DistinctShows(messages: seq<Message>)
    requires DistinctIds(messages)
    ensures Shows(messages, messages)
  {
    forall m ensures m in messages <==> Latest(messages, m) {
      if m in messages {
        var k :| 0 <= k < |messages| && messages[k] == m;
      }
    }
  }

  lemma SortKeepsElements(all: seq<Message>)
    requires Distinct(all)
    ensures forall m :: m in Sort(all) <==> m in all
  {
    SortExact(all);
    forall m ensures m in Sort(all) <==> m in all {
      assert m in multiset(Sort(all)) <==> m in multiset(all);
    }
  }

  // A checked page merges into a checked list exactly when it shares no sequence with a message
  // that it does not replace; then it replaces those with its ids and the rest stays.
  predicate Fits(current: seq<Message>, page: seq<Message>) {
    forall m, n | m in current && n in page && m.sequence == n.sequence :: m.id in IdsOf(page)
  }

  lemma MergeExact(current: seq<Message>, page: seq<Message>, session: string)
    requires Ordered(current, session) && OfSession(page, session) && Distinct(page)
    ensures var o := Merged(current, page, session);
            && (o.Messages? <==> Fits(current, page))
            && (o.Messages? ==> forall m :: m in o.messages <==> m in page || (m in current && m.id !in IdsOf(page)))
  {
    var all := UpsertAll(current, page);
    UpsertAllElements(current, page);
    FaultExact(all, session);
    MergeFits(current, page, session);
    if Distinct(all) { SortKeepsElements(all); }
  }

  lemma {:induction false} UpsertAllElements(messages: seq<Message>, incoming: seq<Message>)
    requires DistinctIds(messages) && DistinctIds(incoming)
    ensures DistinctIds(UpsertAll(messages, incoming))
    ensures forall m :: m in UpsertAll(messages, incoming) <==> m in incoming || (m in messages && m.id !in IdsOf(incoming))
  {
    if incoming != [] {
      var front, last := incoming[..|incoming| - 1], incoming[|incoming| - 1];
      assert incoming == front + [last];
      UpsertAllElements(messages, front);
      UpsertElements(UpsertAll(messages, front), last);
      SeenSnoc(front, last);
      forall m | m in front ensures m.id != last.id {
        var k :| 0 <= k < |front| && front[k] == m;
        assert incoming[k] == m;
      }
    }
  }

  lemma SameSequence(messages: seq<Message>, m: Message, n: Message)
    requires Distinct(messages) && m in messages && n in messages && m.sequence == n.sequence
    ensures m == n
  {
    var i :| 0 <= i < |messages| && messages[i] == m;
    var j :| 0 <= j < |messages| && messages[j] == n;
    assert i == j;
  }

  lemma MergeFits(current: seq<Message>, page: seq<Message>, session: string)
    requires Ordered(current, session) && OfSession(page, session) && Distinct(page)
    ensures var all := UpsertAll(current, page); OfSession(all, session) && Distinct(all) <==> Fits(current, page)
  {
    var all := UpsertAll(current, page);
    UpsertAllElements(current, page);
    forall i | 0 <= i < |all| ensures all[i].session == session { assert all[i] in all; }
    if Distinct(all) {
      forall m, n | m in current && n in page && m.sequence == n.sequence ensures m.id in IdsOf(page) {
        assert n.id in IdsOf(page);
        if m.id !in IdsOf(page) { SameSequence(all, m, n); }
      }
    }
    if Fits(current, page) { FittingIsDistinct(current, page); }
  }

  lemma FittingIsDistinct(current: seq<Message>, page: seq<Message>)
    requires Distinct(current) && Distinct(page) && Fits(current, page)
    ensures Distinct(UpsertAll(current, page))
  {
    var all := UpsertAll(current, page);
    UpsertAllElements(current, page);
    forall i, j | 0 <= i < j < |all| ensures all[i].sequence != all[j].sequence {
      assert all[i] in all && all[j] in all && all[i].id != all[j].id;
      if all[i].sequence == all[j].sequence {
        if all[i] in page && all[j] in page { SameSequence(page, all[i], all[j]); }
        if all[i] in current && all[j] in current { SameSequence(current, all[i], all[j]); }
      }
    }
  }

  // ----- What a run shows -----

  // The messages of the pages that passed the check, since the list was last replaced or emptied.
  function Delivered(es: seq<Event>, session: string): seq<Message> {
    if es == [] then []
    else
      var before, e := Delivered(es[..|es| - 1], session), es[|es| - 1];
      match e
      case Clear => []
      case Snapshot(page) => var o := Asserted(page, session); if o.Messages? then o.messages else before
      case Merge(page) => var o := Asserted(page, session); if o.Messages? then before + o.messages else before
  }

  // An id always comes with the same sequence and a sequence with the same id; the content of a
  // message may change.
  predicate Consistent(delivered: seq<Message>) {
    forall i, j | 0 <= i < j < |delivered| :: delivered[i].id == delivered[j].id <==> delivered[i].sequence == delivered[j].sequence
  }

  lemma LatestIsDelivered(delivered: seq<Message>, m: Message)
    requires Latest(delivered, m)
    ensures m in delivered
  {
  }

  lemma ConsistentPair(delivered: seq<Message>, m: Message, n: Message)
    requires Consistent(delivered) && m in delivered && n in delivered
    ensures m.id == n.id <==> m.sequence == n.sequence
  {
    var i :| 0 <= i < |delivered| && delivered[i] == m;
    var j :| 0 <= j < |delivered| && delivered[j] == n;
    assert i == j || i < j || j < i;
  }

  lemma ConsistentFits(current: seq<Message>, delivered: seq<Message>, page: seq<Message>)
    requires Shows(current, delivered) && Consistent(delivered + page)
    ensures Fits(current, page)
  {
    forall m, n | m in current && n in page && m.sequence == n.sequence ensures m.id in IdsOf(page) {
      LatestIsDelivered(delivered, m);
      ConsistentPair(delivered + page, m, n);
    }
  }

  // Of a consistent history a merge never fails, and the list shows exactly the last delivered
  // message of each id: of every page that passed the check, and of no other.
  lemma {:induction false} StoreShowsLatest(es: seq<Event>, session: string)
    requires Consistent(Delivered(es, session))
    ensures Shows(Run(es, session), Delivered(es, session))
  {
    if es != [] {
      var front, e := es[..|es| - 1], es[|es| - 1];
      if e.Clear? {
      } else if Asserted(e.page, session).Rejected? {
        StoreShowsLatest(front, session);
      } else if e.Snapshot? {
        AssertedOrdered(e.page, session);
        DistinctShows(Asserted(e.page, session).messages);
      } else {
        var page := Asserted(e.page, session).messages;
        ConsistentPrefix(Delivered(front, session), page);
        StoreShowsLatest(front, session);
        StoreStaysOrdered(front, session);
        AssertedOrdered(e.page, session);
        ConsistentFits(Run(front, session), Delivered(front, session), page);
        MergeShows(Run(front, session), Delivered(front, session), page, session);
      }
    }
  }

  lemma ConsistentPrefix(xs: seq<Message>, ys: seq<Message>)
    requires Consistent(xs + ys)
    ensures Consistent(xs)
  {
    var all := xs + ys;
    forall i, j | 0 <= i < j < |xs| ensures xs[i].id == xs[j].id <==> xs[i].sequence == xs[j].sequence {
      assert all[i] == xs[i] && all[j] == xs[j];
    }
  }

  lemma MergeShows(current: seq<Message>, delivered: seq<Message>, page: seq<Message>, session: string)
    requires Shows(current, delivered) && Ordered(current, session) && Ordered(page, session) && Fits(current, page)
    ensures var o := Merged(current, page, session); o.Messages? && Shows(o.messages, delivered + page)
  {
    var all := UpsertAll(current, page);
    MergeExact(current, page, session);
    UpsertAllShows(current, delivered, page);
    AssertedOrdered(all, session);
    FaultExact(all, session);
    SortKeepsElements(all);
  }

  // ----- Independence of arrival order -----

  lemma ElementsOfNone(messages: seq<Message>)
    ensures Elements(messages) == {} <==> messages == []
  {
    assert messages != [] ==> messages[0] in Elements(messages);
  }

  lemma LastIsGreatest(xs: seq<Message>)
    requires Ascending(xs) && xs != []
    ensures var last, front := xs[|xs| - 1], xs[..|xs| - 1];
            && last in Elements(xs) && Ascending(front) && Elements(front) == Elements(xs) - {last}
            && forall m | m in Elements(xs) :: m == last || m.sequence < last.sequence
  {
    var last, front := xs[|xs| - 1], xs[..|xs| - 1];
    assert xs == front + [last];
    forall m | m in front ensures m.sequence < last.sequence {
      var i :| 0 <= i < |front| && front[i] == m;
      assert xs[i] == m;
    }
  }

  // A set of messages has one ascending order.
  lemma {:induction false} AscendingIsUnique(xs: seq<Message>, ys: seq<Message>)
    requires Ascending(xs) && Ascending(ys) && Elements(xs) == Elements(ys)
    ensures xs == ys
  {
    ElementsOfNone(xs);
    ElementsOfNone(ys);
    if xs != [] {
      LastIsGreatest(xs);
      LastIsGreatest(ys);
      AscendingIsUnique(xs[..|xs| - 1], ys[..|ys| - 1]);
      assert xs == xs[..|xs| - 1] + [xs[|xs| - 1]] && ys == ys[..|ys| - 1] + [ys[|ys| - 1]];
    }
  }

  // A message without its content.
  function Bare(m: Message): Message {
    m.(text := "")
  }

  function Bares(messages: seq<Message>): seq<Message> {
    seq(|messages|, i requires 0 <= i < |messages| => Bare(messages[i]))
  }

  // The last message of an id that was delivered.
  lemma {:induction false} LastOf(delivered: seq<Message>, m: Message) returns (last: Message)
    requires m in delivered
    ensures Latest(delivered, last) && last.id == m.id
  {
    var front, x := delivered[..|delivered| - 1], delivered[|delivered| - 1];
    assert delivered == front + [x];
    if x.id == m.id {
      last := x;
    } else {
      last := LastOf(front, m);
    }
    LatestSnoc(front, x, last);
  }

  lemma BareElements(es: seq<Event>, session: string, m: Message)
    requires Consistent(Delivered(es, session))
    ensures m in Bares(Run(es, session)) <==> exists d | d in Delivered(es, session) :: Bare(d) == m
  {
    var list, delivered := Run(es, session), Delivered(es, session);
    StoreShowsLatest(es, session);
    StoreStaysOrdered(es, session);
    DeliveredIsOfSession(es, session);
    if m in Bares(list) {
      var i :| 0 <= i < |list| && Bares(list)[i] == m;
      assert list[i] in list;
      LatestIsDelivered(delivered, list[i]);
    }
    if d :| d in delivered && Bare(d) == m {
      var last := LastOf(delivered, d);
      LatestIsDelivered(delivered, last);
      ConsistentPair(delivered, d, last);
      assert last in list;
      var i :| 0 <= i < |list| && list[i] == last;
      assert Bares(list)[i] == m;
    }
  }

  lemma {:induction false} DeliveredIsOfSession(es: seq<Event>, session: string)
    ensures OfSession(Delivered(es, session), session)
  {
    if es != [] {
      DeliveredIsOfSession(es[..|es| - 1], session);
      var e := es[|es| - 1];
      if !e.Clear? { AssertedOrdered(e.page, session); }
    }
  }

  // The ids and sequences that a set of messages stands for.
  function Known(delivered: seq<Message>): set<(string, int)> {
    set m | m in delivered :: (m.id, m.sequence)
  }

  // Two consistent histories of the same ids and sequences, in whatever pages and order they came,
  // show the same ids and sequences in the same places; and the same list if their last messages
  // are the same.
  lemma ArrivalOrderIsIrrelevant(es: seq<Event>, fs: seq<Event>, session: string)
    requires Consistent(Delivered(es, session)) && Consistent(Delivered(fs, session))
    requires Known(Delivered(es, session)) == Known(Delivered(fs, session))
    ensures Bares(Run(es, session)) == Bares(Run(fs, session))
    ensures (forall m :: Latest(Delivered(es, session), m) <==> Latest(Delivered(fs, session), m)) ==>
              Run(es, session) == Run(fs, session)
  {
    var xs, ys := Run(es, session), Run(fs, session);
    StoreStaysOrdered(es, session);
    StoreStaysOrdered(fs, session);
    forall m ensures m in Elements(Bares(xs)) <==> m in Elements(Bares(ys)) {
      BareElements(es, session, m);
      BareElements(fs, session, m);
      SameBares(es, fs, session, m);
      SameBares(fs, es, session, m);
    }
    AscendingIsUnique(Bares(xs), Bares(ys));
    if forall m :: Latest(Delivered(es, session), m) <==> Latest(Delivered(fs, session), m) {
      StoreShowsLatest(es, session);
      StoreShowsLatest(fs, session);
      assert forall m :: m in Elements(xs) <==> m in Elements(ys);
      AscendingIsUnique(xs, ys);
    }
  }

  lemma SameBares(es: seq<Event>, fs: seq<Event>, session: string, m: Message)
    requires Known(Delivered(es, session)) == Known(Delivered(fs, session))
    ensures (exists d | d in Delivered(es, session) :: Bare(d) == m) ==> exists d | d in Delivered(fs, session) :: Bare(d) == m
  {
    DeliveredIsOfSession(es, session);
    DeliveredIsOfSession(fs, session);
    if d :| d in Delivered(es, session) && Bare(d) == m {
      assert (d.id, d.sequence) in Known(Delivered(fs, session));
      var f :| f in Delivered(fs, session) && (f.id, f.sequence) == (d.id, d.sequence);
      assert Bare(f) == m;
    }
  }

  // Receiving a page twice is receiving it once.
  lemma MergeIsIdempotent(current: seq<Message>, page: seq<Message>, session: string)
    requires Ordered(current, session)
    ensures var once := Step(current, Merge(page), session); Step(once, Merge(page), session) == once
  {
    var o := Asserted(page, session);
    AssertedOrdered(page, session);
    if o.Messages? {
      MergeExact(current, o.messages, session);
      var m := Merged(current, o.messages, session);
      if m.Messages? {
        AssertedOrdered(UpsertAll(current, o.messages), session);
        AgainIsIdle(m.messages, o.messages, session);
      }
    }
  }

  lemma AgainIsIdle(current: seq<Message>, page: seq<Message>, session: string)
    requires Ordered(current, session) && Ordered(page, session) && forall m | m in page :: m in current
    ensures Merged(current, page, session) == Messages(current)
  {
    assert Fits(current, page) by {
      forall m, n | m in current && n in page && m.sequence == n.sequence ensures m.id in IdsOf(page) {
        SameSequence(current, m, n);
        assert n.id in IdsOf(page);
      }
    }
    MergeExact(current, page, session);
    AssertedOrdered(UpsertAll(current, page), session);
    var o := Merged(current, page, session);
    forall m ensures m in Elements(o.messages) <==> m in Elements(current) {
      if m in current && m.id in IdsOf(page) {
        var x :| x in page && x.id == m.id;
        SameId(current, m, x);
      }
    }
    AscendingIsUnique(o.messages, current);
  }

  lemma SameId(messages: seq<Message>, m: Message, n: Message)
    requires DistinctIds(messages) && m in messages && n in messages && m.id == n.id
    ensures m == n
  {
    var i :| 0 <= i < |messages| && messages[i] == m;
    var j :| 0 <= j < |messages| && messages[j] == n;
    assert i == j;
  }
}
