// The home page's decision cards: the attention items are ordered by urgency and the attention
// items of one delivery are folded into one card, in a single pass over two index maps.
module DecisionCards {
  import opened Options
  import StableSort

  // In the order their names collate.
  datatype Kind = Approval | Attention | Input

  datatype Urgency = Blocking | Pending | Expired | BindingInvalid

  // `idKey` is the place of the id in the locale's order; two ids may share one.
  datatype Item = Item(kind: Kind, id: string, idKey: int, urgency: Urgency, expiresAt: Option<int>,
                       deliveryId: Option<string>, title: string)

  // A card shows the fields of one item.
  datatype Card = Card(item: Item, actionDisabled: bool, attentionCount: Option<nat>)

  function Rank(urgency: Urgency): nat {
    match urgency
    case Blocking => 0
    case Pending => 1
    case Expired => 2
    case BindingInvalid => 3
  }

  function KindRank(kind: Kind): nat {
    match kind
    case Approval => 0
    case Attention => 1
    case Input => 2
  }

  predicate Disabled(item: Item) {
    item.urgency.Expired? || item.urgency.BindingInvalid?
  }

  // ----- Ordering -----

  // No expiry sorts after every expiry.
  predicate ExpiresBefore(a: Option<int>, b: Option<int>) {
    a.Some? && (b.None? || a.value < b.value)
  }

  predicate Less(a: Item, b: Item) {
    if a.urgency != b.urgency then Rank(a.urgency) < Rank(b.urgency)
    else if a.expiresAt != b.expiresAt then ExpiresBefore(a.expiresAt, b.expiresAt)
    else if a.kind != b.kind then KindRank(a.kind) < KindRank(b.kind)
    else a.idKey < b.idKey
  }

  function Ordered(items: seq<Item>): seq<Item> {
    StableSort.Sort(Less, items)
  }

  lemma LessIsOrder()
    ensures StableSort.Order(Less)
  {
  }

  // Ordering is a stable sort: a permutation in order that keeps the order of items that tie.
  lemma OrderedSorts(items: seq<Item>)
    ensures StableSort.Sorted(Less, Ordered(items)) && multiset(Ordered(items)) == multiset(items)
    ensures forall y :: StableSort.Ties(Less, Ordered(items), y) == StableSort.Ties(Less, items, y)
  {
    LessIsOrder();
    StableSort.SortExact(Less, items);
    forall y ensures StableSort.Ties(Less, Ordered(items), y) == StableSort.Ties(Less, items, y) {
      StableSort.SortIsStable(Less, items, y);
    }
  }

  // The order in which items come, spelled out: blocking ones, then pending, expired and unbound ones;
  // among these by expiry, with no expiry last; then approvals, attention items and inputs; then by id.
  predicate InPlace(a: Item, b: Item) {
    && (b.urgency == Blocking ==> a.urgency == Blocking)
    && (b.urgency == Pending ==> a.urgency in {Blocking, Pending})
    && (b.urgency == Expired ==> a.urgency != BindingInvalid)
    && (a.urgency == b.urgency ==>
          && (b.expiresAt.Some? ==> a.expiresAt.Some? && a.expiresAt.value <= b.expiresAt.value)
          && (a.expiresAt == b.expiresAt ==>
                && (b.kind == Approval ==> a.kind == Approval)
                && (b.kind == Attention ==> a.kind != Input)
                && (a.kind == b.kind ==> a.idKey <= b.idKey)))
  }

  lemma OrderedInPlace(items: seq<Item>, i: nat, j: nat)
    requires i < j < |Ordered(items)|
    ensures InPlace(Ordered(items)[i], Ordered(items)[j])
  {
    OrderedSorts(items);
    var a, b := Ordered(items)[i], Ordered(items)[j];
    assert !Less(b, a);
  }

  // ----- The reference: two passes -----

  // The delivery an item is folded under.
  function Group(item: Item): Option<string> {
    if item.kind.Attention? then item.deliveryId else None
  }

  function CountOf(items: seq<Item>, delivery: string): nat {
    if items == [] then 0
    else CountOf(items[..|items| - 1], delivery) + if Group(items[|items| - 1]) == Some(delivery) then 1 else 0
  }

  predicate AllDisabled(items: seq<Item>, delivery: string) {
    forall item | item in items && Group(item) == Some(delivery) :: Disabled(item)
  }

  // An item has a card of its own or is the first of its delivery.
  predicate Leads(items: seq<Item>, k: nat)
    requires k < |items|
  {
    Group(items[k]).None? || forall j | 0 <= j < k :: Group(items[j]) != Group(items[k])
  }

  function Leading(items: seq<Item>, n: nat): (r: seq<nat>)
    requires n <= |items|
    ensures forall i | 0 <= i < |r| :: r[i] < n
  {
    if n == 0 then [] else Leading(items, n - 1) + if Leads(items, n - 1) then [n - 1] else []
  }

  lemma {:induction false} LeadingExact(items: seq<Item>, n: nat)
    requires n <= |items|
    ensures forall i | 0 <= i < |Leading(items, n)| :: Leads(items, Leading(items, n)[i])
    ensures forall i, j | 0 <= i < j < |Leading(items, n)| :: Leading(items, n)[i] < Leading(items, n)[j]
    ensures forall k | 0 <= k < n && Leads(items, k) :: k in Leading(items, n)
  {
    if n > 0 { LeadingExact(items, n - 1); }
  }

  // The card of a leading item counts and sums up its whole delivery.
  function CardAt(items: seq<Item>, k: nat): Card
    requires k < |items|
  {
    match Group(items[k])
    case None => Card(items[k], Disabled(items[k]), None)
    case Some(d) => Card(items[k], AllDisabled(items, d), Some(CountOf(items, d)))
  }

  function Reference(items: seq<Item>): seq<Card> {
    var leading := Leading(items, |items|);
    seq(|leading|, i requires 0 <= i < |leading| => CardAt(items, leading[i]))
  }

  // ----- One item more -----

  function Bump(card: Card, x: Item): Card {
    if card.attentionCount.Some? && Group(card.item) == Group(x)
    then card.(attentionCount := Some(card.attentionCount.value + 1), actionDisabled := card.actionDisabled && Disabled(x))
    else card
  }

  lemma CardGrows(items: seq<Item>, x: Item, k: nat)
    requires k < |items|
    ensures CardAt(items + [x], k) == Bump(CardAt(items, k), x)
  {
    var more := items + [x];
    assert more[..|items|] == items && more[k] == items[k];
    if Group(items[k]).Some? {
      var d := Group(items[k]).value;
      assert AllDisabled(more, d) <==> AllDisabled(items, d) && (Group(x) == Some(d) ==> Disabled(x));
    }
  }

  lemma {:induction false} LeadingGrows(items: seq<Item>, x: Item, n: nat)
    requires n <= |items|
    ensures Leading(items + [x], n) == Leading(items, n)
  {
    if n > 0 {
      LeadingGrows(items, x, n - 1);
      assert forall j | 0 <= j < |items| :: (items + [x])[j] == items[j];
    }
  }

  lemma ReferenceGrows(items: seq<Item>, x: Item)
    ensures var cards, more := Reference(items), Reference(items + [x]);
            && |more| == |cards| + (if Leads(items + [x], |items|) then 1 else 0)
            && (forall i | 0 <= i < |cards| :: more[i] == Bump(cards[i], x))
            && (Leads(items + [x], |items|) ==> more[|cards|] == CardAt(items + [x], |items|))
  {
    LeadingGrows(items, x, |items|);
    var leading := Leading(items, |items|);
    assert Leading(items + [x], |items| + 1) == leading + if Leads(items + [x], |items|) then [|items|] else [];
    forall i | 0 <= i < |leading| ensures Reference(items + [x])[i] == Bump(Reference(items)[i], x) {
      CardGrows(items, x, leading[i]);
    }
  }

  lemma {:induction false} CountedSomewhere(items: seq<Item>, delivery: string)
    ensures CountOf(items, delivery) > 0 <==> exists k | 0 <= k < |items| :: Group(items[k]) == Some(delivery)
  {
    if items != [] {
      var front := items[..|items| - 1];
      CountedSomewhere(front, delivery);
      if k :| 0 <= k < |items| && Group(items[k]) == Some(delivery) {
        assert k < |front| ==> front[k] == items[k];
      }
      if k :| 0 <= k < |front| && Group(front[k]) == Some(delivery) {
        assert items[k] == front[k];
      }
    }
  }

  // The loop's index entry of a delivery: the one card that stands for it.
  predicate Indexes(cards: seq<Card>, delivery: string, i: int) {
    && 0 <= i < |cards| && Group(cards[i].item) == Some(delivery) && cards[i].attentionCount.Some?
    && forall j | 0 <= j < |cards| && Group(cards[j].item) == Some(delivery) :: j == i
  }

  lemma LeaderIndexed(items: seq<Item>, delivery: string, i: nat)
    requires i < |Reference(items)| && Group(Reference(items)[i].item) == Some(delivery)
    ensures Indexes(Reference(items), delivery, i)
    ensures Reference(items)[i].attentionCount == Some(CountOf(items, delivery))
    ensures Reference(items)[i].actionDisabled <==> AllDisabled(items, delivery)
    ensures CountOf(items, delivery) > 0
  {
    var leading, cards := Leading(items, |items|), Reference(items);
    LeadingExact(items, |items|);
    CountedSomewhere(items, delivery);
    assert cards[i] == CardAt(items, leading[i]);
    forall j | 0 <= j < |cards| && Group(cards[j].item) == Some(delivery) ensures j == i {
      assert cards[j] == CardAt(items, leading[j]);
      assert Leads(items, leading[i]) && Leads(items, leading[j]);
    }
  }

  // A delivery has exactly one card when it has an attention item, and none when it has not.
  lemma OneCardPerDelivery(items: seq<Item>, delivery: string)
    ensures CountOf(items, delivery) > 0 <==> exists i :: Indexes(Reference(items), delivery, i)
  {
    var leading, cards := Leading(items, |items|), Reference(items);
    CountedSomewhere(items, delivery);
    if k :| 0 <= k < |items| && Group(items[k]) == Some(delivery) {
      var first := FirstOf(items, delivery, k);
      LeadingExact(items, |items|);
      var i :| 0 <= i < |leading| && leading[i] == first;
      assert cards[i] == CardAt(items, first);
      LeaderIndexed(items, delivery, i);
    }
    if i :| Indexes(cards, delivery, i) {
      LeaderIndexed(items, delivery, i);
    }
  }

  // The first item of a delivery.
  lemma {:induction false} FirstOf(items: seq<Item>, delivery: string, k: nat) returns (first: nat)
    requires k < |items| && Group(items[k]) == Some(delivery)
    ensures first <= k && Group(items[first]) == Some(delivery) && Leads(items, first)
  {
    if j :| 0 <= j < k && Group(items[j]) == Some(delivery) {
      first := FirstOf(items, delivery, j);
    } else {
      first := k;
    }
  }

  // ----- The single pass -----

  lemma SingleStep(items: seq<Item>, x: Item)
    requires Group(x).None?
    ensures Reference(items + [x]) == Reference(items) + [Card(x, Disabled(x), None)]
  {
    ReferenceGrows(items, x);
  }

  lemma FirstStep(items: seq<Item>, x: Item)
    requires Group(x).Some? && CountOf(items, Group(x).value) == 0
    ensures Reference(items + [x]) == Reference(items) + [Card(x, Disabled(x), Some(1))]
    ensures forall j | 0 <= j < |Reference(items)| :: Group(Reference(items)[j].item) != Group(x)
  {
    var d := Group(x).value;
    ReferenceGrows(items, x);
    CountedSomewhere(items, d);
    assert (items + [x])[..|items|] == items;
    assert Leads(items + [x], |items|);
    forall j | 0 <= j < |Reference(items)| ensures Group(Reference(items)[j].item) != Group(x) {
      if Group(Reference(items)[j].item) == Some(d) { LeaderIndexed(items, d, j); }
    }
  }

  lemma FurtherStep(items: seq<Item>, x: Item, i: nat)
    requires Group(x).Some? && Indexes(Reference(items), Group(x).value, i)
    ensures Reference(items + [x]) == Reference(items)[i := Bump(Reference(items)[i], x)]
  {
    ReferenceGrows(items, x);
    var k := Leading(items, |items|)[i];
    assert (items + [x])[k] == items[k];
    assert !Leads(items + [x], |items|);
  }

  // The two maps of the pass after some items.
  ghost predicate Counted(items: seq<Item>, counts: map<string, nat>) {
    forall d: string :: (d in counts <==> CountOf(items, d) > 0) && (d in counts ==> counts[d] == CountOf(items, d))
  }

  ghost predicate Indexed(items: seq<Item>, index: map<string, nat>) {
    forall d | d in index :: Indexes(Reference(items), d, index[d])
  }

  ghost predicate Tracked(items: seq<Item>, counts: map<string, nat>, index: map<string, nat>) {
    Counted(items, counts) && Indexed(items, index) && index.Keys == counts.Keys
  }

  lemma CountSnoc(items: seq<Item>, x: Item, delivery: string)
    ensures CountOf(items + [x], delivery) == CountOf(items, delivery) + if Group(x) == Some(delivery) then 1 else 0
  {
    assert (items + [x])[..|items|] == items;
  }

  lemma IndexStays(items: seq<Item>, x: Item, d: string, i: nat)
    requires Indexes(Reference(items), d, i)
    ensures Indexes(Reference(items + [x]), d, i)
  {
    ReferenceGrows(items, x);
    LeaderIndexed(items + [x], d, i);
  }

  lemma TrackedSingle(items: seq<Item>, x: Item, counts: map<string, nat>, index: map<string, nat>)
    requires Tracked(items, counts, index) && Group(x).None?
    ensures Tracked(items + [x], counts, index)
  {
    forall d: string ensures CountOf(items + [x], d) == CountOf(items, d) { CountSnoc(items, x, d); }
    forall d | d in index ensures Indexes(Reference(items + [x]), d, index[d]) { IndexStays(items, x, d, index[d]); }
  }

  lemma IndexedGroup(items: seq<Item>, x: Item, index: map<string, nat>, i: nat)
    requires Indexed(items, index) && Group(x).Some?
    requires Group(x).value in index ==> i == index[Group(x).value]
    requires Group(x).value !in index ==> i == |Reference(items)| && CountOf(items, Group(x).value) == 0
    ensures Indexed(items + [x], index[Group(x).value := i])
  {
    var own := Group(x).value;
    var next := index[own := i];
    forall d | d in next ensures Indexes(Reference(items + [x]), d, next[d]) {
      if d in index {
        IndexStays(items, x, d, index[d]);
      } else {
        FirstStep(items, x);
        LeaderIndexed(items + [x], d, i);
      }
    }
  }

  lemma TrackedGroup(items: seq<Item>, x: Item, counts: map<string, nat>, index: map<string, nat>, i: nat)
    requires Tracked(items, counts, index) && Group(x).Some?
    requires var own := Group(x).value; if own in index then i == index[own] else i == |Reference(items)|
    ensures var own := Group(x).value; Tracked(items + [x], counts[own := CountOf(items, own) + 1], index[own := i])
  {
    var own := Group(x).value;
    var next := counts[own := CountOf(items, own) + 1];
    IndexedGroup(items, x, index, i);
    forall d: string ensures (d in next <==> CountOf(items + [x], d) > 0) && (d in next ==> next[d] == CountOf(items + [x], d)) {
      CountSnoc(items, x, d);
    }
  }

  // One turn of the pass.
  method AddItem(ghost before: seq<Item>, item: Item, cards: seq<Card>, counts: map<string, nat>, index: map<string, nat>)
    returns (cards': seq<Card>, counts': map<string, nat>, index': map<string, nat>)
    requires cards == Reference(before) && Tracked(before, counts, index)
    ensures cards' == Reference(before + [item]) && Tracked(before + [item], counts', index')
  {
    cards', counts', index' := cards, counts, index;
    var card := Card(item, Disabled(item), None);
    if Group(item).None? {
      SingleStep(before, item);
      TrackedSingle(before, item, counts, index);
      cards' := cards + [card];
      return;
    }
    var delivery := Group(item).value;
    var count := (if delivery in counts then counts[delivery] else 0) + 1;
    counts' := counts[delivery := count];
    if delivery !in index {
      FirstStep(before, item);
      TrackedGroup(before, item, counts, index, |cards|);
      index' := index[delivery := |cards|];
      cards' := cards + [card.(attentionCount := Some(count))];
    } else {
      var existingIndex := index[delivery];
      var existing := cards[existingIndex];
      FurtherStep(before, item, existingIndex);
      LeaderIndexed(before, delivery, existingIndex);
      TrackedGroup(before, item, counts, index, existingIndex);
      assert index == index[delivery := existingIndex];
      cards' := cards[existingIndex := existing.(attentionCount := Some(count),
                                                 actionDisabled := existing.actionDisabled && card.actionDisabled)];
    }
  }

  // The pass over the ordered items builds the cards of the reference.
  method HomeDecisionCards(items: seq<Item>) returns (cards: seq<Card>)
    ensures cards == Reference(Ordered(items))
  {
    var ordered := Ordered(items);
    var attentionByDelivery: map<string, nat> := map[];
    var cardIndexByDelivery: map<string, nat> := map[];
    cards := [];
    for i := 0 to |ordered|
      invariant cards == Reference(ordered[..i])
      invariant Tracked(ordered[..i], attentionByDelivery, cardIndexByDelivery)
    {
      assert ordered[..i + 1] == ordered[..i] + [ordered[i]];
      cards, attentionByDelivery, cardIndexByDelivery :=
        AddItem(ordered[..i], ordered[i], cards, attentionByDelivery, cardIndexByDelivery);
    }
    assert ordered[..|ordered|] == ordered;
  }

  // ----- What the cards say about the items -----

  function Weight(card: Card): nat {
    if card.attentionCount.Some? then card.attentionCount.value else 1
  }

  function Total(cards: seq<Card>): nat {
    if cards == [] then 0 else Total(cards[..|cards| - 1]) + Weight(cards[|cards| - 1])
  }

  lemma {:induction false} TotalAfterUpdate(cards: seq<Card>, i: nat, card: Card)
    requires i < |cards|
    ensures Total(cards[i := card]) == Total(cards) - Weight(cards[i]) + Weight(card)
  {
    var n := |cards| - 1;
    if i < n {
      TotalAfterUpdate(cards[..n], i, card);
      assert cards[i := card][..n] == cards[..n][i := card];
    } else {
      assert cards[i := card][..n] == cards[..n];
    }
  }

  // Every item is counted by exactly one card.
  lemma {:induction false} EveryItemIsCounted(items: seq<Item>)
    ensures Total(Reference(items)) == |items|
  {
    if items != [] {
      var front, x := items[..|items| - 1], items[|items| - 1];
      EveryItemIsCounted(front);
      assert items == front + [x];
      var cards := Reference(front);
      if Group(x).None? {
        SingleStep(front, x);
        assert Reference(items)[..|cards|] == cards;
      } else if CountOf(front, Group(x).value) == 0 {
        FirstStep(front, x);
        assert Reference(items)[..|cards|] == cards;
      } else {
        OneCardPerDelivery(front, Group(x).value);
        var i :| Indexes(cards, Group(x).value, i);
        FurtherStep(front, x, i);
        TotalAfterUpdate(cards, i, Bump(cards[i], x));
      }
    }
  }

  lemma {:induction false} CountInserted(sorted: seq<Item>, x: Item, delivery: string)
    ensures CountOf(StableSort.Insert(Less, sorted, x), delivery) == CountOf(sorted, delivery) + if Group(x) == Some(delivery) then 1 else 0
  {
    if sorted != [] {
      var front, last := sorted[..|sorted| - 1], sorted[|sorted| - 1];
      if Less(x, last) {
        CountInserted(front, x, delivery);
        assert (StableSort.Insert(Less, front, x) + [last])[..|StableSort.Insert(Less, front, x)|] == StableSort.Insert(Less, front, x);
      } else {
        assert (sorted + [x])[..|sorted|] == sorted;
      }
    }
  }

  lemma {:induction false} CountOrdered(items: seq<Item>, delivery: string)
    ensures CountOf(Ordered(items), delivery) == CountOf(items, delivery) && |Ordered(items)| == |items|
  {
    OrderedSorts(items);
    assert |multiset(items)| == |items| && |multiset(Ordered(items))| == |Ordered(items)|;
    if items != [] {
      CountOrdered(items[..|items| - 1], delivery);
      CountInserted(Ordered(items[..|items| - 1]), items[|items| - 1], delivery);
    }
  }

  // In order, the first item of a delivery is disabled only when all of them are.
  lemma LeaderDecides(items: seq<Item>, k: nat)
    requires StableSort.Sorted(Less, items) && k < |items| && Group(items[k]).Some? && Leads(items, k)
    ensures AllDisabled(items, Group(items[k]).value) <==> Disabled(items[k])
    ensures forall item | item in items && Group(item) == Group(items[k]) :: !Less(item, items[k])
  {
    forall item | item in items && Group(item) == Group(items[k])
      ensures !Less(item, items[k]) && (Disabled(items[k]) ==> Disabled(item))
    {
      var j :| 0 <= j < |items| && items[j] == item;
      assert j >= k;
      assert j > k ==> !Less(items[j], items[k]);
    }
  }

  ghost predicate StandsFor(card: Card, items: seq<Item>, delivery: string) {
    && Group(card.item) == Some(delivery) && card.item in items
    && card.attentionCount == Some(CountOf(items, delivery))
    && (card.actionDisabled <==> AllDisabled(items, delivery))
    && (card.actionDisabled <==> Disabled(card.item))
    && forall item | item in items && Group(item) == Some(delivery) :: !Less(item, card.item)
  }

  lemma SameItems(items: seq<Item>, item: Item)
    ensures item in Ordered(items) <==> item in items
  {
    OrderedSorts(items);
    assert item in multiset(Ordered(items)) <==> item in multiset(items);
  }

  // A card either stands for every attention item of its delivery, shown by a most urgent one, or
  // for one item.
  lemma CardsStandForItems(items: seq<Item>, i: nat)
    requires i < |Reference(Ordered(items))|
    ensures var card := Reference(Ordered(items))[i];
            match Group(card.item)
            case Some(d) => StandsFor(card, items, d)
            case None => card == Card(card.item, Disabled(card.item), None) && card.item in items
  {
    var ordered := Ordered(items);
    var k := Leading(ordered, |ordered|)[i];
    OrderedSorts(items);
    LeadingExact(ordered, |ordered|);
    SameItems(items, ordered[k]);
    if Group(ordered[k]).Some? {
      var d := Group(ordered[k]).value;
      CountOrdered(items, d);
      LeaderDecides(ordered, k);
      forall item ensures item in ordered <==> item in items { SameItems(items, item); }
    }
  }

  // Only attention items of a delivery are folded: a card counts items exactly if it shows one, and any
  // other item has a card of its own, disabled exactly if it has expired or lost its binding.
  lemma CardsByKind(items: seq<Item>, i: nat)
    requires i < |Reference(Ordered(items))|
    ensures var card := Reference(Ordered(items))[i];
            && (card.attentionCount.Some? <==> card.item.kind == Attention && card.item.deliveryId.Some?)
            && (card.attentionCount.None? ==> (card.actionDisabled <==> card.item.urgency in {Expired, BindingInvalid}))
  {
  }

  lemma {:induction false} OwnCards(items: seq<Item>, n: nat, item: Item)
    requires n <= |items| && Group(item).None? && item in items[..n]
    ensures exists i | 0 <= i < |Leading(items, n)| :: items[Leading(items, n)[i]] == item
  {
    if items[n - 1] == item {
      assert Leading(items, n)[|Leading(items, n)| - 1] == n - 1;
    } else {
      OwnCards(items, n - 1, item);
      var i :| 0 <= i < |Leading(items, n - 1)| && items[Leading(items, n - 1)[i]] == item;
      assert Leading(items, n)[i] == Leading(items, n - 1)[i];
    }
  }

  lemma OthersHaveTheirCards(items: seq<Item>, item: Item)
    requires item in items && !(item.kind == Attention && item.deliveryId.Some?)
    ensures exists i | 0 <= i < |Reference(Ordered(items))| :: Reference(Ordered(items))[i].item == item
  {
    var ordered := Ordered(items);
    SameItems(items, item);
    assert ordered[..|ordered|] == ordered;
    OwnCards(ordered, |ordered|, item);
    var i :| 0 <= i < |Leading(ordered, |ordered|)| && ordered[Leading(ordered, |ordered|)[i]] == item;
    assert Reference(ordered)[i].item == item;
  }

  // The cards come in the order of their items.
  lemma CardsAreOrdered(items: seq<Item>, i: nat, j: nat)
    requires i < j < |Reference(Ordered(items))|
    ensures !Less(Reference(Ordered(items))[j].item, Reference(Ordered(items))[i].item)
  {
    OrderedSorts(items);
    LeadingExact(Ordered(items), |Ordered(items)|);
  }

  // The whole promise: nothing is lost, nothing is counted twice, one card per delivery.
  lemma CardsAreExact(items: seq<Item>, delivery: string)
    ensures Total(Reference(Ordered(items))) == |items|
    ensures CountOf(items, delivery) > 0 <==> exists i :: Indexes(Reference(Ordered(items)), delivery, i)
  {
    EveryItemIsCounted(Ordered(items));
    CountOrdered(items, delivery);
    OneCardPerDelivery(Ordered(items), delivery);
  }
}
