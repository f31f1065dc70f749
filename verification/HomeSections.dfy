// The home page's delivery sections: the cards are dealt out to seven sections by one loop, each
// section is filtered again, sorted by its own order and cut to a limit.
module HomeSections {
  import StableSort

  datatype Status =
    | Backlog | Ready | InProgress | Rework | WaitingDependency | WaitingHuman
    | CandidateReady | Validating | Failed | Cancelled | Done

  // `updatedKey` and `idKey` are the places of the update time and of the id in the locale's order.
  datatype Card = Card(id: string, idKey: int, status: Status, updatedKey: int, openAttention: int,
                       failedTasks: int, blockedTasks: int)

  datatype Section = BacklogSection | RunningSection | ReadySection | WaitingSection | ValidatingSection | FailedSection | CompletedSection

  const ALL: set<Section> := {BacklogSection, RunningSection, ReadySection, WaitingSection, ValidatingSection, FailedSection,
                              CompletedSection}

  predicate IsFailed(card: Card) {
    || card.status.Failed? || card.status.Cancelled? || card.status.WaitingDependency?
    || card.failedTasks > 0 || card.blockedTasks > 0
    || (card.status.WaitingHuman? && card.openAttention > 0)
  }

  function SectionOf(card: Card): Section {
    if IsFailed(card) then FailedSection
    else
      match card.status
      case Backlog => BacklogSection
      case InProgress => RunningSection
      case Rework => RunningSection
      case Ready => ReadySection
      case WaitingDependency => WaitingSection
      case WaitingHuman => WaitingSection
      case CandidateReady => ValidatingSection
      case Validating => ValidatingSection
      case _ => CompletedSection
  }

  // The newest first, and of two with one update time the later id.
  predicate Newer(a: Card, b: Card) {
    a.updatedKey > b.updatedKey || (a.updatedKey == b.updatedKey && a.idKey > b.idKey)
  }

  // More failed tasks first, then more blocked ones, then the newer.
  predicate Worse(a: Card, b: Card) {
    || a.failedTasks > b.failedTasks
    || (a.failedTasks == b.failedTasks && (a.blockedTasks > b.blockedTasks || (a.blockedTasks == b.blockedTasks && Newer(a, b))))
  }

  function Before(section: Section): (Card, Card) -> bool {
    if section.FailedSection? then Worse else Newer
  }

  // Array.filter, Array.sort (equal cards keep their order) and Array.slice from the start.
  function Filter(cards: seq<Card>, section: Section): seq<Card> {
    if cards == [] then []
    else Filter(cards[..|cards| - 1], section) + if SectionOf(cards[|cards| - 1]) == section then [cards[|cards| - 1]] else []
  }

  function OrderedSection(section: Section, cards: seq<Card>): seq<Card> {
    StableSort.Sort(Before(section), Filter(cards, section))
  }

  function Slice(cards: seq<Card>, limit: int): (r: seq<Card>)
    ensures r <= cards
    ensures |r| == if limit < 0 then (if |cards| + limit < 0 then 0 else |cards| + limit)
                   else if limit < |cards| then limit else |cards|
  {
    var end := if limit < 0 then |cards| + limit else limit;
    if end < 0 then [] else if end < |cards| then cards[..end] else cards
  }

  // ----- The page -----

  // The loop that deals the cards out.
  method Deal(cards: seq<Card>) returns (sections: map<Section, seq<Card>>)
    ensures sections.Keys == ALL && forall section | section in ALL :: sections[section] == Filter(cards, section)
  {
    sections := map section | section in ALL :: [];
    for i := 0 to |cards|
      invariant sections.Keys == ALL
      invariant forall section | section in ALL :: sections[section] == Filter(cards[..i], section)
    {
      var section := SectionOf(cards[i]);
      assert cards[..i + 1][..i] == cards[..i];
      sections := sections[section := sections[section] + [cards[i]]];
    }
    assert cards[..|cards|] == cards;
  }

  // The sections of the page in full and as far as they are shown.
  method Dashboard(cards: seq<Card>, limit: int) returns (ordered: map<Section, seq<Card>>, visible: map<Section, seq<Card>>)
    ensures ordered.Keys == visible.Keys == ALL
    ensures forall section | section in ALL ::
              ordered[section] == StableSort.Sort(Before(section), Filter(cards, section)) && visible[section] == Slice(ordered[section], limit)
  {
    var sections := Deal(cards);
    forall section ensures Filter(Filter(cards, section), section) == Filter(cards, section) { FilterTwice(cards, section); }
    ordered := map section | section in ALL :: OrderedSection(section, sections[section]);
    visible := map section | section in ALL :: Slice(ordered[section], limit);
  }

  // ----- What the sections hold -----

  lemma {:induction false} FilterExact(cards: seq<Card>, section: Section, card: Card)
    ensures card in Filter(cards, section) <==> card in cards && SectionOf(card) == section
  {
    if cards != [] {
      assert cards == cards[..|cards| - 1] + [cards[|cards| - 1]];
      FilterExact(cards[..|cards| - 1], section, card);
    }
  }

  // The filter inside each section is idle: the loop has already dealt the cards out.
  lemma {:induction false} FilterTwice(cards: seq<Card>, section: Section)
    ensures Filter(Filter(cards, section), section) == Filter(cards, section)
  {
    if cards != [] {
      var front, last := cards[..|cards| - 1], cards[|cards| - 1];
      FilterTwice(front, section);
      if SectionOf(last) == section {
        assert (Filter(front, section) + [last])[..|Filter(front, section)|] == Filter(front, section);
      } else {
        assert Filter(cards, section) == Filter(front, section);
      }
    }
  }

  lemma BeforeIsOrder(section: Section)
    ensures StableSort.Order(Before(section))
  {
  }

  lemma SortExact(section: Section, cards: seq<Card>)
    ensures var sorted := StableSort.Sort(Before(section), cards);
            StableSort.Sorted(Before(section), sorted) && multiset(sorted) == multiset(cards)
  {
    BeforeIsOrder(section);
    StableSort.SortExact(Before(section), cards);
  }

  // A section is sorted by its own order, keeps the order of cards that tie, and holds a card exactly
  // when it is the card's section.
  lemma SectionExact(section: Section, cards: seq<Card>, card: Card)
    ensures StableSort.Sorted(Before(section), OrderedSection(section, cards))
    ensures StableSort.Ties(Before(section), OrderedSection(section, cards), card)
            == StableSort.Ties(Before(section), Filter(cards, section), card)
    ensures card in OrderedSection(section, cards) <==> card in cards && SectionOf(card) == section
  {
    SortExact(section, Filter(cards, section));
    BeforeIsOrder(section);
    StableSort.SortIsStable(Before(section), Filter(cards, section), card);
    FilterExact(cards, section, card);
    assert card in multiset(OrderedSection(section, cards)) <==> card in multiset(Filter(cards, section));
  }

  function Counted(section: Section, cards: seq<Card>): multiset<Card> {
    multiset(OrderedSection(section, cards))
  }

  lemma {:induction false} FilterCount(cards: seq<Card>, section: Section, card: Card)
    ensures multiset(Filter(cards, section))[card] == if SectionOf(card) == section then multiset(cards)[card] else 0
  {
    if cards != [] {
      assert cards == cards[..|cards| - 1] + [cards[|cards| - 1]];
      FilterCount(cards[..|cards| - 1], section, card);
    }
  }

  lemma CountedExact(section: Section, cards: seq<Card>, card: Card)
    ensures Counted(section, cards)[card] == if SectionOf(card) == section then multiset(cards)[card] else 0
  {
    SortExact(section, Filter(cards, section));
    FilterCount(cards, section, card);
  }

  lemma SumAt(a: multiset<Card>, b: multiset<Card>, c: multiset<Card>, d: multiset<Card>, e: multiset<Card>,
              f: multiset<Card>, g: multiset<Card>, card: Card)
    ensures (a + b + c + d + e + f + g)[card] == a[card] + b[card] + c[card] + d[card] + e[card] + f[card] + g[card]
  {
  }

  function Together(cards: seq<Card>): multiset<Card> {
    Counted(BacklogSection, cards) + Counted(RunningSection, cards) + Counted(ReadySection, cards) + Counted(WaitingSection, cards)
    + Counted(ValidatingSection, cards) + Counted(FailedSection, cards) + Counted(CompletedSection, cards)
  }

  // A card is in the seven sections together as often as it is among the cards.
  lemma TogetherAt(cards: seq<Card>, card: Card)
    ensures Together(cards)[card] == multiset(cards)[card]
  {
    CountedExact(BacklogSection, cards, card);
    CountedExact(RunningSection, cards, card);
    CountedExact(ReadySection, cards, card);
    CountedExact(WaitingSection, cards, card);
    CountedExact(ValidatingSection, cards, card);
    CountedExact(FailedSection, cards, card);
    CountedExact(CompletedSection, cards, card);
    SumAt(Counted(BacklogSection, cards), Counted(RunningSection, cards), Counted(ReadySection, cards), Counted(WaitingSection, cards),
          Counted(ValidatingSection, cards), Counted(FailedSection, cards), Counted(CompletedSection, cards), card);
  }

  // The seven sections are a partition of the cards.
  lemma SectionsPartition(cards: seq<Card>)
    ensures Together(cards) == multiset(cards)
  {
    forall card ensures Together(cards)[card] == multiset(cards)[card] { TogetherAt(cards, card); }
  }

  // The newest card comes first, and of two with one update time the later id; in the failed section
  // more failed tasks come first, then more blocked ones, then the newer card.
  predicate InPlace(section: Section, a: Card, b: Card) {
    && (section != FailedSection || (a.failedTasks == b.failedTasks && a.blockedTasks == b.blockedTasks) ==>
          a.updatedKey >= b.updatedKey && (a.updatedKey == b.updatedKey ==> a.idKey >= b.idKey))
    && (section == FailedSection ==>
          a.failedTasks >= b.failedTasks && (a.failedTasks == b.failedTasks ==> a.blockedTasks >= b.blockedTasks))
  }

  lemma SectionInPlace(section: Section, cards: seq<Card>, i: nat, j: nat)
    requires i < j < |OrderedSection(section, cards)|
    ensures InPlace(section, OrderedSection(section, cards)[i], OrderedSection(section, cards)[j])
  {
    var sorted := OrderedSection(section, cards);
    SortExact(section, Filter(cards, section));
    assert !Before(section)(sorted[j], sorted[i]);
  }

  predicate Trouble(card: Card) {
    card.failedTasks > 0 || card.blockedTasks > 0
  }

  // Which cards each section holds, by status and tasks. Failed takes whatever has failed or blocked
  // tasks, and what waits for a dependency or for an open attention item.
  lemma SectionsByStatus(cards: seq<Card>, card: Card)
    ensures card in OrderedSection(BacklogSection, cards) <==> card in cards && card.status.Backlog? && !Trouble(card)
    ensures card in OrderedSection(RunningSection, cards) <==>
              card in cards && (card.status.InProgress? || card.status.Rework?) && !Trouble(card)
    ensures card in OrderedSection(ReadySection, cards) <==> card in cards && card.status.Ready? && !Trouble(card)
    ensures card in OrderedSection(ValidatingSection, cards) <==>
              card in cards && (card.status.CandidateReady? || card.status.Validating?) && !Trouble(card)
    ensures card in OrderedSection(CompletedSection, cards) <==> card in cards && card.status.Done? && !Trouble(card)
    ensures card in OrderedSection(FailedSection, cards) <==>
              && card in cards
              && (|| Trouble(card) || card.status.Failed? || card.status.Cancelled? || card.status.WaitingDependency?
                  || (card.status.WaitingHuman? && card.openAttention > 0))
  {
    SectionExact(BacklogSection, cards, card);
    SectionExact(RunningSection, cards, card);
    SectionExact(ReadySection, cards, card);
    SectionExact(ValidatingSection, cards, card);
    SectionExact(CompletedSection, cards, card);
    SectionExact(FailedSection, cards, card);
  }

  // What is left to wait is waiting for a human with nothing open: a waiting dependency counts as
  // failed, and so does anything with failed or blocked tasks.
  lemma WaitingExactly(cards: seq<Card>, card: Card)
    ensures card in OrderedSection(WaitingSection, cards) <==>
              card in cards && card.status.WaitingHuman? && card.openAttention <= 0 && card.failedTasks <= 0 && card.blockedTasks <= 0
  {
    SectionExact(WaitingSection, cards, card);
  }
}
