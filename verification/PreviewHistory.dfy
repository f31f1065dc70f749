// The preview's address bar: a current path between a back stack and a forward stack. The two
// stacks are a timeline with a cursor, cut at the cursor.
module PreviewHistorySpec {
  import opened Options

  datatype Navigation = Navigation(path: string, canGoBack: bool, canGoForward: bool, refused: bool)

  // The top of a stack is its last element.
  datatype State = State(navigation: Navigation, back: seq<string>, forward: seq<string>, closed: bool)

  datatype Event = Navigate(path: string) | Refresh | GoBack | GoForward | Close

  // ----- The check of a path -----

  // Percent-decoding of one segment; None where the original throws.
  type Decoder = string -> Option<string>

  const MAX_PATH: nat := 4096

  // Up to the query or the fragment.
  function PathPart(path: string): string {
    if path == "" || path[0] == '?' || path[0] == '#' then "" else [path[0]] + PathPart(path[1..])
  }

  // String.split at every slash.
  function Segments(s: string): (r: seq<string>)
    ensures r != []
  {
    if s == "" then [""]
    else if s[0] == '/' then [""] + Segments(s[1..])
    else var rest := Segments(s[1..]); [[s[0]] + rest[0]] + rest[1..]
  }

  predicate Control(c: char) {
    c as int < 0x20 || c as int == 0x7f
  }

  predicate SafeSegment(decode: Decoder, segment: string) {
    var decoded := decode(segment);
    decoded.Some? && decoded.value != "." && decoded.value != ".." && forall c | c in decoded.value :: !Control(c)
  }

  predicate IsSafe(decode: Decoder, path: string) {
    && path != "" && path[0] == '/' && !(|path| > 1 && path[1] == '/') && |path| <= MAX_PATH && '\\' !in path
    && forall segment | segment in Segments(PathPart(path)) :: SafeSegment(decode, segment)
  }

  lemma {:induction false} PathPartExact(path: string)
    ensures PathPart(path) <= path && '?' !in PathPart(path) && '#' !in PathPart(path)
    ensures var rest := path[|PathPart(path)|..]; rest == "" || rest[0] == '?' || rest[0] == '#'
  {
    if path != "" && path[0] != '?' && path[0] != '#' {
      PathPartExact(path[1..]);
      assert path == [path[0]] + path[1..];
      assert path[|PathPart(path)|..] == path[1..][|PathPart(path[1..])|..];
    }
  }

  lemma {:induction false} FirstSegment(segment: string, rest: string)
    requires '/' !in segment && (rest == "" || rest[0] == '/')
    ensures Segments(segment + rest)[0] == segment
  {
    if segment == "" {
      assert segment + rest == rest;
    } else {
      assert (segment + rest)[1..] == segment[1..] + rest;
      FirstSegment(segment[1..], rest);
    }
  }

  // Whatever stands behind a slash up to the next one is a segment.
  lemma {:induction false} PieceIsSegment(before: string, segment: string, rest: string)
    requires '/' !in segment && (rest == "" || rest[0] == '/')
    ensures segment in Segments(before + "/" + segment + rest)[1..]
  {
    var s := before + "/" + segment + rest;
    if before == "" {
      assert s[1..] == segment + rest;
      FirstSegment(segment, rest);
      assert Segments(s)[1..] == Segments(segment + rest);
    } else {
      var shorter := before[1..] + "/" + segment + rest;
      assert s[1..] == shorter && s[0] == before[0];
      PieceIsSegment(before[1..], segment, rest);
      assert Segments(s)[1..] == if s[0] == '/' then Segments(shorter) else Segments(shorter)[1..];
    }
  }

  // What a safe path cannot hold: a backslash, a second slash at its start, or, before its query and
  // fragment, a piece between slashes that decodes to a dot segment, to a control character, or not
  // at all.
  lemma SafePathHolds(decode: Decoder, path: string, before: string, segment: string, rest: string)
    requires IsSafe(decode, path) && PathPart(path) == before + "/" + segment + rest
    requires '/' !in segment && (rest == "" || rest[0] == '/')
    ensures '\\' !in path && path[0] == '/' && (|path| > 1 ==> path[1] != '/') && |path| <= 4096
    ensures DecodesWell(decode, segment)
  {
    PieceIsSegment(before, segment, rest);
    SafeDecodes(decode, segment);
  }

  // The segment decodes, to something that is no dot segment and has no control character.
  predicate DecodesWell(decode: Decoder, segment: string) {
    && decode(segment).Some? && decode(segment).value !in {".", ".."}
    && forall i | 0 <= i < |decode(segment).value| :: var c := decode(segment).value[i] as int; 32 <= c && c != 127
  }

  // The text between two slashes, or behind the last.
  ghost predicate Piece(s: string, before: string, segment: string, rest: string) {
    s == before + "/" + segment + rest && '/' !in segment && (rest == "" || rest[0] == '/')
  }

  // Every segment but the first is such a piece.
  lemma {:induction false} SegmentIsPiece(s: string, k: nat) returns (before: string, rest: string)
    requires 0 < k < |Segments(s)|
    ensures Piece(s, before, Segments(s)[k], rest)
  {
    if s[0] == '/' {
      assert s == "/" + s[1..];
      if k == 1 {
        before := "";
        rest := HeadOfSegments(s[1..]);
        assert Segments(s)[1] == Segments(s[1..])[0];
      } else {
        var b;
        b, rest := SegmentIsPiece(s[1..], k - 1);
        before := "/" + b;
        assert Segments(s)[k] == Segments(s[1..])[k - 1];
      }
    } else {
      var b;
      b, rest := SegmentIsPiece(s[1..], k);
      before := [s[0]] + b;
      assert s == [s[0]] + s[1..];
      assert Segments(s)[k] == Segments(s[1..])[k];
    }
  }

  lemma {:induction false} HeadOfSegments(s: string) returns (rest: string)
    ensures s == Segments(s)[0] + rest && '/' !in Segments(s)[0] && (rest == "" || rest[0] == '/')
  {
    if s == "" {
      rest := "";
    } else if s[0] == '/' {
      rest := s;
    } else {
      rest := HeadOfSegments(s[1..]);
      assert s == [s[0]] + s[1..];
    }
  }

  ghost predicate PiecesDecode(decode: Decoder, part: string) {
    forall before, segment, rest | Piece(part, before, segment, rest) :: DecodesWell(decode, segment)
  }

  lemma SegmentsDecode(decode: Decoder, part: string)
    requires decode("") == Some("") && part != "" && part[0] == '/'
    ensures (forall segment | segment in Segments(part) :: SafeSegment(decode, segment)) <==> PiecesDecode(decode, part)
  {
    forall segment ensures SafeSegment(decode, segment) <==> DecodesWell(decode, segment) { SafeDecodes(decode, segment); }
    forall before, segment, rest | Piece(part, before, segment, rest) ensures segment in Segments(part) {
      PieceIsSegment(before, segment, rest);
    }
    if PiecesDecode(decode, part) {
      forall segment | segment in Segments(part) ensures SafeSegment(decode, segment) {
        var k :| 0 <= k < |Segments(part)| && Segments(part)[k] == segment;
        if k > 0 { var before, rest := SegmentIsPiece(part, k); }
      }
    }
  }

  // A path is safe exactly if it starts with one slash, holds at most 4096 characters and no backslash,
  // and each piece before its query and fragment decodes well.
  lemma SafeExactly(decode: Decoder, path: string)
    requires decode("") == Some("")
    ensures IsSafe(decode, path) <==>
              && path != "" && path[0] == '/' && (|path| > 1 ==> path[1] != '/') && |path| <= 4096 && '\\' !in path
              && PiecesDecode(decode, PathPart(path))
  {
    if path != "" && path[0] == '/' { SegmentsDecode(decode, PathPart(path)); }
  }

  lemma SafeDecodes(decode: Decoder, segment: string)
    ensures SafeSegment(decode, segment) <==> DecodesWell(decode, segment)
  {
    if decode(segment).Some? {
      var decoded := decode(segment).value;
      assert forall i | 0 <= i < |decoded| :: decoded[i] in decoded;
      assert forall c: char :: Control(c) <==> !(32 <= c as int && c as int != 127);
    }
  }

  function Start(): State {
    State(Navigation("/", false, false, false), [], [], false)
  }

  function Navigated(decode: Decoder, s: State, path: string): State {
    if !IsSafe(decode, path) then s.(navigation := s.navigation.(refused := true))
    else if path == s.navigation.path then s
    else
      s.(navigation := Navigation(path, true, false, false), back := s.back + [s.navigation.path], forward := [])
  }

  function WentBack(s: State): State {
    if s.back == [] then s
    else
      var back := s.back[..|s.back| - 1];
      s.(navigation := Navigation(s.back[|s.back| - 1], |back| > 0, true, false),
         back := back, forward := s.forward + [s.navigation.path])
  }

  function WentForward(s: State): State {
    if s.forward == [] then s
    else
      var forward := s.forward[..|s.forward| - 1];
      s.(navigation := Navigation(s.forward[|s.forward| - 1], true, |forward| > 0, false),
         back := s.back + [s.navigation.path], forward := forward)
  }

  function Next(decode: Decoder, s: State, e: Event): State {
    if s.closed then s
    else
      match e
      case Navigate(path) => Navigated(decode, s, path)
      case Refresh => s.(navigation := s.navigation.(refused := false))
      case GoBack => WentBack(s)
      case GoForward => WentForward(s)
      case Close => s.(closed := true)
  }

  function Run(decode: Decoder, es: seq<Event>): State {
    if es == [] then Start() else Next(decode, Run(decode, es[..|es| - 1]), es[|es| - 1])
  }

  // ----- The timeline -----

  datatype Timeline = Timeline(entries: seq<string>, cursor: int, closed: bool)

  // A visit cuts off what lies after the cursor; going back and forward only moves the cursor.
  ghost function TimelineNext(decode: Decoder, t: Timeline, e: Event): Timeline
    requires 0 <= t.cursor < |t.entries|
  {
    if t.closed then t
    else
      match e
      case Navigate(path) =>
        if !IsSafe(decode, path) || path == t.entries[t.cursor] then t
        else t.(entries := t.entries[..t.cursor + 1] + [path], cursor := t.cursor + 1)
      case Refresh => t
      case GoBack => if t.cursor == 0 then t else t.(cursor := t.cursor - 1)
      case GoForward => if t.cursor == |t.entries| - 1 then t else t.(cursor := t.cursor + 1)
      case Close => t.(closed := true)
  }

  ghost function TimelineRun(decode: Decoder, es: seq<Event>): (t: Timeline)
    ensures 0 <= t.cursor < |t.entries|
  {
    if es == [] then Timeline(["/"], 0, false)
    else TimelineNext(decode, TimelineRun(decode, es[..|es| - 1]), es[|es| - 1])
  }

  function Reversed(s: seq<string>): (r: seq<string>)
    ensures |r| == |s|
  {
    if s == [] then [] else [s[|s| - 1]] + Reversed(s[..|s| - 1])
  }

  ghost function TimelineOf(s: State): (t: Timeline)
    ensures 0 <= t.cursor < |t.entries| && t.entries[t.cursor] == s.navigation.path
  {
    Timeline(s.back + [s.navigation.path] + Reversed(s.forward), |s.back|, s.closed)
  }

  lemma TimelineVisit(s: State, path: string)
    ensures TimelineOf(s).entries[..|s.back| + 1] == s.back + [s.navigation.path]
    ensures TimelineOf(State(Navigation(path, true, false, false), s.back + [s.navigation.path], [], s.closed))
            == Timeline(s.back + [s.navigation.path] + [path], |s.back| + 1, s.closed)
  {
    assert s.back + [s.navigation.path] + [path] + [] == s.back + [s.navigation.path] + [path];
  }

  lemma TimelineBack(s: State)
    requires s.back != []
    ensures TimelineOf(WentBack(s)) == TimelineOf(s).(cursor := |s.back| - 1)
  {
    var n, path := |s.back| - 1, s.navigation.path;
    assert (s.forward + [path])[..|s.forward|] == s.forward;
    assert Reversed(s.forward + [path]) == [path] + Reversed(s.forward);
    assert s.back == s.back[..n] + [s.back[n]];
    assert s.back[..n] + [s.back[n]] + ([path] + Reversed(s.forward)) == s.back + [path] + Reversed(s.forward);
  }

  lemma TimelineForward(s: State)
    requires s.forward != []
    ensures TimelineOf(WentForward(s)) == TimelineOf(s).(cursor := |s.back| + 1)
  {
    var n, path := |s.forward| - 1, s.navigation.path;
    assert Reversed(s.forward) == [s.forward[n]] + Reversed(s.forward[..n]);
    assert s.back + [path] + ([s.forward[n]] + Reversed(s.forward[..n]))
           == (s.back + [path]) + [s.forward[n]] + Reversed(s.forward[..n]);
  }

  lemma TimelineStep(decode: Decoder, s: State, e: Event)
    ensures TimelineOf(Next(decode, s, e)) == TimelineNext(decode, TimelineOf(s), e)
  {
    if !s.closed {
      match e
      case Navigate(path) => TimelineVisit(s, path);
      case GoBack => if s.back != [] { TimelineBack(s); }
      case GoForward => if s.forward != [] { TimelineForward(s); }
      case _ =>
    }
  }

  // In every run the two stacks are the timeline, and the address shown is the one at the cursor.
  lemma {:induction false} StacksAreTheTimeline(decode: Decoder, es: seq<Event>)
    ensures TimelineOf(Run(decode, es)) == TimelineRun(decode, es)
    ensures Run(decode, es).navigation.path == TimelineRun(decode, es).entries[TimelineRun(decode, es).cursor]
  {
    if es == [] {
      assert Reversed([]) == [];
    } else {
      StacksAreTheTimeline(decode, es[..|es| - 1]);
      TimelineStep(decode, Run(decode, es[..|es| - 1]), es[|es| - 1]);
    }
  }

  // In every run the two buttons are enabled exactly when the cursor can move.
  lemma {:induction false} ButtonsAreExact(decode: Decoder, es: seq<Event>)
    ensures var s, t := Run(decode, es), TimelineRun(decode, es);
            (s.navigation.canGoBack <==> t.cursor > 0) && (s.navigation.canGoForward <==> t.cursor < |t.entries| - 1)
  {
    StacksAreTheTimeline(decode, es);
    FlagsRun(decode, es);
    assert TimelineOf(Run(decode, es)) == TimelineRun(decode, es);
  }

  lemma {:induction false} FlagsRun(decode: Decoder, es: seq<Event>)
    ensures FlagsHold(Run(decode, es))
  {
    if es != [] {
      FlagsRun(decode, es[..|es| - 1]);
      FlagsStep(decode, Run(decode, es[..|es| - 1]), es[|es| - 1]);
    }
  }

  predicate FlagsHold(s: State) {
    (s.navigation.canGoBack <==> s.back != []) && (s.navigation.canGoForward <==> s.forward != [])
  }

  lemma FlagsStep(decode: Decoder, s: State, e: Event)
    requires FlagsHold(s)
    ensures FlagsHold(Next(decode, s, e))
  {
  }

  // ----- The notice -----

  // What an event of an open preview says of the notice that a path was refused, if anything: it comes
  // with an unsafe path and goes with a refresh or with any move.
  function SaysRefused(decode: Decoder, s: State, e: Event): Option<bool> {
    match e
    case Navigate(path) => if !IsSafe(decode, path) then Some(true) else if path != s.navigation.path then Some(false) else None
    case Refresh => Some(false)
    case GoBack => if s.back != [] then Some(false) else None
    case GoForward => if s.forward != [] then Some(false) else None
    case Close => None
  }

  function LastRefused(decode: Decoder, es: seq<Event>): bool {
    if es == [] then false
    else
      var s := Run(decode, es[..|es| - 1]);
      var said := SaysRefused(decode, s, es[|es| - 1]);
      if !s.closed && said.Some? then said.value else LastRefused(decode, es[..|es| - 1])
  }

  lemma {:induction false} NoticeTellsLast(decode: Decoder, es: seq<Event>)
    ensures Run(decode, es).navigation.refused == LastRefused(decode, es)
  {
    if es != [] {
      NoticeTellsLast(decode, es[..|es| - 1]);
      if !Run(decode, es[..|es| - 1]).closed { NoticeStep(decode, Run(decode, es[..|es| - 1]), es[|es| - 1]); }
    }
  }

  lemma NoticeStep(decode: Decoder, s: State, e: Event)
    requires !s.closed
    ensures Next(decode, s, e).navigation.refused
            == var said := SaysRefused(decode, s, e); if said.Some? then said.value else s.navigation.refused
  {
  }

  // Each address passed the check, and no two neighbours are the same.
  ghost predicate Clean(decode: Decoder, entries: seq<string>) {
    && (forall i | 0 <= i < |entries| :: IsSafe(decode, entries[i]))
    && forall i, j | 0 <= i < |entries| && j == i + 1 < |entries| :: entries[i] != entries[j]
  }

  lemma StartIsSafe(decode: Decoder)
    requires decode("") == Some("")
    ensures IsSafe(decode, "/")
  {
    assert PathPart("/") == "/" by { assert "/"[1..] == ""; }
    assert Segments("/") == ["", ""] by { assert "/"[1..] == ""; }
  }

  lemma {:induction false} TimelineIsClean(decode: Decoder, es: seq<Event>)
    requires decode("") == Some("")
    ensures Clean(decode, TimelineRun(decode, es).entries)
  {
    if es == [] {
      StartIsSafe(decode);
    } else {
      TimelineIsClean(decode, es[..|es| - 1]);
      var before, t := TimelineRun(decode, es[..|es| - 1]), TimelineRun(decode, es);
      assert t == TimelineNext(decode, before, es[|es| - 1]);
      assert t.entries != before.entries ==> t.entries == before.entries[..before.cursor + 1] + [t.entries[t.cursor]];
    }
  }

  function Settled(s: State): State {
    s.(navigation := s.navigation.(refused := false))
  }

  lemma BackThenForward(s: State)
    requires s.back != [] && s.navigation.canGoBack && (s.navigation.canGoForward <==> s.forward != [])
    ensures WentForward(WentBack(s)) == Settled(s)
  {
    var n, path := |s.back| - 1, s.navigation.path;
    assert s.back[..n] + [s.back[n]] == s.back;
    assert (s.forward + [path])[..|s.forward|] == s.forward;
  }

  lemma ForwardThenBack(s: State)
    requires s.forward != [] && s.navigation.canGoForward && (s.navigation.canGoBack <==> s.back != [])
    ensures WentBack(WentForward(s)) == Settled(s)
  {
    var n, path := |s.forward| - 1, s.navigation.path;
    assert s.forward[..n] + [s.forward[n]] == s.forward;
    assert (s.back + [path])[..|s.back|] == s.back;
  }

  // In every run back and then forward, or forward and then back, returns to the same place with
  // the same stacks; only a refusal notice is gone.
  lemma ThereAndBack(decode: Decoder, es: seq<Event>)
    ensures Run(decode, es).back != [] ==> WentForward(WentBack(Run(decode, es))) == Settled(Run(decode, es))
    ensures Run(decode, es).forward != [] ==> WentBack(WentForward(Run(decode, es))) == Settled(Run(decode, es))
  {
    FlagsRun(decode, es);
    if Run(decode, es).back != [] { BackThenForward(Run(decode, es)); }
    if Run(decode, es).forward != [] { ForwardThenBack(Run(decode, es)); }
  }
}

module PreviewHistoryObject {
  import opened Options
  import opened PreviewHistorySpec

  class PreviewNavigation {
    const decode: Decoder
    var navigation: Navigation
    var backStack: seq<string>
    var forwardStack: seq<string>
    var closed: bool

    ghost function View(): State
      reads this
    {
      State(navigation, backStack, forwardStack, closed)
    }

    constructor (decode: Decoder)
      ensures View() == Start() && this.decode == decode
    {
      this.decode := decode;
      navigation, backStack, forwardStack, closed := Navigation("/", false, false, false), [], [], false;
    }

    method NavigateTo(path: string)
      modifies this
      ensures View() == Next(decode, old(View()), Navigate(path))
    {
      if closed { return; }
      if !IsSafe(decode, path) {
        navigation := navigation.(refused := true);
        return;
      }
      if path == navigation.path { return; }
      backStack := backStack + [navigation.path];
      forwardStack := [];
      navigation := Navigation(path, |backStack| > 0, false, false);
    }

    method RefreshPage()
      modifies this
      ensures View() == Next(decode, old(View()), Refresh)
    {
      if closed { return; }
      navigation := navigation.(refused := false);
    }

    method Back()
      modifies this
      ensures View() == Next(decode, old(View()), GoBack)
    {
      if closed || |backStack| == 0 { return; }
      var previous := backStack[|backStack| - 1];
      backStack := backStack[..|backStack| - 1];
      forwardStack := forwardStack + [navigation.path];
      navigation := Navigation(previous, |backStack| > 0, true, false);
    }

    method Forward()
      modifies this
      ensures View() == Next(decode, old(View()), GoForward)
    {
      if closed || |forwardStack| == 0 { return; }
      var next := forwardStack[|forwardStack| - 1];
      forwardStack := forwardStack[..|forwardStack| - 1];
      backStack := backStack + [navigation.path];
      navigation := Navigation(next, true, |forwardStack| > 0, false);
    }
  }
}
