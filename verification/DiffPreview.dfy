// Reading a unified diff: which lines are content, and their numbers in the old and new file.
// Text prints edit scripts in the unified format; the round trip says that the reader recovers
// both files' lines and numbers from the print.
module DiffPreview {
  import opened Options

  datatype Kind = Added | Removed | Context | Hunk | Meta

  datatype DiffLine = DiffLine(kind: Kind, text: string, before: Option<nat>, after: Option<nat>)

  // ----- Text -----

  function Split(s: string): (r: seq<string>)
    ensures |r| >= 1
  {
    if s == "" then [""]
    else if s[0] == '\n' then [""] + Split(s[1..])
    else
      var rest := Split(s[1..]);
      [[s[0]] + rest[0]] + rest[1..]
  }

  // Split at newlines; an empty last piece is dropped.
  function Lines(source: string): seq<string> {
    var pieces := Split(source);
    if pieces[|pieces| - 1] == "" then pieces[..|pieces| - 1] else pieces
  }

  predicate StartsWith(s: string, prefix: string) {
    prefix <= s
  }

  predicate IsDigit(c: char) {
    '0' <= c <= '9'
  }

  function DigitValue(c: char): nat
    requires IsDigit(c)
  {
    c as nat - '0' as nat
  }

  function ReadDigits(s: string, value: nat): (nat, string)
    decreases |s|
  {
    if s == "" || !IsDigit(s[0]) then (value, s) else ReadDigits(s[1..], value * 10 + DigitValue(s[0]))
  }

  // `\d+` at the start of s: its value and the text behind it.
  function ReadNumber(s: string): Option<(nat, string)> {
    if s == "" || !IsDigit(s[0]) then None else Some(ReadDigits(s, 0))
  }

  // `(?:,\d+)?` at the start of s: the text behind it, or None if the match cannot go on.
  function SkipCount(s: string): Option<string> {
    if !StartsWith(s, ",") then Some(s)
    else match ReadNumber(s[1..])
      case Some(number) => Some(number.1)
      case None => None
  }

  function SkipText(s: string, text: string): Option<string> {
    if StartsWith(s, text) then Some(s[|text|..]) else None
  }

  // One side of a hunk header: a start, an optional count, and the text that must follow.
  function ReadSide(s: string, lead: string, tail: string): Option<(nat, string)> {
    match SkipText(s, lead)
    case None => None
    case Some(s1) =>
      match ReadNumber(s1)
      case None => None
      case Some(start) =>
        match SkipCount(start.1)
        case None => None
        case Some(s2) =>
          match SkipText(s2, tail)
          case None => None
          case Some(rest) => Some((start.0, rest))
  }

  // The starts of `@@ -a,b +c,d @@`, if the line is a hunk header.
  function ReadHunk(s: string): Option<(nat, nat)> {
    match ReadSide(s, "@@ -", " ")
    case None => None
    case Some(left) =>
      match ReadSide(left.1, "+", " @@")
      case None => None
      case Some(right) => Some((left.0, right.0))
  }

  // ----- The reader -----

  datatype Position = Position(before: Option<nat>, after: Option<nat>)

  predicate Inside(p: Position) {
    p.before.Some? && p.after.Some?
  }

  // Where the reader stands when it comes to classify the text.
  function Entered(p: Position, text: string): Position {
    if StartsWith(text, "diff ") then Position(None, None) else p
  }

  function Classified(p: Position, text: string): DiffLine {
    var q := Entered(p, text);
    if ReadHunk(text).Some? then DiffLine(Hunk, text, None, None)
    else if Inside(q) && StartsWith(text, "+") then DiffLine(Added, text, None, q.after)
    else if Inside(q) && StartsWith(text, "-") then DiffLine(Removed, text, q.before, None)
    else if Inside(q) && StartsWith(text, " ") then DiffLine(Context, text, q.before, q.after)
    else DiffLine(Meta, text, None, None)
  }

  function Bumped(n: Option<nat>, line: Option<nat>): Option<nat> {
    if n.Some? && line.Some? then Some(n.value + 1) else n
  }

  function Advanced(p: Position, text: string): Position {
    match ReadHunk(text)
    case Some(starts) => Position(Some(starts.0), Some(starts.1))
    case None =>
      var q, line := Entered(p, text), Classified(p, text);
      Position(Bumped(q.before, line.before), Bumped(q.after, line.after))
  }

  function Read(p: Position, lines: seq<string>): seq<DiffLine>
    decreases |lines|
  {
    if lines == [] then [] else [Classified(p, lines[0])] + Read(Advanced(p, lines[0]), lines[1..])
  }

  function Final(p: Position, lines: seq<string>): Position
    decreases |lines|
  {
    if lines == [] then p else Final(Advanced(p, lines[0]), lines[1..])
  }

  lemma ReadStep(p: Position, lines: seq<string>, i: nat)
    requires i < |lines|
    ensures Read(p, lines[i..]) == [Classified(p, lines[i])] + Read(Advanced(p, lines[i]), lines[i + 1..])
  {
    assert lines[i..][1..] == lines[i + 1..];
  }

  // What has been read of the lines so far, and where the reading stands.
  predicate ReadSoFar(done: seq<DiffLine>, p: Position, lines: seq<string>, i: nat) {
    i <= |lines| && done + Read(p, lines[i..]) == Read(NOWHERE, lines)
  }

  lemma ReadOn(done: seq<DiffLine>, p: Position, lines: seq<string>, i: nat)
    requires ReadSoFar(done, p, lines, i) && i < |lines|
    ensures ReadSoFar(done + [Classified(p, lines[i])], Advanced(p, lines[i]), lines, i + 1)
  {
    ReadStep(p, lines, i);
    assert done + Read(p, lines[i..]) == done + [Classified(p, lines[i])] + Read(Advanced(p, lines[i]), lines[i + 1..]);
  }

  const NOWHERE: Position := Position(None, None)

  // The step for one line, over the two counters.
  method ReadLine(text: string, before: Option<nat>, after: Option<nat>)
    returns (line: DiffLine, nextBefore: Option<nat>, nextAfter: Option<nat>)
    ensures line == Classified(Position(before, after), text)
    ensures Position(nextBefore, nextAfter) == Advanced(Position(before, after), text)
  {
    nextBefore, nextAfter := before, after;
    var hunk := ReadHunk(text);
    if hunk.Some? {
      return DiffLine(Hunk, text, None, None), Some(hunk.value.0), Some(hunk.value.1);
    }
    if StartsWith(text, "diff ") {
      nextBefore, nextAfter := None, None;
    }
    if nextBefore.Some? && nextAfter.Some? {
      var b, a := nextBefore.value, nextAfter.value;
      if StartsWith(text, "+") {
        return DiffLine(Added, text, None, Some(a)), Some(b), Some(a + 1);
      }
      if StartsWith(text, "-") {
        return DiffLine(Removed, text, Some(b), None), Some(b + 1), Some(a);
      }
      if StartsWith(text, " ") {
        return DiffLine(Context, text, Some(b), Some(a)), Some(b + 1), Some(a + 1);
      }
    }
    line := DiffLine(Meta, text, None, None);
  }

  method DiffLines(source: string) returns (result: seq<DiffLine>)
    ensures result == Read(NOWHERE, Lines(source))
  {
    var before: Option<nat>, after: Option<nat> := None, None;
    var lines := Split(source);
    if lines[|lines| - 1] == "" {
      lines := lines[..|lines| - 1];
    }
    result := [];
    for i := 0 to |lines|
      invariant ReadSoFar(result, Position(before, after), lines, i)
    {
      ReadOn(result, Position(before, after), lines, i);
      var line;
      line, before, after := ReadLine(lines[i], before, after);
      result := result + [line];
    }
  }

  // ----- Printing edit scripts -----

  datatype Op = Keep(text: string) | Add(text: string) | Delete(text: string) | NoNewline

  datatype HunkPrint = HunkPrint(oldStart: nat, oldCount: Option<nat>, newStart: nat, newCount: Option<nat>,
                                 heading: string, ops: seq<Op>)

  // One file's part of a diff: the `diff` command line, further header lines, and the hunks.
  datatype FilePrint = FilePrint(command: string, headers: seq<string>, hunks: seq<HunkPrint>)

  function Decimal(n: nat): string {
    if n < 10 then [(n + '0' as nat) as char] else Decimal(n / 10) + [(n % 10 + '0' as nat) as char]
  }

  function PrintedCount(count: Option<nat>): string {
    if count.Some? then "," + Decimal(count.value) else ""
  }

  function PrintedHeader(h: HunkPrint): string {
    "@@ -" + (Decimal(h.oldStart) + (PrintedCount(h.oldCount) + (" " + ("+" + (Decimal(h.newStart)
    + (PrintedCount(h.newCount) + (" @@" + h.heading)))))))
  }

  function PrintedOp(op: Op): string {
    match op
    case Keep(text) => " " + text
    case Add(text) => "+" + text
    case Delete(text) => "-" + text
    case NoNewline => "\\ No newline at end of file"
  }

  function PrintedOps(ops: seq<Op>): seq<string> {
    if ops == [] then [] else [PrintedOp(ops[0])] + PrintedOps(ops[1..])
  }

  function PrintedHunks(hunks: seq<HunkPrint>): seq<string> {
    if hunks == [] then [] else [PrintedHeader(hunks[0])] + PrintedOps(hunks[0].ops) + PrintedHunks(hunks[1..])
  }

  function PrintedFile(f: FilePrint): seq<string> {
    ["diff " + f.command] + f.headers + PrintedHunks(f.hunks)
  }

  function PrintedFiles(files: seq<FilePrint>): seq<string> {
    if files == [] then [] else PrintedFile(files[0]) + PrintedFiles(files[1..])
  }

  function Text(lines: seq<string>): string {
    if lines == [] then "" else lines[0] + "\n" + Text(lines[1..])
  }

  predicate OneLine(s: string) {
    '\n' !in s
  }

  predicate PrintableOp(op: Op) {
    op.NoNewline? || OneLine(op.text)
  }

  predicate PrintableHunk(h: HunkPrint) {
    OneLine(h.heading) && forall i | 0 <= i < |h.ops| :: PrintableOp(h.ops[i])
  }

  // Lines are newline-free and header lines are not hunk headers.
  predicate PrintableFile(f: FilePrint) {
    && OneLine(f.command)
    && (forall i | 0 <= i < |f.headers| :: OneLine(f.headers[i]) && ReadHunk(f.headers[i]).None?)
    && (forall i | 0 <= i < |f.hunks| :: PrintableHunk(f.hunks[i]))
  }

  predicate Printable(files: seq<FilePrint>) {
    forall i | 0 <= i < |files| :: PrintableFile(files[i])
  }

  // ----- What the reader should find -----

  function OldOf(op: Op): seq<string> {
    if op.Keep? || op.Delete? then [op.text] else []
  }

  function NewOf(op: Op): seq<string> {
    if op.Keep? || op.Add? then [op.text] else []
  }

  function OldSide(ops: seq<Op>): seq<string> {
    if ops == [] then [] else OldOf(ops[0]) + OldSide(ops[1..])
  }

  function NewSide(ops: seq<Op>): seq<string> {
    if ops == [] then [] else NewOf(ops[0]) + NewSide(ops[1..])
  }

  function Numbered(start: nat, texts: seq<string>): seq<(nat, string)>
    decreases |texts|
  {
    if texts == [] then [] else [(start, texts[0])] + Numbered(start + 1, texts[1..])
  }

  function KindOf(op: Op): Kind {
    match op
    case Keep(_) => Context
    case Add(_) => Added
    case Delete(_) => Removed
    case NoNewline => Meta
  }

  function KindsOfOps(ops: seq<Op>): seq<Kind> {
    if ops == [] then [] else [KindOf(ops[0])] + KindsOfOps(ops[1..])
  }

  function KindsOfHunks(hunks: seq<HunkPrint>): seq<Kind> {
    if hunks == [] then [] else [Hunk] + KindsOfOps(hunks[0].ops) + KindsOfHunks(hunks[1..])
  }

  function KindsOfFile(f: FilePrint): seq<Kind> {
    seq(1 + |f.headers|, _ => Meta) + KindsOfHunks(f.hunks)
  }

  function KindsOfFiles(files: seq<FilePrint>): seq<Kind> {
    if files == [] then [] else KindsOfFile(files[0]) + KindsOfFiles(files[1..])
  }

  function OldOfHunks(hunks: seq<HunkPrint>): seq<(nat, string)> {
    if hunks == [] then [] else Numbered(hunks[0].oldStart, OldSide(hunks[0].ops)) + OldOfHunks(hunks[1..])
  }

  function NewOfHunks(hunks: seq<HunkPrint>): seq<(nat, string)> {
    if hunks == [] then [] else Numbered(hunks[0].newStart, NewSide(hunks[0].ops)) + NewOfHunks(hunks[1..])
  }

  function OldOfFiles(files: seq<FilePrint>): seq<(nat, string)> {
    if files == [] then [] else OldOfHunks(files[0].hunks) + OldOfFiles(files[1..])
  }

  function NewOfFiles(files: seq<FilePrint>): seq<(nat, string)> {
    if files == [] then [] else NewOfHunks(files[0].hunks) + NewOfFiles(files[1..])
  }

  // ----- What the reader does find -----

  function Kinds(lines: seq<DiffLine>): seq<Kind> {
    seq(|lines|, i requires 0 <= i < |lines| => lines[i].kind)
  }

  function Body(line: DiffLine): string {
    if line.text == "" then "" else line.text[1..]
  }

  // The numbered lines of the old file, without their marker; likewise for the new file.
  function FoundOld(lines: seq<DiffLine>): seq<(nat, string)> {
    if lines == [] then []
    else (if lines[0].before.Some? then [(lines[0].before.value, Body(lines[0]))] else []) + FoundOld(lines[1..])
  }

  function FoundNew(lines: seq<DiffLine>): seq<(nat, string)> {
    if lines == [] then []
    else (if lines[0].after.Some? then [(lines[0].after.value, Body(lines[0]))] else []) + FoundNew(lines[1..])
  }

  // ----- Proof of the round trip -----

  lemma {:induction false} ReadDecimal(n: nat, rest: string)
    ensures Decimal(n) != "" && IsDigit(Decimal(n)[0])
    ensures ReadDigits(Decimal(n) + rest, 0) == ReadDigits(rest, n)
  {
    var last := [(n % 10 + '0' as nat) as char];
    if n < 10 {
      assert (Decimal(n) + rest)[1..] == rest;
    } else {
      ReadDecimal(n / 10, last + rest);
      assert Decimal(n) + rest == Decimal(n / 10) + (last + rest);
      assert (last + rest)[1..] == rest;
    }
  }

  predicate NotDigit(s: string) {
    s == "" || !IsDigit(s[0])
  }

  lemma ReadPrinted(n: nat, rest: string)
    requires NotDigit(rest)
    ensures ReadNumber(Decimal(n) + rest) == Some((n, rest))
  {
    ReadDecimal(n, rest);
  }

  lemma SkipPrinted(count: Option<nat>, rest: string)
    requires NotDigit(rest) && !StartsWith(rest, ",")
    ensures SkipCount(PrintedCount(count) + rest) == Some(rest) && NotDigit(PrintedCount(count) + rest)
  {
    if count.Some? {
      ReadPrinted(count.value, rest);
      assert ("," + Decimal(count.value) + rest)[1..] == Decimal(count.value) + rest;
    } else {
      assert "" + rest == rest;
    }
  }

  lemma SidePrinted(lead: string, start: nat, count: Option<nat>, tail: string, rest: string)
    requires NotDigit(tail) && tail != "" && tail[0] != ','
    ensures ReadSide(lead + (Decimal(start) + (PrintedCount(count) + (tail + rest))), lead, tail) == Some((start, rest))
  {
    var s3 := tail + rest;
    var s2 := PrintedCount(count) + s3;
    var s1 := Decimal(start) + s2;
    SkipPrinted(count, s3);
    ReadPrinted(start, s2);
    assert (lead + s1)[|lead|..] == s1;
    assert s3[|tail|..] == rest;
  }

  lemma HeaderPrinted(h: HunkPrint)
    ensures ReadHunk(PrintedHeader(h)) == Some((h.oldStart, h.newStart))
  {
    var right := "+" + (Decimal(h.newStart) + (PrintedCount(h.newCount) + (" @@" + h.heading)));
    SidePrinted("+", h.newStart, h.newCount, " @@", h.heading);
    SidePrinted("@@ -", h.oldStart, h.oldCount, " ", right);
  }

  // Text and lines.

  lemma {:induction false} SplitLine(line: string, rest: string)
    requires OneLine(line)
    ensures Split(line + "\n" + rest) == [line] + Split(rest)
  {
    if line == "" {
      assert line + "\n" + rest == "\n" + rest;
      assert ("\n" + rest)[1..] == rest;
    } else {
      SplitLine(line[1..], rest);
      assert (line + "\n" + rest)[1..] == line[1..] + "\n" + rest;
      assert [line[0]] + line[1..] == line;
    }
  }

  lemma {:induction false} SplitText(lines: seq<string>)
    requires forall i | 0 <= i < |lines| :: OneLine(lines[i])
    ensures Split(Text(lines)) == lines + [""]
  {
    if lines != [] {
      SplitText(lines[1..]);
      SplitLine(lines[0], Text(lines[1..]));
      assert [lines[0]] + (lines[1..] + [""]) == lines + [""];
    }
  }

  // Reading in pieces.

  lemma {:induction false} ReadAppend(p: Position, xs: seq<string>, ys: seq<string>)
    ensures Read(p, xs + ys) == Read(p, xs) + Read(Final(p, xs), ys)
    ensures Final(p, xs + ys) == Final(Final(p, xs), ys)
    decreases |xs|
  {
    if xs == [] {
      assert xs + ys == ys;
    } else {
      assert (xs + ys)[1..] == xs[1..] + ys;
      ReadAppend(Advanced(p, xs[0]), xs[1..], ys);
    }
  }

  lemma FoundCons(line: DiffLine, rest: seq<DiffLine>)
    ensures FoundOld([line] + rest)
            == (if line.before.Some? then [(line.before.value, Body(line))] else []) + FoundOld(rest)
    ensures FoundNew([line] + rest)
            == (if line.after.Some? then [(line.after.value, Body(line))] else []) + FoundNew(rest)
  {
    assert ([line] + rest)[1..] == rest;
  }

  lemma {:induction false} FoundOldAppend(xs: seq<DiffLine>, ys: seq<DiffLine>)
    ensures FoundOld(xs + ys) == FoundOld(xs) + FoundOld(ys)
  {
    if xs == [] {
      assert xs + ys == ys;
    } else {
      var more := xs + ys;
      assert more[1..] == xs[1..] + ys;
      FoundOldAppend(xs[1..], ys);
    }
  }

  lemma {:induction false} FoundNewAppend(xs: seq<DiffLine>, ys: seq<DiffLine>)
    ensures FoundNew(xs + ys) == FoundNew(xs) + FoundNew(ys)
  {
    if xs == [] {
      assert xs + ys == ys;
    } else {
      var more := xs + ys;
      assert more[1..] == xs[1..] + ys;
      FoundNewAppend(xs[1..], ys);
    }
  }

  // The lines read are as expected: kinds, old lines and new lines.
  predicate Finds(lines: seq<DiffLine>, kinds: seq<Kind>, olds: seq<(nat, string)>, news: seq<(nat, string)>) {
    Kinds(lines) == kinds && FoundOld(lines) == olds && FoundNew(lines) == news
  }

  lemma FindsAppend(xs: seq<DiffLine>, kinds: seq<Kind>, olds: seq<(nat, string)>, news: seq<(nat, string)>,
                    ys: seq<DiffLine>, kinds': seq<Kind>, olds': seq<(nat, string)>, news': seq<(nat, string)>)
    requires Finds(xs, kinds, olds, news) && Finds(ys, kinds', olds', news')
    ensures Finds(xs + ys, kinds + kinds', olds + olds', news + news')
  {
    FoundOldAppend(xs, ys);
    FoundNewAppend(xs, ys);
    assert Kinds(xs + ys) == Kinds(xs) + Kinds(ys);
  }

  // One printed operation inside a hunk is read as what it is, whatever its text looks like.
  // The line an operation is read as, where the old file stands at `before` and the new at `after`.
  function OpLine(op: Op, before: nat, after: nat): DiffLine {
    DiffLine(KindOf(op), PrintedOp(op), if OldOf(op) == [] then None else Some(before), if NewOf(op) == [] then None else Some(after))
  }

  function OpLines(ops: seq<Op>, before: nat, after: nat): seq<DiffLine> {
    if ops == [] then []
    else [OpLine(ops[0], before, after)] + OpLines(ops[1..], before + |OldOf(ops[0])|, after + |NewOf(ops[0])|)
  }

  lemma OpRead(op: Op, before: nat, after: nat)
    ensures var p := Position(Some(before), Some(after));
            && Classified(p, PrintedOp(op)) == OpLine(op, before, after)
            && Advanced(p, PrintedOp(op)) == Position(Some(before + |OldOf(op)|), Some(after + |NewOf(op)|))
  {
    var text := PrintedOp(op);
    assert text[0] != '@' && text[0] != 'd';
    assert !StartsWith(text, "@@ -") && !StartsWith(text, "diff ") by {
      assert "@@ -"[0] == '@' && "diff "[0] == 'd';
    }
    assert ReadHunk(text).None?;
    if !op.NoNewline? {
      assert text[1..] == op.text;
    }
  }

  lemma NumberedCons(start: nat, text: string, rest: seq<string>)
    ensures Numbered(start, [text] + rest) == [(start, text)] + Numbered(start + 1, rest)
  {
    assert ([text] + rest)[1..] == rest;
  }

  predicate ReadsAs(before: nat, after: nat, texts: seq<string>, lines: seq<DiffLine>) {
    Read(Position(Some(before), Some(after)), texts) == lines
  }

  lemma {:induction false} OpsRead(ops: seq<Op>, before: nat, after: nat)
    ensures ReadsAs(before, after, PrintedOps(ops), OpLines(ops, before, after))
  {
    if ops != [] {
      var op, rest := ops[0], ops[1..];
      var b, a := before + |OldOf(op)|, after + |NewOf(op)|;
      OpsRead(rest, b, a);
      OpReadCons(op, before, after, PrintedOps(rest), OpLines(rest, b, a));
    }
  }

  lemma OpReadCons(op: Op, before: nat, after: nat, texts: seq<string>, lines: seq<DiffLine>)
    requires ReadsAs(before + |OldOf(op)|, after + |NewOf(op)|, texts, lines)
    ensures ReadsAs(before, after, [PrintedOp(op)] + texts, [OpLine(op, before, after)] + lines)
  {
    OpRead(op, before, after);
    ReadCons(Position(Some(before), Some(after)), PrintedOp(op), texts);
  }

  lemma ReadCons(p: Position, text: string, rest: seq<string>)
    ensures Read(p, [text] + rest) == [Classified(p, text)] + Read(Advanced(p, text), rest)
  {
    assert ([text] + rest)[1..] == rest;
  }

  lemma {:induction false} OpsFound(ops: seq<Op>, before: nat, after: nat)
    ensures Finds(OpLines(ops, before, after), KindsOfOps(ops), Numbered(before, OldSide(ops)), Numbered(after, NewSide(ops)))
  {
    if ops != [] {
      var op, rest := ops[0], ops[1..];
      var b, a := before + |OldOf(op)|, after + |NewOf(op)|;
      OpsFound(rest, b, a);
      OpFound(op, before, after, OpLines(rest, b, a));
      OpNumbered(op, before, after, OldSide(rest), NewSide(rest));
    }
  }

  lemma OpFound(op: Op, before: nat, after: nat, rest: seq<DiffLine>)
    ensures var lines := [OpLine(op, before, after)] + rest;
            && Kinds(lines) == [KindOf(op)] + Kinds(rest)
            && FoundOld(lines) == (if OldOf(op) == [] then [] else [(before, op.text)]) + FoundOld(rest)
            && FoundNew(lines) == (if NewOf(op) == [] then [] else [(after, op.text)]) + FoundNew(rest)
  {
    FoundCons(OpLine(op, before, after), rest);
    if !op.NoNewline? { assert PrintedOp(op)[1..] == op.text; }
  }

  lemma OpNumbered(op: Op, before: nat, after: nat, olds: seq<string>, news: seq<string>)
    ensures Numbered(before, OldOf(op) + olds)
            == (if OldOf(op) == [] then [] else [(before, op.text)]) + Numbered(before + |OldOf(op)|, olds)
    ensures Numbered(after, NewOf(op) + news)
            == (if NewOf(op) == [] then [] else [(after, op.text)]) + Numbered(after + |NewOf(op)|, news)
  {
    if OldOf(op) == [] { assert OldOf(op) + olds == olds; } else { NumberedCons(before, op.text, olds); }
    if NewOf(op) == [] { assert NewOf(op) + news == news; } else { NumberedCons(after, op.text, news); }
  }

  lemma FindsConcat(p: Position, xs: seq<string>, kinds: seq<Kind>, olds: seq<(nat, string)>, news: seq<(nat, string)>,
                    ys: seq<string>, kinds': seq<Kind>, olds': seq<(nat, string)>, news': seq<(nat, string)>)
    requires Finds(Read(p, xs), kinds, olds, news) && Finds(Read(Final(p, xs), ys), kinds', olds', news')
    ensures Finds(Read(p, xs + ys), kinds + kinds', olds + olds', news + news')
    ensures Final(p, xs + ys) == Final(Final(p, xs), ys)
  {
    ReadAppend(p, xs, ys);
    FindsAppend(Read(p, xs), kinds, olds, news, Read(Final(p, xs), ys), kinds', olds', news');
  }

  lemma LineRead(p: Position, text: string)
    ensures Read(p, [text]) == [Classified(p, text)] && Final(p, [text]) == Advanced(p, text)
  {
    assert [text][1..] == [];
  }

  lemma BareFinds(line: DiffLine)
    requires line.before.None? && line.after.None?
    ensures Finds([line], [line.kind], [], [])
  {
    assert [line][1..] == [];
  }

  lemma HunkRead(p: Position, h: HunkPrint)
    ensures Finds(Read(p, [PrintedHeader(h)] + PrintedOps(h.ops)), [Hunk] + KindsOfOps(h.ops),
                  Numbered(h.oldStart, OldSide(h.ops)), Numbered(h.newStart, NewSide(h.ops)))
  {
    var header := PrintedHeader(h);
    HeaderPrinted(h);
    LineRead(p, header);
    BareFinds(Classified(p, header));
    OpsRead(h.ops, h.oldStart, h.newStart);
    OpsFound(h.ops, h.oldStart, h.newStart);
    var olds, news := Numbered(h.oldStart, OldSide(h.ops)), Numbered(h.newStart, NewSide(h.ops));
    FindsConcat(p, [header], [Hunk], [], [], PrintedOps(h.ops), KindsOfOps(h.ops), olds, news);
    assert [] + olds == olds && [] + news == news;
  }

  lemma {:induction false} HunksRead(p: Position, hunks: seq<HunkPrint>)
    ensures Finds(Read(p, PrintedHunks(hunks)), KindsOfHunks(hunks), OldOfHunks(hunks), NewOfHunks(hunks))
    decreases |hunks|
  {
    if hunks != [] {
      var h, rest := hunks[0], hunks[1..];
      var lines := [PrintedHeader(h)] + PrintedOps(h.ops);
      HunkRead(p, h);
      HunksRead(Final(p, lines), rest);
      FindsConcat(p, lines, [Hunk] + KindsOfOps(h.ops),
                  Numbered(h.oldStart, OldSide(h.ops)), Numbered(h.newStart, NewSide(h.ops)),
                  PrintedHunks(rest), KindsOfHunks(rest), OldOfHunks(rest), NewOfHunks(rest));
    }
  }

  // Outside hunks every line that is no hunk header is read as meta.
  lemma {:induction false} HeadersRead(lines: seq<string>)
    requires forall i | 0 <= i < |lines| :: ReadHunk(lines[i]).None?
    ensures Finds(Read(NOWHERE, lines), seq(|lines|, _ => Meta), [], []) && Final(NOWHERE, lines) == NOWHERE
  {
    if lines != [] {
      HeadersRead(lines[1..]);
      LineRead(NOWHERE, lines[0]);
      BareFinds(Classified(NOWHERE, lines[0]));
      FindsConcat(NOWHERE, [lines[0]], [Meta], [], [], lines[1..], seq(|lines| - 1, _ => Meta), [], []);
      assert [lines[0]] + lines[1..] == lines;
      assert seq(|lines|, _ => Meta) == [Meta] + seq(|lines| - 1, _ => Meta);
    }
  }

  lemma CommandRead(p: Position, command: string)
    ensures Classified(p, "diff " + command) == DiffLine(Meta, "diff " + command, None, None)
    ensures Advanced(p, "diff " + command) == NOWHERE
  {
    var text := "diff " + command;
    assert text[0] == 'd';
    assert !StartsWith(text, "@@ -") by { assert "@@ -"[0] == '@'; }
    assert ReadHunk(text).None?;
  }

  lemma FileHeaderRead(p: Position, f: FilePrint)
    requires PrintableFile(f)
    ensures Finds(Read(p, ["diff " + f.command] + f.headers), seq(1 + |f.headers|, _ => Meta), [], [])
    ensures Final(p, ["diff " + f.command] + f.headers) == NOWHERE
  {
    var command := "diff " + f.command;
    CommandRead(p, f.command);
    LineRead(p, command);
    BareFinds(Classified(p, command));
    HeadersRead(f.headers);
    FindsConcat(p, [command], [Meta], [], [], f.headers, seq(|f.headers|, _ => Meta), [], []);
    assert seq(1 + |f.headers|, _ => Meta) == [Meta] + seq(|f.headers|, _ => Meta);
  }

  lemma FileRead(p: Position, f: FilePrint)
    requires PrintableFile(f)
    ensures Finds(Read(p, PrintedFile(f)), KindsOfFile(f), OldOfHunks(f.hunks), NewOfHunks(f.hunks))
  {
    FileHeaderRead(p, f);
    HunksRead(NOWHERE, f.hunks);
    FindsConcat(p, ["diff " + f.command] + f.headers, seq(1 + |f.headers|, _ => Meta), [], [],
                PrintedHunks(f.hunks), KindsOfHunks(f.hunks), OldOfHunks(f.hunks), NewOfHunks(f.hunks));
    assert [] + OldOfHunks(f.hunks) == OldOfHunks(f.hunks) && [] + NewOfHunks(f.hunks) == NewOfHunks(f.hunks);
  }

  lemma {:induction false} FilesRead(p: Position, files: seq<FilePrint>)
    requires Printable(files)
    ensures Finds(Read(p, PrintedFiles(files)), KindsOfFiles(files), OldOfFiles(files), NewOfFiles(files))
    decreases |files|
  {
    if files != [] {
      var f, rest := files[0], files[1..];
      FileRead(p, f);
      FilesRead(Final(p, PrintedFile(f)), rest);
      FindsConcat(p, PrintedFile(f), KindsOfFile(f), OldOfHunks(f.hunks), NewOfHunks(f.hunks),
                  PrintedFiles(rest), KindsOfFiles(rest), OldOfFiles(rest), NewOfFiles(rest));
    }
  }

  // Printed lines are lines.

  lemma {:induction false} DecimalOneLine(n: nat)
    ensures OneLine(Decimal(n))
  {
    if n >= 10 { DecimalOneLine(n / 10); }
  }

  lemma HeaderOneLine(h: HunkPrint)
    requires OneLine(h.heading)
    ensures OneLine(PrintedHeader(h))
  {
    DecimalOneLine(h.oldStart);
    DecimalOneLine(h.newStart);
    if h.oldCount.Some? { DecimalOneLine(h.oldCount.value); }
    if h.newCount.Some? { DecimalOneLine(h.newCount.value); }
  }

  predicate AllOneLine(lines: seq<string>) {
    forall i | 0 <= i < |lines| :: OneLine(lines[i])
  }

  lemma {:induction false} OpsOneLine(ops: seq<Op>)
    requires forall i | 0 <= i < |ops| :: PrintableOp(ops[i])
    ensures AllOneLine(PrintedOps(ops))
  {
    if ops != [] {
      OpsOneLine(ops[1..]);
      assert PrintableOp(ops[0]);
    }
  }

  lemma {:induction false} HunksOneLine(hunks: seq<HunkPrint>)
    requires forall i | 0 <= i < |hunks| :: PrintableHunk(hunks[i])
    ensures AllOneLine(PrintedHunks(hunks))
  {
    if hunks != [] {
      assert PrintableHunk(hunks[0]);
      HeaderOneLine(hunks[0]);
      OpsOneLine(hunks[0].ops);
      HunksOneLine(hunks[1..]);
    }
  }

  lemma {:induction false} FilesOneLine(files: seq<FilePrint>)
    requires Printable(files)
    ensures AllOneLine(PrintedFiles(files))
  {
    if files != [] {
      assert PrintableFile(files[0]);
      HunksOneLine(files[0].hunks);
      FilesOneLine(files[1..]);
    }
  }

  // Reading a printed diff gives back every line with its kind, and the old and new lines of every
  // hunk with consecutive numbers from the hunk's starts.
  lemma RoundTrip(files: seq<FilePrint>)
    requires Printable(files)
    ensures var lines := Lines(Text(PrintedFiles(files)));
            lines == PrintedFiles(files)
            && Finds(Read(NOWHERE, lines), KindsOfFiles(files), OldOfFiles(files), NewOfFiles(files))
  {
    FilesOneLine(files);
    SplitText(PrintedFiles(files));
    FilesRead(NOWHERE, files);
  }

  // ----- The changed range of two lines -----

  predicate SameStart(left: string, right: string, n: nat) {
    n <= |left| && n <= |right| && forall k | 0 <= k < n :: left[k] == right[k]
  }

  predicate SameEnd(left: string, right: string, n: nat) {
    n <= |left| && n <= |right| && forall k | |left| - n <= k < |left| :: left[k] == right[k + |right| - |left|]
  }

  // The part of `left` that differs from `right`: a longest common prefix and then a longest common
  // suffix of what remains are left out.
  method ChangedRange(left: string, right: string) returns (start: nat, end: nat)
    ensures start <= end <= |left| && start <= |right| - (|left| - end)
    ensures var rightEnd := |right| - (|left| - end);
            && right == left[..start] + right[start..rightEnd] + left[end..]
            && (start < |left| && start < |right| ==> left[start] != right[start])
            && (start < end && start < rightEnd ==> left[end - 1] != right[rightEnd - 1])
  {
    start := 0;
    while start < |left| && start < |right| && left[start] == right[start]
      invariant SameStart(left, right, start)
    {
      start := start + 1;
    }
    var tail := 0;
    while tail < |left| - start && tail < |right| - start && left[|left| - 1 - tail] == right[|right| - 1 - tail]
      invariant tail <= |left| - start && tail <= |right| - start && SameEnd(left, right, tail)
    {
      tail := tail + 1;
    }
    end := |left| - tail;
    CommonEnds(left, right, start, end);
  }

  lemma CommonEnds(left: string, right: string, start: nat, end: nat)
    requires start <= end <= |left| && start <= |right| - (|left| - end)
    requires SameStart(left, right, start) && SameEnd(left, right, |left| - end)
    ensures right == left[..start] + right[start..|right| - (|left| - end)] + left[end..]
  {
  }
}
