// The editable draft: a three-way merge of base, server and draft values.
// DraftSpec states what each operation does to the whole draft, field by field;
// the class in DraftObject does it with the source's loops and is proved equal to it.
module DraftSpec {
  import opened Options

  type Field = string
  type Values = map<Field, string>

  // `keys` lists the own keys of `values` in enumeration order.
  datatype Snapshot = Snapshot(scope: string, revision: int, keys: seq<Field>, values: Values)

  datatype Submission = Submission(scope: string, revision: int, values: Values)

  datatype Conflict = Conflict(field: Field, base: string, server: string, draft: string)

  datatype Policy = Policy(sensitive: bool, redacted: set<Field>)

  datatype Draft = Draft(
    scope: Option<string>,
    baseRevision: Option<int>,
    serverRevision: Option<int>,
    base: Values,
    server: Values,
    values: Values,
    dirty: set<Field>,
    conflicts: seq<Conflict>,
    revisionConflict: bool,
    submission: Option<Submission>)

  datatype Outcome = Success | Failure | Cancelled

  datatype Resolution = KeepDraft | UseServer

  // ----- Operations -----

  predicate Distinct(keys: seq<Field>) {
    forall i, j | 0 <= i < j < |keys| :: keys[i] != keys[j]
  }

  predicate WellFormed(s: Snapshot) {
    && Distinct(s.keys)
    && (forall k | k in s.keys :: k in s.values)
    && (forall k | k in s.values :: k in s.keys)
  }

  function Lookup(m: Values, f: Field): Option<string> {
    if f in m then Some(m[f]) else None
  }

  function Exposed(p: Policy, f: Field, v: Option<string>): string {
    if f in p.redacted then "[redacted]" else if v.Some? then v.value else ""
  }

  function Cleared(): Draft {
    Draft(None, None, None, map[], map[], map[], {}, [], false, None)
  }

  function Adopted(s: Snapshot): Draft {
    Draft(Some(s.scope), Some(s.revision), Some(s.revision), s.values, s.values, s.values, {}, [], false, None)
  }

  predicate Stale(d: Draft, s: Snapshot) {
    s.revision < if d.serverRevision.Some? then d.serverRevision.value else 0
  }

  // A dirty field stays dirty unless the snapshot carries the very value the user typed.
  function MergedDirty(d: Draft, s: Snapshot): set<Field> {
    set f | f in d.dirty && !(f in s.values && Lookup(d.values, f) == Some(s.values[f]))
  }

  // The snapshot's values for every field that ends up clean.
  function Taken(d: Draft, s: Snapshot): Values {
    map f | f in s.values && f !in MergedDirty(d, s) :: s.values[f]
  }

  predicate Contested(p: Policy, d: Draft, s: Snapshot, f: Field) {
    && f in MergedDirty(d, s)
    && (Lookup(d.base, f) != Lookup(s.values, f) || (p.sensitive && d.baseRevision != Some(s.revision)))
  }

  function Report(p: Policy, d: Draft, s: Snapshot, f: Field): Conflict {
    Conflict(f, Exposed(p, f, Lookup(d.base, f)), Exposed(p, f, Lookup(s.values, f)), Exposed(p, f, Lookup(d.values, f)))
  }

  // The conflicts among the first n keys of the snapshot, in key order.
  function Reports(p: Policy, d: Draft, s: Snapshot, n: nat): seq<Conflict>
    requires n <= |s.keys|
  {
    if n == 0 then []
    else Reports(p, d, s, n - 1) + if Contested(p, d, s, s.keys[n - 1]) then [Report(p, d, s, s.keys[n - 1])] else []
  }

  function Merged(p: Policy, d: Draft, s: Snapshot): Draft {
    var dirty := MergedDirty(d, s);
    var conflicts := Reports(p, d, s, |s.keys|);
    d.(serverRevision := Some(s.revision),
       server := s.values,
       values := d.values + Taken(d, s),
       dirty := dirty,
       conflicts := conflicts,
       revisionConflict := conflicts != [],
       baseRevision := if dirty == {} then Some(s.revision) else d.baseRevision,
       base := if dirty == {} then s.values else d.base + Taken(d, s))
  }

  function Synchronized(p: Policy, d: Draft, s: Snapshot): Draft {
    if d.scope != Some(s.scope) then Adopted(s)
    else if Stale(d, s) then d
    else Merged(p, d, s)
  }

  function Without(cs: seq<Conflict>, f: Field): seq<Conflict> {
    if cs == [] then []
    else Without(cs[..|cs| - 1], f) + if cs[|cs| - 1].field != f then [cs[|cs| - 1]] else []
  }

  predicate Editable(d: Draft) {
    d.scope.Some? && d.submission.None?
  }

  function Edited(d: Draft, f: Field, v: string): Draft {
    if !Editable(d) then d
    else
      var conflicts := Without(d.conflicts, f);
      d.(values := d.values[f := v],
         dirty := if Lookup(d.server, f) == Some(v) then d.dirty - {f} else d.dirty + {f},
         conflicts := conflicts,
         revisionConflict := conflicts != [])
  }

  predicate Submittable(d: Draft) {
    d.scope.Some? && d.serverRevision.Some? && d.submission.None? && !d.revisionConflict
  }

  function Begun(d: Draft): Draft {
    if Submittable(d)
    then d.(submission := Some(Submission(d.scope.value, d.serverRevision.value, d.values)))
    else d
  }

  function Finished(d: Draft, outcome: Outcome): Draft {
    if d.submission.None? then d
    else if outcome != Success then d.(submission := None)
    else d.(submission := None, baseRevision := d.serverRevision, base := d.server, values := d.server,
            dirty := {}, conflicts := [], revisionConflict := false)
  }

  // The fields whose draft value is not the server's.
  function Difference(d: Draft): set<Field> {
    set f | f in d.values && Lookup(d.server, f) != Some(d.values[f])
  }

  function Resolved(d: Draft, r: Resolution): Draft {
    if d.scope.None? || d.serverRevision.None? then d
    else
      var settled := d.(submission := None, base := d.server, baseRevision := d.serverRevision,
                        conflicts := [], revisionConflict := false);
      if r == UseServer then settled.(values := d.server, dirty := {}) else settled.(dirty := Difference(d))
  }

  // ----- Runs -----

  datatype Event =
    | Sync(snapshot: Snapshot)
    | Drop // synchronize(null) and reset()
    | Edit(field: Field, value: string)
    | Begin
    | Finish(outcome: Outcome)
    | Resolve(resolution: Resolution)

  function Step(p: Policy, d: Draft, e: Event): Draft {
    match e
    case Sync(s) => Synchronized(p, d, s)
    case Drop => Cleared()
    case Edit(f, v) => Edited(d, f, v)
    case Begin => Begun(d)
    case Finish(o) => Finished(d, o)
    case Resolve(r) => Resolved(d, r)
  }

  function Run(p: Policy, es: seq<Event>): Draft {
    if es == [] then Cleared() else Step(p, Run(p, es[..|es| - 1]), es[|es| - 1])
  }

  // The record type fixes one field set for every snapshot and every edit.
  predicate Typed(fields: set<Field>, e: Event) {
    match e
    case Sync(s) => WellFormed(s) && s.values.Keys == fields
    case Edit(f, _) => f in fields
    case _ => true
  }

  predicate TypedRun(fields: set<Field>, es: seq<Event>) {
    forall e | e in es :: Typed(fields, e)
  }

  // ----- The invariant of every reachable draft -----

  predicate Named(cs: seq<Conflict>, f: Field) {
    exists i | 0 <= i < |cs| :: cs[i].field == f
  }

  predicate NamesDistinct(cs: seq<Conflict>) {
    forall i, j | 0 <= i < j < |cs| :: cs[i].field != cs[j].field
  }

  // Each conflict is about a dirty field and shows its current base, server and draft values.
  predicate Truthful(p: Policy, d: Draft, c: Conflict) {
    && c.field in d.dirty
    && c == Conflict(c.field, Exposed(p, c.field, Lookup(d.base, c.field)),
                     Exposed(p, c.field, Lookup(d.server, c.field)), Exposed(p, c.field, Lookup(d.values, c.field)))
  }

  predicate ConflictsHold(p: Policy, d: Draft) {
    && d.revisionConflict == (d.conflicts != [])
    && NamesDistinct(d.conflicts)
    && forall i | 0 <= i < |d.conflicts| :: Truthful(p, d, d.conflicts[i])
  }

  predicate Shaped(fields: set<Field>, d: Draft) {
    && (d.scope.None? ==> d == Cleared())
    && (d.scope.Some? ==>
          && d.base.Keys == d.server.Keys == d.values.Keys == fields
          && d.baseRevision.Some? && d.serverRevision.Some?
          && d.baseRevision.value <= d.serverRevision.value)
  }

  predicate SubmissionHolds(d: Draft) {
    d.submission.Some? ==>
      && d.scope == Some(d.submission.value.scope)
      && d.serverRevision.Some? && d.submission.value.revision <= d.serverRevision.value
      && forall f | f in d.dirty :: Lookup(d.submission.value.values, f) == Lookup(d.values, f)
  }

  predicate Inv(p: Policy, fields: set<Field>, d: Draft) {
    d.dirty == Difference(d) && Shaped(fields, d) && ConflictsHold(p, d) && SubmissionHolds(d)
  }

  // The reports are exactly those of the contested keys, each once.
  lemma {:induction false} ReportsExact(p: Policy, d: Draft, s: Snapshot, n: nat)
    requires n <= |s.keys| && Distinct(s.keys)
    ensures NamesDistinct(Reports(p, d, s, n))
    ensures forall f :: Named(Reports(p, d, s, n), f) <==> f in s.keys[..n] && Contested(p, d, s, f)
    ensures forall i | 0 <= i < |Reports(p, d, s, n)| ::
              Reports(p, d, s, n)[i] == Report(p, d, s, Reports(p, d, s, n)[i].field)
  {
    if n > 0 {
      ReportsExact(p, d, s, n - 1);
      var before, last := Reports(p, d, s, n - 1), s.keys[n - 1];
      assert s.keys[..n] == s.keys[..n - 1] + [last] && last !in s.keys[..n - 1];
      if Contested(p, d, s, last) {
        NamedSnoc(before, Report(p, d, s, last));
      } else {
        assert Reports(p, d, s, n) == before;
      }
    }
  }

  lemma NamedSnoc(cs: seq<Conflict>, c: Conflict)
    ensures forall f :: Named(cs + [c], f) <==> Named(cs, f) || c.field == f
    ensures NamesDistinct(cs) && !Named(cs, c.field) ==> NamesDistinct(cs + [c])
  {
    var all := cs + [c];
    forall f ensures Named(all, f) <==> Named(cs, f) || c.field == f {
      assert all[|cs|] == c;
      if i :| 0 <= i < |cs| && cs[i].field == f { assert all[i].field == f; }
    }
  }

  lemma {:induction false} WithoutExact(cs: seq<Conflict>, f: Field)
    ensures forall c :: c in Without(cs, f) <==> c in cs && c.field != f
    ensures NamesDistinct(cs) ==> NamesDistinct(Without(cs, f))
  {
    if cs != [] {
      var front, last := cs[..|cs| - 1], cs[|cs| - 1];
      WithoutExact(front, f);
      assert cs == front + [last];
      if NamesDistinct(cs) {
        assert forall c | c in Without(front, f) :: c in front;
      }
    }
  }

  // What a merge does to one field.
  lemma MergedAt(p: Policy, d: Draft, s: Snapshot, f: Field)
    ensures var m := Merged(p, d, s);
            && (f in m.dirty ==>
                  Lookup(m.values, f) == Lookup(d.values, f) && Lookup(m.base, f) == Lookup(d.base, f))
            && (f in s.values && f !in m.dirty ==>
                  Lookup(m.values, f) == Lookup(m.base, f) == Lookup(s.values, f))
  {
  }

  lemma MergedDifference(p: Policy, fields: set<Field>, d: Draft, s: Snapshot)
    requires Shaped(fields, d) && d.dirty == Difference(d) && d.scope == Some(s.scope) && s.values.Keys == fields
    ensures Merged(p, d, s).dirty == Difference(Merged(p, d, s))
  {
    var m := Merged(p, d, s);
    forall f ensures f in m.dirty <==> f in Difference(m) {
      MergedAt(p, d, s, f);
    }
  }

  lemma MergedConflicts(p: Policy, d: Draft, s: Snapshot)
    requires WellFormed(s)
    ensures ConflictsHold(p, Merged(p, d, s))
  {
    ReportsExact(p, d, s, |s.keys|);
    var m := Merged(p, d, s);
    assert s.keys[..|s.keys|] == s.keys;
    forall i | 0 <= i < |m.conflicts| ensures Truthful(p, m, m.conflicts[i]) {
      assert Named(m.conflicts, m.conflicts[i].field);
      MergedAt(p, d, s, m.conflicts[i].field);
    }
  }

  lemma InvMerged(p: Policy, fields: set<Field>, d: Draft, s: Snapshot)
    requires Inv(p, fields, d) && d.scope == Some(s.scope) && !Stale(d, s)
    requires WellFormed(s) && s.values.Keys == fields
    ensures Inv(p, fields, Merged(p, d, s))
  {
    MergedDifference(p, fields, d, s);
    MergedConflicts(p, d, s);
    MergedShape(p, fields, d, s);
    MergedSubmission(p, d, s);
  }

  lemma MergedShape(p: Policy, fields: set<Field>, d: Draft, s: Snapshot)
    requires Shaped(fields, d) && d.scope == Some(s.scope) && !Stale(d, s) && s.values.Keys == fields
    ensures Shaped(fields, Merged(p, d, s))
  {
  }

  lemma MergedSubmission(p: Policy, d: Draft, s: Snapshot)
    requires SubmissionHolds(d) && d.serverRevision.Some? && !Stale(d, s)
    ensures SubmissionHolds(Merged(p, d, s))
  {
    forall f | f in Merged(p, d, s).dirty
      ensures f in d.dirty && Lookup(Merged(p, d, s).values, f) == Lookup(d.values, f)
    {
      MergedAt(p, d, s, f);
    }
  }

  lemma InvSynchronized(p: Policy, fields: set<Field>, d: Draft, s: Snapshot)
    requires Inv(p, fields, d) && WellFormed(s) && s.values.Keys == fields
    ensures Inv(p, fields, Synchronized(p, d, s))
  {
    if d.scope == Some(s.scope) && !Stale(d, s) { InvMerged(p, fields, d, s); }
  }

  lemma InvEdited(p: Policy, fields: set<Field>, d: Draft, f: Field, v: string)
    requires Inv(p, fields, d) && f in fields
    ensures Inv(p, fields, Edited(d, f, v))
  {
    if Editable(d) {
      WithoutExact(d.conflicts, f);
      var e := Edited(d, f, v);
      assert e.dirty == Difference(e);
      forall i | 0 <= i < |e.conflicts| ensures Truthful(p, e, e.conflicts[i]) {
        assert e.conflicts[i] in d.conflicts;
      }
    }
  }

  lemma InvFinished(p: Policy, fields: set<Field>, d: Draft, outcome: Outcome)
    requires Inv(p, fields, d)
    ensures Inv(p, fields, Finished(d, outcome))
  {
  }

  lemma InvResolved(p: Policy, fields: set<Field>, d: Draft, r: Resolution)
    requires Inv(p, fields, d)
    ensures Inv(p, fields, Resolved(d, r))
  {
  }

  lemma InvStep(p: Policy, fields: set<Field>, d: Draft, e: Event)
    requires Inv(p, fields, d) && Typed(fields, e)
    ensures Inv(p, fields, Step(p, d, e))
  {
    match e
    case Sync(s) => InvSynchronized(p, fields, d, s);
    case Edit(f, v) => InvEdited(p, fields, d, f, v);
    case Finish(o) => InvFinished(p, fields, d, o);
    case Resolve(r) => InvResolved(p, fields, d, r);
    case _ =>
  }

  // Every reachable draft satisfies the invariant.
  lemma {:induction false} InvRun(p: Policy, fields: set<Field>, es: seq<Event>)
    requires TypedRun(fields, es)
    ensures Inv(p, fields, Run(p, es))
  {
    if es != [] {
      InvRun(p, fields, es[..|es| - 1]);
      InvStep(p, fields, Run(p, es[..|es| - 1]), es[|es| - 1]);
    }
  }

  // ----- The merge -----

  // Synchronizing loses no edit: clean fields follow the server, dirty fields keep the draft and
  // become clean exactly when the server agrees with it.
  lemma MergeIsThreeWay(p: Policy, fields: set<Field>, d: Draft, s: Snapshot, f: Field)
    requires Shaped(fields, d) && d.scope == Some(s.scope) && !Stale(d, s)
    requires WellFormed(s) && s.values.Keys == fields && f in fields
    ensures var m := Synchronized(p, d, s);
            && m.values.Keys == m.base.Keys == fields
            && (f !in d.dirty ==> f !in m.dirty && m.values[f] == m.base[f] == s.values[f])
            && (f in d.dirty ==>
                  && m.values[f] == d.values[f]
                  && (f in m.dirty <==> d.values[f] != s.values[f])
                  && (f in m.dirty ==> m.base[f] == d.base[f]))
  {
    MergedAt(p, d, s, f);
  }

  // ... and it raises a conflict exactly on the dirty fields whose base is not the server's value
  // or, in sensitive mode, on every dirty field once the revision has moved.
  lemma MergeConflictsExactly(p: Policy, fields: set<Field>, d: Draft, s: Snapshot, f: Field)
    requires Shaped(fields, d) && d.scope == Some(s.scope) && !Stale(d, s)
    requires WellFormed(s) && s.values.Keys == fields && f in fields
    ensures var m := Synchronized(p, d, s);
            Named(m.conflicts, f) <==>
              && f in m.dirty
              && (d.base[f] != s.values[f] || (p.sensitive && d.baseRevision.value != s.revision))
  {
    ReportsExact(p, d, s, |s.keys|);
    assert s.keys[..|s.keys|] == s.keys;
  }

  // If a snapshot leaves fields out, the dirty set is still the difference exactly when
  // every field it leaves out was dirty already.
  lemma PartialSnapshots(p: Policy, fields: set<Field>, d: Draft, s: Snapshot)
    requires Inv(p, fields, d) && d.scope == Some(s.scope) && !Stale(d, s) && WellFormed(s)
    ensures var m := Synchronized(p, d, s);
            m.dirty == Difference(m) <==> d.values.Keys - s.values.Keys <= d.dirty
  {
    var m := Synchronized(p, d, s);
    var left := d.values.Keys - s.values.Keys;
    forall f | f in left ensures f in Difference(m) && (f in m.dirty <==> f in d.dirty) {}
    if m.dirty == Difference(m) {
      assert left <= d.dirty;
    } else {
      assert m.dirty <= Difference(m);
      var f :| f in Difference(m) && f !in m.dirty;
      assert f in left;
    }
  }

  // ----- Snapshots that leave fields out -----

  // On the fields that the last snapshot held, dirty is the difference.
  predicate KnownHold(d: Draft) {
    && d.dirty <= d.values.Keys
    && (forall f | f in d.values && f in d.server :: f in d.dirty <==> d.server[f] != d.values[f])
    && (d.scope.None? ==> d == Cleared())
  }

  lemma KnownMerged(p: Policy, d: Draft, s: Snapshot)
    requires KnownHold(d)
    ensures KnownHold(Merged(p, d, s)) || d.scope.None?
  {
    var m := Merged(p, d, s);
    forall f | f in m.values && f in m.server ensures f in m.dirty <==> m.server[f] != m.values[f] {
      MergedAt(p, d, s, f);
    }
  }

  lemma KnownStep(p: Policy, d: Draft, e: Event)
    requires KnownHold(d)
    ensures KnownHold(Step(p, d, e))
  {
    if e.Sync? && d.scope == Some(e.snapshot.scope) { KnownMerged(p, d, e.snapshot); }
  }

  // In every run, whatever fields its snapshots hold, dirty is the difference if and only if every
  // field that the last snapshot left out is dirty; and those are all that can be missing.
  lemma {:induction false} PartialRuns(p: Policy, es: seq<Event>)
    ensures KnownHold(Run(p, es))
    ensures var d := Run(p, es);
            && d.dirty <= Difference(d) && Difference(d) - d.dirty == (d.values.Keys - d.server.Keys) - d.dirty
            && (d.dirty == Difference(d) <==> d.values.Keys - d.server.Keys <= d.dirty)
  {
    if es != [] {
      PartialRuns(p, es[..|es| - 1]);
      KnownStep(p, Run(p, es[..|es| - 1]), es[|es| - 1]);
    }
    KnownDifference(Run(p, es));
  }

  lemma KnownDifference(d: Draft)
    requires KnownHold(d)
    ensures d.dirty <= Difference(d) && Difference(d) - d.dirty == (d.values.Keys - d.server.Keys) - d.dirty
    ensures d.dirty == Difference(d) <==> d.values.Keys - d.server.Keys <= d.dirty
  {
    forall f ensures f in Difference(d) - d.dirty <==> f in (d.values.Keys - d.server.Keys) - d.dirty {}
  }

  lemma RepeatedSyncIsIdle(p: Policy, d: Draft, s: Snapshot)
    requires WellFormed(s)
    ensures Synchronized(p, Synchronized(p, d, s), s) == Synchronized(p, d, s)
  {
    if d.scope != Some(s.scope) {
      ReportsNone(p, Adopted(s), s, |s.keys|);
    } else if !Stale(d, s) {
      RepeatedMerge(p, d, s);
    }
  }

  lemma RepeatedMerge(p: Policy, d: Draft, s: Snapshot)
    requires WellFormed(s)
    ensures Merged(p, Merged(p, d, s), s) == Merged(p, d, s)
  {
    var m := Merged(p, d, s);
    RepeatedFields(p, d, s);
    if m.dirty == {} {
      ReportsNone(p, m, s, |s.keys|);
      ReportsNone(p, d, s, |s.keys|);
    } else {
      ReportsAgree(p, d, m, s, |s.keys|);
    }
  }

  lemma RepeatedFields(p: Policy, d: Draft, s: Snapshot)
    ensures var m := Merged(p, d, s);
            && MergedDirty(m, s) == m.dirty && Taken(m, s) == Taken(d, s)
            && m.values + Taken(m, s) == m.values && (m.dirty != {} ==> m.base + Taken(m, s) == m.base)
  {
    var m := Merged(p, d, s);
    forall f | f in m.dirty ensures f in MergedDirty(m, s) {
      assert Lookup(m.values, f) == Lookup(d.values, f);
    }
    assert MergedDirty(m, s) == m.dirty;
  }

  lemma {:induction false} ReportsNone(p: Policy, d: Draft, s: Snapshot, n: nat)
    requires n <= |s.keys| && MergedDirty(d, s) == {}
    ensures Reports(p, d, s, n) == []
  {
    if n > 0 { ReportsNone(p, d, s, n - 1); }
  }

  lemma {:induction false} ReportsAgree(p: Policy, d: Draft, m: Draft, s: Snapshot, n: nat)
    requires n <= |s.keys| && MergedDirty(d, s) == MergedDirty(m, s) && d.baseRevision == m.baseRevision
    requires forall f | f in MergedDirty(d, s) ::
               Lookup(d.base, f) == Lookup(m.base, f) && Lookup(d.values, f) == Lookup(m.values, f)
    ensures Reports(p, d, s, n) == Reports(p, m, s, n)
  {
    if n > 0 { ReportsAgree(p, d, m, s, n - 1); }
  }

  // ----- Whole-run results -----

  // The last edit of each field that the draft accepted.
  function LastEdits(p: Policy, es: seq<Event>): Values {
    if es == [] then map[]
    else
      var front, e := es[..|es| - 1], es[|es| - 1];
      if e.Edit? && Editable(Run(p, front)) then LastEdits(p, front)[e.field := e.value] else LastEdits(p, front)
  }

  // No step but an accepted edit makes a field dirty or changes the value of a dirty field.
  lemma DirtyValuesStay(p: Policy, fields: set<Field>, d: Draft, e: Event, f: Field)
    requires Inv(p, fields, d) && Typed(fields, e) && f in Step(p, d, e).dirty
    requires !(e.Edit? && e.field == f && Editable(d))
    ensures f in d.dirty && Lookup(Step(p, d, e).values, f) == Lookup(d.values, f)
  {
    if e.Sync? { MergedAt(p, d, e.snapshot, f); }
  }

  // Whatever happened in between, a dirty field shows what the user typed last.
  lemma {:induction false} DirtyFieldsKeepLastEdit(p: Policy, fields: set<Field>, es: seq<Event>, f: Field)
    requires TypedRun(fields, es) && f in Run(p, es).dirty
    ensures Lookup(LastEdits(p, es), f).Some? && Lookup(LastEdits(p, es), f) == Lookup(Run(p, es).values, f)
  {
    if es != [] {
      var front, e := es[..|es| - 1], es[|es| - 1];
      InvRun(p, fields, front);
      if !(e.Edit? && e.field == f && Editable(Run(p, front))) {
        DirtyValuesStay(p, fields, Run(p, front), e, f);
        DirtyFieldsKeepLastEdit(p, fields, front, f);
      }
    }
  }

  predicate Delivered(es: seq<Event>, s: Snapshot) {
    Sync(s) in es
  }

  predicate OneScope(es: seq<Event>, scope: string) {
    forall e | e in es :: !e.Drop? && (e.Sync? ==> e.snapshot.scope == scope)
  }

  predicate Mirrors(d: Draft, s: Snapshot) {
    d.scope == Some(s.scope) && d.serverRevision == Some(s.revision) && d.server == s.values
  }

  // Within one scope a step moves the server mirror only forward, to a snapshot that is no older.
  lemma MirrorStep(p: Policy, d: Draft, e: Event, now: Option<Snapshot>)
    requires if now.None? then d == Cleared() else Mirrors(d, now.value)
    requires !e.Drop? && (e.Sync? && now.Some? ==> e.snapshot.scope == now.value.scope)
    ensures var next := if e.Sync? && (now.None? || now.value.revision <= e.snapshot.revision) then Some(e.snapshot) else now;
            if next.None? then Step(p, d, e) == Cleared() else Mirrors(Step(p, d, e), next.value)
  {
  }

  lemma {:induction false} MirrorIsNewest(p: Policy, es: seq<Event>, scope: string) returns (newest: Option<Snapshot>)
    requires OneScope(es, scope)
    ensures newest.None? ==> Run(p, es) == Cleared() && forall s :: !Delivered(es, s)
    ensures newest.Some? ==>
              && Delivered(es, newest.value)
              && (forall s :: Delivered(es, s) ==> s.revision <= newest.value.revision)
              && Mirrors(Run(p, es), newest.value)
  {
    if es == [] {
      newest := None;
    } else {
      var front, e := es[..|es| - 1], es[|es| - 1];
      assert es == front + [e];
      assert e in es;
      newest := MirrorIsNewest(p, front, scope);
      assert newest.Some? ==> Sync(newest.value) in es;
      MirrorStep(p, Run(p, front), e, newest);
      if e.Sync? && (newest.None? || newest.value.revision <= e.snapshot.revision) {
        newest := Some(e.snapshot);
      }
      assert forall s :: Delivered(es, s) <==> Delivered(front, s) || e == Sync(s);
    }
  }

  // Snapshots of one scope, in any order, repeated, and mixed with any user action, leave the
  // server mirror at the newest of them.
  lemma MirrorConverges(p: Policy, es: seq<Event>, scope: string, best: Snapshot)
    requires OneScope(es, scope)
    requires Delivered(es, best) && forall s :: Delivered(es, s) ==> s.revision <= best.revision
    requires forall s, t :: Delivered(es, s) && Delivered(es, t) && s.revision == t.revision ==> s.values == t.values
    ensures Run(p, es).serverRevision == Some(best.revision) && Run(p, es).server == best.values
  {
    var newest := MirrorIsNewest(p, es, scope);
  }

  // ----- Edits -----

  // The event takes back what the user typed into a dirty field, or replaces it.
  predicate Discards(d: Draft, e: Event, f: Field)
    requires f in d.values
  {
    match e
    case Sync(s) => d.scope != Some(s.scope) || (!Stale(d, s) && Lookup(s.values, f) == Some(d.values[f]))
    case Drop => true
    case Edit(g, v) => g == f && v != d.values[f] && Editable(d)
    case Begin => false
    case Finish(o) => o == Success && d.submission.Some?
    case Resolve(r) => r == UseServer
  }

  // A step leaves an edit as it is, exactly unless it discards it; and in all other cases but an
  // edit of the field, the field shows the server's value afterwards, if it has one.
  lemma EditLostExactly(p: Policy, fields: set<Field>, d: Draft, e: Event, f: Field)
    requires Inv(p, fields, d) && Typed(fields, e) && f in d.dirty
    ensures var t := Step(p, d, e);
            && (f in t.dirty && Lookup(t.values, f) == Some(d.values[f]) <==> !Discards(d, e, f))
            && (Discards(d, e, f) && !e.Edit? ==> f !in t.dirty && Lookup(t.values, f) == Lookup(t.server, f))
  {
    if e.Sync? { EditOverSync(p, fields, d, e.snapshot, f); }
  }

  lemma EditOverSync(p: Policy, fields: set<Field>, d: Draft, s: Snapshot, f: Field)
    requires Shaped(fields, d) && s.values.Keys == fields && f in d.dirty && f in fields && d.scope.Some?
    ensures var t := Synchronized(p, d, s);
            && (f in t.dirty && Lookup(t.values, f) == Some(d.values[f]) <==> !Discards(d, Sync(s), f))
            && (Discards(d, Sync(s), f) ==> f !in t.dirty && Lookup(t.values, f) == Lookup(t.server, f))
  {
    MergedAt(p, d, s, f);
  }

  // The two resolutions: one leaves every field as it was, the other takes the server's side; both
  // settle all conflicts and move the base to the server.
  lemma ResolutionExact(p: Policy, fields: set<Field>, d: Draft, r: Resolution)
    requires Inv(p, fields, d) && d.scope.Some?
    ensures var t := Step(p, d, Resolve(r));
            && t.scope == d.scope && t.server == d.server && t.serverRevision == d.serverRevision
            && t.base == t.server && t.baseRevision == t.serverRevision
            && t.conflicts == [] && !t.revisionConflict && t.submission.None?
            && t.values.Keys == fields
            && (forall f | f in fields :: t.values[f] == if r == KeepDraft then d.values[f] else d.server[f])
            && (forall f | f in fields :: f in t.dirty <==> r == KeepDraft && d.values[f] != d.server[f])
  {
  }

  lemma RunSnoc(p: Policy, es: seq<Event>, e: Event)
    ensures Run(p, es + [e]) == Step(p, Run(p, es), e)
  {
    assert (es + [e])[..|es + [e]| - 1] == es;
  }

  // After every run: keeping the draft leaves each dirty field at the last edit that was accepted.
  lemma KeepDraftKeepsEdits(p: Policy, fields: set<Field>, es: seq<Event>, f: Field)
    requires TypedRun(fields, es) && f in Run(p, es).dirty
    ensures var t := Run(p, es + [Resolve(KeepDraft)]);
            f in t.dirty && Lookup(t.values, f) == Lookup(LastEdits(p, es), f) && !Named(t.conflicts, f)
  {
    InvRun(p, fields, es);
    DirtyFieldsKeepLastEdit(p, fields, es, f);
    RunSnoc(p, es, Resolve(KeepDraft));
  }

  // In every run the conflicts show base, server and draft value of a field, and of a redacted field
  // nothing at all.
  lemma ConflictsShow(p: Policy, fields: set<Field>, es: seq<Event>, i: nat)
    requires TypedRun(fields, es) && i < |Run(p, es).conflicts|
    ensures var d, c := Run(p, es), Run(p, es).conflicts[i];
            && c.field in fields && d.base.Keys == d.server.Keys == d.values.Keys == fields
            && c == if c.field in p.redacted then Conflict(c.field, "[redacted]", "[redacted]", "[redacted]")
                    else Conflict(c.field, d.base[c.field], d.server[c.field], d.values[c.field])
  {
    InvRun(p, fields, es);
    ConflictShows(p, fields, Run(p, es), i);
  }

  lemma ConflictShows(p: Policy, fields: set<Field>, d: Draft, i: nat)
    requires Inv(p, fields, d) && i < |d.conflicts|
    ensures var c := d.conflicts[i];
            && c.field in fields && d.base.Keys == d.server.Keys == d.values.Keys == fields
            && c == if c.field in p.redacted then Conflict(c.field, "[redacted]", "[redacted]", "[redacted]")
                    else Conflict(c.field, d.base[c.field], d.server[c.field], d.values[c.field])
  {
    assert Truthful(p, d, d.conflicts[i]);
  }

  // ----- The reference: unsaved edits over the newest snapshot -----

  // `origin` is what each field showed on the server when its edit began.
  datatype Ledger =
    | Blank
    | Ledger(mirror: Snapshot, edits: Values, origin: Values, originRevision: int, contested: set<Field>, submission: Option<Submission>)

  function Opened(s: Snapshot): Ledger {
    Ledger(s, map[], s.values, s.revision, {}, None)
  }

  // A newer snapshot slides in below the edits; those it agrees with are done.
  function Rebased(p: Policy, l: Ledger, s: Snapshot): Ledger
    requires l.Ledger?
  {
    var edits := StillDiffer(l.edits, s.values);
    Ledger(s, edits, s.values + Only(l.origin, edits.Keys), if edits == map[] then s.revision else l.originRevision,
           (set f | f in edits && (Lookup(l.origin, f) != Lookup(s.values, f) || (p.sensitive && l.originRevision != s.revision))),
           l.submission)
  }

  function StillDiffer(edits: Values, values: Values): Values {
    map f | f in edits && Lookup(values, f) != Some(edits[f]) :: edits[f]
  }

  function Only(values: Values, fields: set<Field>): Values {
    map f | f in values && f in fields :: values[f]
  }

  function Noted(p: Policy, l: Ledger, e: Event): Ledger {
    if e.Drop? then Blank
    else if e.Sync? && (l.Blank? || l.mirror.scope != e.snapshot.scope) then Opened(e.snapshot)
    else if l.Blank? then l
    else
      match e
      case Sync(s) => if s.revision < l.mirror.revision then l else Rebased(p, l, s)
      case Edit(f, v) =>
        if l.submission.Some? then l
        else l.(edits := if Lookup(l.mirror.values, f) == Some(v) then l.edits - {f} else l.edits[f := v],
                contested := l.contested - {f})
      case Begin =>
        if l.submission.Some? || l.contested != {} then l
        else l.(submission := Some(Submission(l.mirror.scope, l.mirror.revision, l.mirror.values + l.edits)))
      case Finish(o) =>
        if l.submission.None? then l else if o == Success then Opened(l.mirror) else l.(submission := None)
      case Resolve(r) => if r == UseServer then Opened(l.mirror) else Opened(l.mirror).(edits := l.edits)
  }

  function Ledgered(p: Policy, es: seq<Event>): Ledger {
    if es == [] then Blank else Noted(p, Ledgered(p, es[..|es| - 1]), es[|es| - 1])
  }

  // The draft shows the edits over the mirror.
  ghost predicate Shows(d: Draft, l: Ledger) {
    if l.Blank? then d == Cleared()
    else
      && Mirrors(d, l.mirror) && Overlaid(d, l.mirror.values, l.edits)
      && d.base == l.origin && d.baseRevision == Some(l.originRevision)
      && Names(d.conflicts, l.contested)
      && d.submission == l.submission
  }

  predicate Overlaid(d: Draft, below: Values, edits: Values) {
    d.values == below + edits && d.dirty == edits.Keys
  }

  ghost predicate Names(cs: seq<Conflict>, fields: set<Field>) {
    forall f :: Named(cs, f) <==> f in fields
  }

  lemma ShowsRebased(p: Policy, fields: set<Field>, d: Draft, l: Ledger, s: Snapshot)
    requires Inv(p, fields, d) && Shows(d, l) && d.scope == Some(s.scope) && !Stale(d, s) && WellFormed(s) && s.values.Keys == fields
    ensures Shows(Merged(p, d, s), Rebased(p, l, s))
  {
    RebasedEdits(p, fields, d, l.mirror.values, l.edits, s);
    RebasedOrigin(p, d, fields, StillDiffer(l.edits, s.values), s);
    forall f ensures Named(Merged(p, d, s).conflicts, f) <==> f in Rebased(p, l, s).contested { ShowsContested(p, fields, d, l, s, f); }
  }

  lemma RebasedEdits(p: Policy, fields: set<Field>, d: Draft, below: Values, edits: Values, s: Snapshot)
    requires d.values.Keys == s.values.Keys == fields && Overlaid(d, below, edits)
    ensures Overlaid(Merged(p, d, s), s.values, StillDiffer(edits, s.values))
  {
    var m, left := Merged(p, d, s), StillDiffer(edits, s.values);
    RebasedDirty(d, below, edits, s);
    forall f | f in fields ensures Lookup(m.values, f) == Lookup(s.values + left, f) {
      MergedAt(p, d, s, f);
    }
    SameValues(m.values, s.values + left, fields);
  }

  lemma RebasedDirty(d: Draft, below: Values, edits: Values, s: Snapshot)
    requires Overlaid(d, below, edits)
    ensures MergedDirty(d, s) == StillDiffer(edits, s.values).Keys
  {
    forall f | f in edits ensures Lookup(d.values, f) == Some(edits[f]) {}
  }

  lemma SameValues(a: Values, b: Values, fields: set<Field>)
    requires a.Keys == b.Keys == fields && forall f | f in fields :: Lookup(a, f) == Lookup(b, f)
    ensures a == b
  {
    forall f | f in fields ensures a[f] == b[f] { assert Lookup(a, f) == Lookup(b, f); }
  }

  lemma RebasedOrigin(p: Policy, d: Draft, fields: set<Field>, edits: Values, s: Snapshot)
    requires d.base.Keys == s.values.Keys == fields && Merged(p, d, s).dirty == edits.Keys
    ensures Merged(p, d, s).base == s.values + Only(d.base, edits.Keys)
  {
    var m := Merged(p, d, s);
    if m.dirty == {} {
      assert Only(d.base, edits.Keys) == map[];
    } else {
      forall f | f in fields ensures m.base[f] == (s.values + Only(d.base, edits.Keys))[f] {
        MergedAt(p, d, s, f);
      }
    }
  }

  lemma ShowsContested(p: Policy, fields: set<Field>, d: Draft, l: Ledger, s: Snapshot, f: Field)
    requires Inv(p, fields, d) && Shows(d, l) && d.scope == Some(s.scope) && !Stale(d, s) && WellFormed(s) && s.values.Keys == fields
    ensures Named(Merged(p, d, s).conflicts, f) <==> f in Rebased(p, l, s).contested
  {
    RebasedDirty(d, l.mirror.values, l.edits, s);
    ReportsExact(p, d, s, |s.keys|);
    assert s.keys[..|s.keys|] == s.keys;
    assert f in StillDiffer(l.edits, s.values) ==> f in fields;
  }

  lemma NamedWithout(cs: seq<Conflict>, f: Field, g: Field)
    ensures Named(Without(cs, f), g) <==> Named(cs, g) && f != g
  {
    WithoutExact(cs, f);
    if i :| 0 <= i < |cs| && cs[i].field == g && f != g { assert cs[i] in Without(cs, f); }
    if i :| 0 <= i < |Without(cs, f)| && Without(cs, f)[i].field == g { assert Without(cs, f)[i] in cs; }
  }

  lemma ShowsEdited(p: Policy, fields: set<Field>, d: Draft, l: Ledger, f: Field, v: string)
    requires Inv(p, fields, d) && Shows(d, l) && f in fields
    ensures Shows(Edited(d, f, v), Noted(p, l, Edit(f, v)))
  {
    if Editable(d) {
      NamesWithout(d.conflicts, l.contested, f);
      EditOverlaid(d, l.mirror.values, l.edits, f, v);
    }
  }

  lemma NamesWithout(cs: seq<Conflict>, fields: set<Field>, f: Field)
    requires Names(cs, fields)
    ensures Names(Without(cs, f), fields - {f})
  {
    forall g ensures Named(Without(cs, f), g) <==> g in fields - {f} { NamedWithout(cs, f, g); }
  }

  lemma EditOverlaid(d: Draft, below: Values, edits: Values, f: Field, v: string)
    requires Editable(d) && Overlaid(d, below, edits) && d.server == below && f in below
    ensures Overlaid(Edited(d, f, v), below, if Lookup(below, f) == Some(v) then edits - {f} else edits[f := v])
  {
  }

  lemma ShowsBegun(p: Policy, d: Draft, l: Ledger)
    requires d.revisionConflict == (d.conflicts != []) && Shows(d, l)
    ensures Shows(Begun(d), Noted(p, l, Begin))
  {
    assert d.conflicts != [] ==> Named(d.conflicts, d.conflicts[0].field);
  }

  lemma ShowsFinished(p: Policy, d: Draft, l: Ledger, o: Outcome)
    requires Shows(d, l)
    ensures Shows(Finished(d, o), Noted(p, l, Finish(o)))
  {
  }

  lemma ShowsResolved(p: Policy, fields: set<Field>, d: Draft, l: Ledger, r: Resolution)
    requires d.dirty == Difference(d) && Shaped(fields, d) && Shows(d, l)
    ensures Shows(Resolved(d, r), Noted(p, l, Resolve(r)))
  {
  }

  lemma ShowsSynced(p: Policy, fields: set<Field>, d: Draft, l: Ledger, s: Snapshot)
    requires Inv(p, fields, d) && Shows(d, l) && WellFormed(s) && s.values.Keys == fields
    ensures Shows(Synchronized(p, d, s), Noted(p, l, Sync(s)))
  {
    if d.scope != Some(s.scope) {
      ShowsOpened(s);
    } else if !Stale(d, s) {
      ShowsRebased(p, fields, d, l, s);
    }
  }

  lemma ShowsOpened(s: Snapshot)
    ensures Shows(Adopted(s), Opened(s))
  {
  }

  lemma ShowsStep(p: Policy, fields: set<Field>, d: Draft, l: Ledger, e: Event)
    requires Inv(p, fields, d) && Shows(d, l) && Typed(fields, e)
    ensures Shows(Step(p, d, e), Noted(p, l, e))
  {
    match e
    case Sync(s) => ShowsSynced(p, fields, d, l, s);
    case Drop =>
    case Edit(f, v) => ShowsEdited(p, fields, d, l, f, v);
    case Begin => ShowsBegun(p, d, l);
    case Finish(o) => ShowsFinished(p, d, l, o);
    case Resolve(r) => ShowsResolved(p, fields, d, l, r);
  }

  // In every run the draft is the unsaved edits over the newest snapshot.
  lemma {:induction false} DraftIsLedger(p: Policy, fields: set<Field>, es: seq<Event>)
    requires TypedRun(fields, es)
    ensures Shows(Run(p, es), Ledgered(p, es))
  {
    if es != [] {
      var front, e := es[..|es| - 1], es[|es| - 1];
      DraftIsLedger(p, fields, front);
      InvRun(p, fields, front);
      ShowsStep(p, fields, Run(p, front), Ledgered(p, front), e);
    }
  }
}

module DraftObject {
  import opened Options
  import opened DraftSpec

  // What the first n keys contribute to the merged values, and what they leave dirty.
  ghost function Visited(d: Draft, s: Snapshot, n: nat): Values
    requires n <= |s.keys|
  {
    map f | f in s.values && f in s.keys[..n] && f !in MergedDirty(d, s) :: s.values[f]
  }

  ghost function DirtyAfter(d: Draft, s: Snapshot, n: nat): set<Field>
    requires n <= |s.keys|
  {
    set f | f in d.dirty && (f in MergedDirty(d, s) || f !in s.keys[..n])
  }

  lemma VisitOneKey(d: Draft, s: Snapshot, n: nat)
    requires n < |s.keys| && WellFormed(s)
    ensures s.keys[n] in DirtyAfter(d, s, n) <==> s.keys[n] in d.dirty
    ensures Visited(d, s, n + 1) ==
            if s.keys[n] in MergedDirty(d, s) then Visited(d, s, n) else Visited(d, s, n)[s.keys[n] := s.values[s.keys[n]]]
    ensures DirtyAfter(d, s, n + 1) ==
            if s.keys[n] in MergedDirty(d, s) then DirtyAfter(d, s, n) else DirtyAfter(d, s, n) - {s.keys[n]}
  {
    assert s.keys[..n + 1] == s.keys[..n] + [s.keys[n]];
  }

  lemma PutLast(m: Values, v: Values, f: Field, x: string)
    ensures m + v[f := x] == (m + v)[f := x]
  {
  }

  lemma VisitOne(p: Policy, d: Draft, s: Snapshot, n: nat)
    requires n < |s.keys| && WellFormed(s)
    ensures s.keys[n] in DirtyAfter(d, s, n) <==> s.keys[n] in d.dirty
    ensures s.keys[n] in MergedDirty(d, s) ==>
              Visited(d, s, n + 1) == Visited(d, s, n) && DirtyAfter(d, s, n + 1) == DirtyAfter(d, s, n)
    ensures s.keys[n] !in MergedDirty(d, s) ==>
              && d.values + Visited(d, s, n + 1) == (d.values + Visited(d, s, n))[s.keys[n] := s.values[s.keys[n]]]
              && d.base + Visited(d, s, n + 1) == (d.base + Visited(d, s, n))[s.keys[n] := s.values[s.keys[n]]]
              && DirtyAfter(d, s, n + 1) == DirtyAfter(d, s, n) - {s.keys[n]}
    ensures Reports(p, d, s, n + 1) ==
            Reports(p, d, s, n) + if Contested(p, d, s, s.keys[n]) then [Report(p, d, s, s.keys[n])] else []
  {
    VisitOneKey(d, s, n);
    if s.keys[n] !in MergedDirty(d, s) {
      PutLast(d.values, Visited(d, s, n), s.keys[n], s.values[s.keys[n]]);
      PutLast(d.base, Visited(d, s, n), s.keys[n], s.values[s.keys[n]]);
    }
  }

  // What the loop has built after the first n keys.
  ghost predicate Built(p: Policy, d: Draft, s: Snapshot, n: nat, values: Values, base: Values, dirty: set<Field>, conflicts: seq<Conflict>)
    requires n <= |s.keys|
  {
    && dirty == DirtyAfter(d, s, n) && conflicts == Reports(p, d, s, n)
    && values == d.values + Visited(d, s, n) && base == d.base + Visited(d, s, n)
  }

  lemma BuiltNone(p: Policy, d: Draft, s: Snapshot)
    ensures Built(p, d, s, 0, d.values, d.base, d.dirty, [])
  {
    assert Visited(d, s, 0) == map[] && DirtyAfter(d, s, 0) == d.dirty;
  }

  lemma BuiltAll(p: Policy, d: Draft, s: Snapshot, values: Values, base: Values, dirty: set<Field>, conflicts: seq<Conflict>)
    requires WellFormed(s) && Built(p, d, s, |s.keys|, values, base, dirty, conflicts)
    ensures values == d.values + Taken(d, s) && base == d.base + Taken(d, s)
    ensures dirty == MergedDirty(d, s) && conflicts == Reports(p, d, s, |s.keys|)
  {
    assert s.keys[..|s.keys|] == s.keys;
    assert Visited(d, s, |s.keys|) == Taken(d, s) && DirtyAfter(d, s, |s.keys|) == MergedDirty(d, s);
  }

  class EditableDraft {
    const policy: Policy
    var scope: Option<string>
    var baseRevision: Option<int>
    var serverRevision: Option<int>
    var base: Values
    var server: Values
    var values: Values
    var dirty: set<Field>
    var conflicts: seq<Conflict>
    var revisionConflict: bool
    var submission: Option<Submission>

    function View(): Draft
      reads this
    {
      Draft(scope, baseRevision, serverRevision, base, server, values, dirty, conflicts, revisionConflict, submission)
    }

    constructor (policy: Policy)
      ensures View() == Cleared() && this.policy == policy
    {
      this.policy := policy;
      scope, baseRevision, serverRevision := None, None, None;
      base, server, values := map[], map[], map[];
      dirty, conflicts, revisionConflict, submission := {}, [], false, None;
    }

    method Reset()
      modifies this
      ensures View() == Cleared()
    {
      scope, baseRevision, serverRevision := None, None, None;
      base, server, values := map[], map[], map[];
      dirty, conflicts, revisionConflict, submission := {}, [], false, None;
    }

    method Adopt(snapshot: Snapshot)
      modifies this
      ensures View() == Adopted(snapshot)
    {
      scope, baseRevision, serverRevision := Some(snapshot.scope), Some(snapshot.revision), Some(snapshot.revision);
      base, server, values := snapshot.values, snapshot.values, snapshot.values;
      dirty, conflicts, revisionConflict, submission := {}, [], false, None;
    }

    // One turn of the loop over the snapshot's keys.
    method MergeField(snapshot: Snapshot, i: nat, nextValues: Values, nextBase: Values, nextDirty: set<Field>, nextConflicts: seq<Conflict>)
      returns (values': Values, base': Values, dirty': set<Field>, conflicts': seq<Conflict>)
      requires WellFormed(snapshot) && i < |snapshot.keys|
      requires Built(policy, View(), snapshot, i, nextValues, nextBase, nextDirty, nextConflicts)
      ensures Built(policy, View(), snapshot, i + 1, values', base', dirty', conflicts')
    {
      var field := snapshot.keys[i];
      VisitOne(policy, View(), snapshot, i);
      var current := snapshot.values[field];
      values', base', dirty', conflicts' := nextValues, nextBase, nextDirty, nextConflicts;
      if field !in nextDirty {
        values', base' := nextValues[field := current], nextBase[field := current];
      } else if Lookup(values, field) == Some(current) {
        dirty' := nextDirty - {field};
        values', base' := nextValues[field := current], nextBase[field := current];
      } else if Lookup(base, field) != Some(current) || (policy.sensitive && baseRevision != Some(snapshot.revision)) {
        conflicts' := nextConflicts + [Conflict(field, Exposed(policy, field, Lookup(base, field)), Exposed(policy, field, Some(current)),
                                                Exposed(policy, field, Lookup(values, field)))];
      }
    }

    // The loop over the snapshot's keys.
    method MergeFields(snapshot: Snapshot)
      returns (nextValues: Values, nextBase: Values, nextDirty: set<Field>, nextConflicts: seq<Conflict>)
      requires WellFormed(snapshot)
      ensures nextValues == values + Taken(View(), snapshot) && nextBase == base + Taken(View(), snapshot)
      ensures nextDirty == MergedDirty(View(), snapshot)
      ensures nextConflicts == Reports(policy, View(), snapshot, |snapshot.keys|)
    {
      nextValues, nextBase, nextDirty, nextConflicts := values, base, dirty, [];
      BuiltNone(policy, View(), snapshot);
      for i := 0 to |snapshot.keys|
        invariant Built(policy, View(), snapshot, i, nextValues, nextBase, nextDirty, nextConflicts)
      {
        nextValues, nextBase, nextDirty, nextConflicts := MergeField(snapshot, i, nextValues, nextBase, nextDirty, nextConflicts);
      }
      BuiltAll(policy, View(), snapshot, nextValues, nextBase, nextDirty, nextConflicts);
    }

    // Walks the snapshot's keys once; the result is the field-wise merge.
    method Synchronize(incoming: Option<Snapshot>)
      requires incoming.Some? ==> WellFormed(incoming.value)
      modifies this
      ensures View() == if incoming.None? then Cleared() else Synchronized(policy, old(View()), incoming.value)
    {
      if incoming.None? {
        Reset();
        return;
      }
      var snapshot := incoming.value;
      if scope != Some(snapshot.scope) {
        Adopt(snapshot);
        return;
      }
      if snapshot.revision < (if serverRevision.Some? then serverRevision.value else 0) {
        return;
      }
      Merge(snapshot);
    }

    // The merge behind the loop over the keys.
    method Merge(snapshot: Snapshot)
      requires WellFormed(snapshot)
      modifies this
      ensures View() == Merged(policy, old(View()), snapshot)
    {
      var nextValues, nextBase, nextDirty, nextConflicts := MergeFields(snapshot);
      serverRevision, server, values := Some(snapshot.revision), snapshot.values, nextValues;
      dirty, conflicts, revisionConflict := nextDirty, nextConflicts, |nextConflicts| > 0;
      if nextDirty == {} {
        baseRevision, base := Some(snapshot.revision), snapshot.values;
      } else {
        base := nextBase;
      }
    }

    method Edit(field: Field, value: string)
      modifies this
      ensures View() == Edited(old(View()), field, value)
    {
      if scope.None? || submission.Some? {
        return;
      }
      values := values[field := value];
      if Lookup(server, field) == Some(value) {
        dirty := dirty - {field};
      } else {
        dirty := dirty + {field};
      }
      conflicts := Without(conflicts, field);
      revisionConflict := |conflicts| > 0;
    }

    method BeginSubmission() returns (begun: Option<Submission>)
      modifies this
      ensures View() == Begun(old(View()))
      ensures begun.Some? <==> Submittable(old(View()))
      ensures begun.Some? ==> begun == submission
    {
      if scope.None? || serverRevision.None? || submission.Some? || revisionConflict {
        return None;
      }
      submission := Some(Submission(scope.value, serverRevision.value, values));
      return submission;
    }

    method FinishSubmission(outcome: Outcome)
      modifies this
      ensures View() == Finished(old(View()), outcome)
    {
      if submission.None? {
        return;
      }
      submission := None;
      if outcome == Success {
        baseRevision, base, values := serverRevision, server, server;
        dirty, conflicts, revisionConflict := {}, [], false;
      }
    }

    method ResolveConflicts(resolution: Resolution)
      modifies this
      ensures View() == Resolved(old(View()), resolution)
    {
      if scope.None? || serverRevision.None? {
        return;
      }
      submission := None;
      if resolution == UseServer {
        base, values, dirty := server, server, {};
      } else {
        base := server;
        var nextDirty, pending := {}, values.Keys;
        while pending != {}
          invariant pending <= values.Keys && server == old(server) && values == old(values)
          invariant nextDirty == set f | f in values.Keys - pending && Lookup(server, f) != Some(values[f])
          decreases pending
        {
          var field :| field in pending;
          pending := pending - {field};
          if Lookup(server, field) != Some(values[field]) {
            nextDirty := nextDirty + {field};
          }
        }
        dirty := nextDirty;
      }
      baseRevision := serverRevision;
      conflicts, revisionConflict := [], false;
    }
  }
}
