// The knowledge catalogue: entries are suggested, confirmed and deleted; a deleted entry leaves a
// tombstone that later updates and restored backups must respect.
module Knowledge {
  import opened Options

  datatype Status = Suggested | Confirmed | NeedsReconfirmation | Expired | Archived | Revoked | Tombstone

  datatype Scope = Personal | Repository

  datatype Entry = Entry(status: Status, scope: Scope, title: Option<string>, body: Option<string>, ruleKey: Option<string>,
                         repositoryId: Option<string>, sourceVersion: string, expiresAt: Expiry)

  // An expiry that does not parse as a date never comes.
  datatype Expiry = Never | Unreadable | At(millis: int)

  // Keyed by source id.
  type Catalog = map<string, Entry>

  datatype Event = Upsert(id: string, entry: Entry) | Confirm(id: string) | Delete(id: string)

  function Upserted(catalog: Catalog, id: string, entry: Entry): Catalog {
    if id in catalog && catalog[id].status.Tombstone? then catalog
    else
      var status :=
        if entry.status.Confirmed? && id !in catalog then Suggested
        else if entry.status.Confirmed? && catalog[id].sourceVersion != entry.sourceVersion then NeedsReconfirmation
        else entry.status;
      catalog[id := entry.(status := status)]
  }

  predicate Confirmable(status: Status) {
    status.Suggested? || status.Confirmed? || status.NeedsReconfirmation?
  }

  function AfterConfirm(catalog: Catalog, id: string): Catalog {
    if id !in catalog || !Confirmable(catalog[id].status) then catalog
    else catalog[id := catalog[id].(status := Confirmed)]
  }

  function Buried(entry: Entry): Entry {
    Entry(Tombstone, entry.scope, None, None, None, entry.repositoryId, entry.sourceVersion, Never)
  }

  function Deleted(catalog: Catalog, id: string): Catalog {
    if id !in catalog then catalog else catalog[id := Buried(catalog[id])]
  }

  function Next(catalog: Catalog, e: Event): Catalog {
    match e
    case Upsert(id, entry) => Upserted(catalog, id, entry)
    case Confirm(id) => AfterConfirm(catalog, id)
    case Delete(id) => Deleted(catalog, id)
  }

  function Run(catalog: Catalog, es: seq<Event>): Catalog {
    if es == [] then catalog else Next(Run(catalog, es[..|es| - 1]), es[|es| - 1])
  }

  // What a caller's model context holds.
  predicate CanRead(entry: Entry, repositories: set<string>) {
    && !entry.status.Tombstone?
    && if entry.repositoryId.None? then entry.scope.Personal? else entry.repositoryId.value in repositories
  }

  predicate InContext(catalog: Catalog, id: string, repositories: set<string>, now: Option<int>) {
    && id in catalog && CanRead(catalog[id], repositories) && catalog[id].status.Confirmed?
    && !(catalog[id].expiresAt.At? && now.Some? && catalog[id].expiresAt.millis <= now.value)
  }

  method ContextEntries(catalog: Catalog, repositories: set<string>, now: Option<int>) returns (allowed: set<string>)
    ensures forall id: string :: id in allowed <==> InContext(catalog, id, repositories, now)
  {
    allowed := {};
    var left := catalog.Keys;
    while left != {}
      invariant left <= catalog.Keys
      invariant forall id: string :: id in allowed <==> id !in left && InContext(catalog, id, repositories, now)
      decreases |left|
    {
      var id :| id in left;
      var entry := catalog[id];
      left := left - {id};
      if !CanRead(entry, repositories) { continue; }
      if !entry.status.Confirmed? { continue; }
      if entry.expiresAt.At? && now.Some? && entry.expiresAt.millis <= now.value { continue; }
      allowed := allowed + {id};
    }
  }

  // ----- Tombstones and confirmation over runs -----

  predicate IsTombstone(catalog: Catalog, id: string) {
    id in catalog && catalog[id].status.Tombstone?
  }

  // No run of operations revives a tombstone, and an erased one stays erased.
  lemma {:induction false} TombstoneStays(catalog: Catalog, es: seq<Event>, id: string)
    requires IsTombstone(catalog, id)
    ensures IsTombstone(Run(catalog, es), id)
    ensures catalog[id] == Buried(catalog[id]) ==> Run(catalog, es)[id] == catalog[id]
  {
    if es != [] { TombstoneStays(catalog, es[..|es| - 1], id); }
  }

  // One operation brings an entry into the confirmed state exactly when it confirms an open
  // entry, or upserts it as confirmed over a live entry of the same version.
  lemma BecomesConfirmed(catalog: Catalog, e: Event, id: string)
    requires !(id in catalog && catalog[id].status.Confirmed?)
    ensures var t := Next(catalog, e);
            id in t && t[id].status.Confirmed? <==>
              && id in catalog && !catalog[id].status.Tombstone?
              && (|| (e == Confirm(id) && Confirmable(catalog[id].status))
                  || (e.Upsert? && e.id == id && e.entry.status.Confirmed? && e.entry.sourceVersion == catalog[id].sourceVersion))
  {
  }

  // The last event that made an entry confirmed.
  ghost predicate Confirms(catalog: Catalog, es: seq<Event>, id: string, k: int) {
    && 0 <= k < |es|
    && var before := Run(catalog, es[..k]);
       && id in before && !before[id].status.Tombstone?
       && match es[k]
          case Confirm(target) => target == id && Confirmable(before[id].status)
          case Upsert(target, entry) =>
            target == id && entry.status.Confirmed? && entry.sourceVersion == before[id].sourceVersion
          case Delete(_) => false
  }

  // From an empty catalogue, whatever is in a context has been confirmed in its present version:
  // an update to another version takes it out of every context.
  lemma {:induction false} ContextWasConfirmed(es: seq<Event>, id: string) returns (k: int)
    requires id in Run(map[], es) && Run(map[], es)[id].status.Confirmed?
    ensures Confirms(map[], es, id, k)
    ensures Run(map[], es)[id].sourceVersion == Run(map[], es[..k])[id].sourceVersion
  {
    var n := |es| - 1;
    var before := Run(map[], es[..n]);
    assert es[..n + 1] == es;
    if Confirms(map[], es, id, n) {
      k := n;
    } else {
      assert id in before && before[id].status.Confirmed? && Run(map[], es)[id] == before[id] by {
        if !(id in before && before[id].status.Confirmed?) { BecomesConfirmed(before, es[n], id); }
      }
      k := ContextWasConfirmed(es[..n], id);
      assert es[..n][..k] == es[..k];
    }
  }

  // ----- The life of one source -----

  function Lookup(catalog: Catalog, id: string): Option<Entry> {
    if id in catalog then Some(catalog[id]) else None
  }

  // An update replaces everything of a live entry. What claims to be confirmed is only suggested if it
  // is new, and has to be confirmed again if its version has changed.
  function Lived(before: Option<Entry>, e: Event): Option<Entry> {
    if before.Some? && before.value.status == Tombstone then
      if e.Delete? then Some(before.value.(title := None, body := None, ruleKey := None, expiresAt := Never)) else before
    else
      match e
      case Upsert(_, entry) =>
        if entry.status != Confirmed then Some(entry)
        else if before.None? then Some(entry.(status := Suggested))
        else if before.value.sourceVersion == entry.sourceVersion then Some(entry)
        else Some(entry.(status := NeedsReconfirmation))
      case Confirm(_) =>
        if before.Some? && before.value.status !in {Expired, Archived, Revoked} then Some(before.value.(status := Confirmed)) else before
      case Delete(_) =>
        if before.None? then None
        else Some(before.value.(status := Tombstone, title := None, body := None, ruleKey := None, expiresAt := Never))
  }

  function LifeOf(catalog: Catalog, es: seq<Event>, id: string): Option<Entry> {
    if es == [] then Lookup(catalog, id)
    else
      var before := LifeOf(catalog, es[..|es| - 1], id);
      if es[|es| - 1].id == id then Lived(before, es[|es| - 1]) else before
  }

  // In every run each source lives by the operations on it alone.
  lemma {:induction false} SourcesLiveApart(catalog: Catalog, es: seq<Event>, id: string)
    ensures Lookup(Run(catalog, es), id) == LifeOf(catalog, es, id)
  {
    if es != [] { SourcesLiveApart(catalog, es[..|es| - 1], id); }
  }

  // A deleted source keeps nothing of its content, through every later run.
  lemma DeletionErases(catalog: Catalog, id: string, es: seq<Event>)
    requires id in catalog
    ensures var t := Run(Next(catalog, Delete(id)), es);
            && id in t && t[id].status == Tombstone
            && t[id].title.None? && t[id].body.None? && t[id].ruleKey.None? && t[id].expiresAt == Never
  {
    TombstoneStays(Next(catalog, Delete(id)), es, id);
  }

  // A context holds exactly the confirmed entries that are the caller's own or of a repository of the
  // caller's, up to their expiry.
  lemma ContextExactly(catalog: Catalog, id: string, repositories: set<string>, now: Option<int>)
    ensures InContext(catalog, id, repositories, now) <==>
              && id in catalog && catalog[id].status == Confirmed
              && (catalog[id].repositoryId.Some? ==> catalog[id].repositoryId.value in repositories)
              && (catalog[id].repositoryId.None? ==> catalog[id].scope == Personal)
              && (catalog[id].expiresAt.At? && now.Some? ==> now.value < catalog[id].expiresAt.millis)
  {
  }

  // ----- Restoring a backup -----

  function Restored(backup: Catalog, provided: seq<string>): Catalog {
    map id | id in backup :: if id in provided then Buried(backup[id]) else backup[id]
  }

  // Reads open exactly when every expected deletion is among those handed in; those entries are
  // then erased and nothing else has changed.
  method RestoreBackup(backup: Catalog, provided: seq<string>, expected: seq<string>) returns (catalog: Catalog, readsOpen: bool)
    ensures readsOpen <==> forall id | id in expected :: id in provided
    ensures !readsOpen ==> catalog == backup
    ensures readsOpen ==> catalog == Restored(backup, provided)
  {
    for i := 0 to |expected|
      invariant forall j | 0 <= j < i :: expected[j] in provided
    {
      if expected[i] !in provided { return backup, false; }
    }
    catalog := backup;
    for i := 0 to |provided|
      invariant catalog == Restored(backup, provided[..i])
    {
      assert forall id :: id in provided[..i + 1] <==> id in provided[..i] || id == provided[i];
      catalog := Deleted(catalog, provided[i]);
    }
    assert provided[..|provided|] == provided;
    readsOpen := true;
  }

  ghost predicate HiddenForGood(catalog: Catalog, id: string) {
    forall es: seq<Event>, repositories: set<string>, now: Option<int> ::
      !InContext(Run(catalog, es), id, repositories, now)
  }

  // A source deleted after the restore point stays out of every context, through every later run,
  // exactly when the backup knew it: of a source created after the backup no tombstone is kept.
  lemma DeletionSurvivesRestore(backup: Catalog, provided: seq<string>, id: string)
    requires id in provided
    ensures HiddenForGood(Restored(backup, provided), id) <==> id in backup
  {
    var catalog := Restored(backup, provided);
    if id in backup {
      forall es: seq<Event>, repositories: set<string>, now: Option<int>
        ensures !InContext(Run(catalog, es), id, repositories, now)
      {
        TombstoneStays(catalog, es, id);
      }
    } else {
      var entry := Entry(Suggested, Personal, None, None, None, None, "", Never);
      var es := [Upsert(id, entry), Confirm(id)];
      assert es[..1][..0] == [] && es[..2] == es;
      assert Run(catalog, es[..1]) == Upserted(catalog, id, entry);
      assert InContext(Run(catalog, es), id, {}, None);
    }
  }
}
