/**
 Long-term memory: entries, the history of each of them, the full-text index, and
 the keys that make an append idempotent.  A content hash stands for its content.
 */
module MemoryStore {
  import opened Options
  import opened Texts

  datatype Scope = Scope(profile: string, subject: string)

  datatype Meta = Meta(kind: string, trust: string, run: Option<string>, session: Option<string>, message: Option<string>)

  datatype MemoryWrite = MemoryWrite(content: string, meta: Meta, entryId: Option<string>)

  // A replacement by a whole write, or of the content with what is given beside it.
  datatype Edit =
    | Full(write: MemoryWrite)
    | ContentOnly(content: string, kind: Option<string>, trust: Option<string>,
                  run: Option<Option<string>>, session: Option<Option<string>>, message: Option<Option<string>>)

  datatype Entry = Entry(
    scope: Scope, content: string, meta: Meta, createdAt: int, updatedAt: int,
    revision: nat, blocked: Option<string>, tombstoned: bool)

  datatype Operation = Append | Replace | Tombstone

  datatype Revision = Revision(entry: Entry, operation: Operation)

  datatype RevisionKey = RevisionKey(id: string, revision: nat)

  datatype IndexRow = IndexRow(id: string, scope: Scope, content: string)

  datatype IdempotencyRow = IdempotencyRow(entryId: string, scope: Scope, write: MemoryWrite)

  datatype Error = NotFound | Conflict | Invalid

  function OrElse<T>(value: Option<T>, default: T): T {
    if value.Some? then value.value else default
  }

  function EditedContent(edit: Edit): string {
    match edit
    case Full(write) => write.content
    case ContentOnly(content, _, _, _, _, _) => content
  }

  function EditedMeta(current: Meta, edit: Edit): Meta {
    match edit
    case Full(write) => write.meta
    case ContentOnly(_, kind, trust, run, session, message) =>
      Meta(OrElse(kind, current.kind), OrElse(trust, current.trust), OrElse(run, current.run),
           OrElse(session, current.session), OrElse(message, current.message))
  }

  // --- the index ---

  // The row an entry should have in the index, if any.
  predicate Indexed(entry: Entry) {
    !entry.tombstoned && entry.blocked.None?
  }

  function RowOf(id: string, entry: Entry): IndexRow {
    IndexRow(id, entry.scope, entry.content)
  }

  // The row is the current one of an entry that should be indexed.
  predicate OwnRow(entries: map<string, Entry>, row: IndexRow) {
    row.id in entries && Indexed(entries[row.id]) && row == RowOf(row.id, entries[row.id])
  }

  function Without(index: seq<IndexRow>, id: string): seq<IndexRow> {
    if index == [] then []
    else
      var rest, last := Without(index[..|index| - 1], id), index[|index| - 1];
      if last.id == id then rest else rest + [last]
  }

  // No entry is indexed twice.
  predicate Distinct(index: seq<IndexRow>) {
    forall i, j | 0 <= i < j < |index| :: index[i].id != index[j].id
  }

  // The index is the active entries that are not blocked, with their current content.
  predicate IndexIsExact(entries: map<string, Entry>, index: seq<IndexRow>) {
    && Distinct(index)
    && (forall row <- index :: OwnRow(entries, row))
    && (forall id <- entries :: Indexed(entries[id]) ==> RowOf(id, entries[id]) in index)
  }

  lemma {:induction false} WithoutHas(index: seq<IndexRow>, id: string, row: IndexRow)
    ensures row in Without(index, id) <==> row in index && row.id != id
  {
    if index != [] {
      WithoutHas(index[..|index| - 1], id, row);
      assert index == index[..|index| - 1] + [index[|index| - 1]];
    }
  }

  lemma {:induction false} WithoutIsDistinct(index: seq<IndexRow>, id: string)
    requires Distinct(index)
    ensures Distinct(Without(index, id))
  {
    if index != [] {
      var rest, last := index[..|index| - 1], index[|index| - 1];
      WithoutIsDistinct(rest, id);
      forall row ensures row in Without(rest, id) ==> row.id != last.id {
        WithoutHas(rest, id, row);
        if row in rest {
          var i :| 0 <= i < |rest| && rest[i] == row;
          assert index[i].id != index[|rest|].id;
        }
      }
      assert forall i | 0 <= i < |Without(rest, id)| :: Without(rest, id)[i] in Without(rest, id);
    }
  }

  // The index after an entry was written: its old row goes, its new one comes.
  function Reindexed(index: seq<IndexRow>, id: string, entry: Entry): seq<IndexRow> {
    if Indexed(entry) then Without(index, id) + [RowOf(id, entry)] else Without(index, id)
  }

  lemma ReindexedIsExact(entries: map<string, Entry>, index: seq<IndexRow>, id: string, entry: Entry)
    requires IndexIsExact(entries, index)
    ensures IndexIsExact(entries[id := entry], Reindexed(index, id, entry))
  {
    var left := Without(index, id);
    WithoutIsDistinct(index, id);
    forall row ensures row in left <==> row in index && row.id != id { WithoutHas(index, id, row); }
    assert forall i | 0 <= i < |left| :: left[i] in left;
  }

  // --- the history ---

  // Each entry has revisions one to its own, the last of which it is.
  ghost predicate HistoryIsComplete(entries: map<string, Entry>, revisions: map<RevisionKey, Revision>) {
    && (forall id <- entries :: entries[id].revision >= 1)
    && (forall key :: key in revisions <==> key.id in entries && 1 <= key.revision <= entries[key.id].revision)
    && (forall id <- entries :: revisions[RevisionKey(id, entries[id].revision)].entry == entries[id])
  }

  lemma RevisionKeeps(entries: map<string, Entry>, revisions: map<RevisionKey, Revision>, id: string, entry: Entry,
                      operation: Operation)
    requires HistoryIsComplete(entries, revisions)
    requires entry.revision == 1 + if id in entries then entries[id].revision else 0
    ensures RevisionKey(id, entry.revision) !in revisions
    ensures HistoryIsComplete(entries[id := entry], revisions[RevisionKey(id, entry.revision) := Revision(entry, operation)])
  {
  }

  // --- opening the store ---

  predicate InIndex(index: seq<IndexRow>, id: string) {
    exists row <- index :: row.id == id
  }

  // No row of the index is out of date.
  predicate NoStaleRow(entries: map<string, Entry>, index: seq<IndexRow>) {
    Distinct(index) && forall row <- index :: OwnRow(entries, row)
  }

  // What opening with the index enabled leads to: missing rows are added.
  predicate Reopened(entries: map<string, Entry>, before: seq<IndexRow>, after: seq<IndexRow>) {
    && before <= after && (Distinct(before) ==> Distinct(after))
    && (forall row <- after :: row in before || OwnRow(entries, row))
    && (forall id <- entries :: Indexed(entries[id]) ==> InIndex(after, id))
  }

  /** Opening the store repairs the index exactly if no row of it is out of date:
      entries appended while the index was off are added, but replaced or removed
      ones stay as they were indexed. */
  lemma ReopeningRepairs(entries: map<string, Entry>, before: seq<IndexRow>, after: seq<IndexRow>)
    requires Reopened(entries, before, after)
    ensures IndexIsExact(entries, after) <==> NoStaleRow(entries, before)
  {
    if IndexIsExact(entries, after) {
      assert forall i | 0 <= i < |before| :: before[i] == after[i] && after[i] in after;
    }
    if NoStaleRow(entries, before) {
      forall id <- entries | Indexed(entries[id]) ensures RowOf(id, entries[id]) in after {
        var row :| row in after && row.id == id;
        assert row == RowOf(id, entries[id]);
      }
    }
  }

  /** One write while the index is off leaves it exact after opening with it on,
      exactly if it kept what is indexed of an entry that was indexed; a new or a
      blocked entry cannot make it wrong. */
  lemma IndexGoesStale(entries: map<string, Entry>, index: seq<IndexRow>, id: string, entry: Entry, after: seq<IndexRow>)
    requires IndexIsExact(entries, index) && Reopened(entries[id := entry], index, after)
    ensures IndexIsExact(entries[id := entry], after) <==>
              (id in entries && Indexed(entries[id]) ==> Indexed(entry) && RowOf(id, entry) == RowOf(id, entries[id]))
  {
    ReopeningRepairs(entries[id := entry], index, after);
    if id in entries && Indexed(entries[id]) { assert RowOf(id, entries[id]) in index; }
  }

  predicate EntriesEvolve(before: map<string, Entry>, after: map<string, Entry>) {
    forall id <- before :: id in after && after[id].scope == before[id].scope && after[id].createdAt == before[id].createdAt
                           && (before[id].tombstoned ==> after[id] == before[id])
  }

  predicate Kept<K, V(==)>(before: map<K, V>, after: map<K, V>) {
    forall k <- before :: k in after && after[k] == before[k]
  }

  lemma PutEvolves(entries: map<string, Entry>, revisions: map<RevisionKey, Revision>, id: string, entry: Entry,
                   key: RevisionKey, revision: Revision)
    requires id in entries ==> entry.scope == entries[id].scope && entry.createdAt == entries[id].createdAt && !entries[id].tombstoned
    requires key !in revisions
    ensures EntriesEvolve(entries, entries[id := entry]) && Kept(revisions, revisions[key := revision])
  {
  }

  class Store {
    const scan: string -> Option<string>
    var entries: map<string, Entry>
    var revisions: map<RevisionKey, Revision>
    var index: seq<IndexRow>
    var generation: nat
    var keys: map<string, IdempotencyRow>
    var indexing: bool
    // Whether the index has been on for every write.
    ghost var alwaysIndexed: bool

    ghost predicate Valid()
      reads this
    {
      && HistoryIsComplete(entries, revisions)
      && generation == |revisions|
      && (forall k <- keys :: keys[k].entryId in entries && entries[keys[k].entryId].scope == keys[k].scope)
      && (alwaysIndexed ==> IndexIsExact(entries, index))
    }

    // What is never undone: scopes, revisions, tombstones and keys.
    twostate predicate Evolved()
      reads this
    {
      && EntriesEvolve(old(entries), entries) && Kept(old(revisions), revisions) && Kept(old(keys), keys)
      && old(generation) <= generation
    }

    constructor (scan: string -> Option<string>, indexing: bool)
      ensures Valid() && entries == map[] && index == [] && keys == map[] && generation == 0 && alwaysIndexed
      ensures this.scan == scan && this.indexing == indexing
    {
      this.scan, this.indexing := scan, indexing;
      entries, revisions, index, generation, keys, alwaysIndexed := map[], map[], [], 0, map[], true;
    }

    // Opening an existing database again, with the index on or off.
    method Reopen(enable: bool)
      requires Valid()
      modifies `index, `indexing
      ensures Valid() && indexing == enable
      ensures if enable then Reopened(entries, old(index), index) else index == old(index)
    {
      hide HistoryIsComplete, IndexIsExact, Distinct, InIndex, OwnRow;
      indexing := enable;
      if !enable { return; }
      ghost var before := index;
      if alwaysIndexed { NothingMissing(entries, index); }
      MissingRows(entries, index);
      var todo := set id <- entries | !entries[id].tombstoned && entries[id].blocked.None? && forall row <- index :: row.id != id;
      while todo != {}
        invariant indexing == enable && before <= index && (Distinct(before) ==> Distinct(index))
        invariant forall row <- index :: row in before || OwnRow(entries, row)
        invariant forall id <- todo :: id in entries && Indexed(entries[id]) && !InIndex(index, id)
        invariant forall id <- entries :: Indexed(entries[id]) ==> id in todo || InIndex(index, id)
        invariant alwaysIndexed ==> todo == {} && index == before
        decreases |todo|
      {
        var id :| id in todo;
        AddRow(entries, before, index, todo, id);
        todo := todo - {id};
        index := index + [IndexRow(id, entries[id].scope, entries[id].content)];
      }
    }

    // The entries to be added, and the rows that are there.
    lemma MissingRows(entries: map<string, Entry>, index: seq<IndexRow>)
      ensures forall id <- entries :: (forall row <- index :: row.id != id) <==> !InIndex(index, id)
    {
    }

    lemma NothingMissing(entries: map<string, Entry>, index: seq<IndexRow>)
      requires IndexIsExact(entries, index)
      ensures forall id <- entries :: Indexed(entries[id]) ==> exists row <- index :: row.id == id
    {
      forall id <- entries | Indexed(entries[id]) ensures exists row <- index :: row.id == id {
        assert RowOf(id, entries[id]) in index;
      }
    }

    lemma AddRow(entries: map<string, Entry>, before: seq<IndexRow>, index: seq<IndexRow>, todo: set<string>, id: string)
      requires id in todo && id in entries && Indexed(entries[id]) && !InIndex(index, id)
      requires forall x <- todo :: x in entries && Indexed(entries[x]) && !InIndex(index, x)
      requires forall row <- index :: row in before || OwnRow(entries, row)
      ensures var grown := index + [RowOf(id, entries[id])];
              && (Distinct(index) ==> Distinct(grown))
              && (forall row <- grown :: row in before || OwnRow(entries, row))
              && (forall x <- todo :: x != id ==> !InIndex(grown, x))
              && (forall x :: InIndex(index, x) ==> InIndex(grown, x)) && InIndex(grown, id)
    {
      var grown := index + [RowOf(id, entries[id])];
      assert forall row :: row in grown <==> row in index || row == RowOf(id, entries[id]);
      assert forall i | 0 <= i < |index| :: index[i] in index;
      assert RowOf(id, entries[id]) in grown;
      forall x | InIndex(index, x) ensures InIndex(grown, x) {
        var row :| row in index && row.id == x;
        assert row in grown;
      }
    }

    // One write in a transaction: the entry, its revision, its row in the index and
    // the generation counter change together.
    method Put(id: string, entry: Entry, operation: Operation)
      requires Valid() && entry.revision == 1 + (if id in entries then entries[id].revision else 0)
      requires id in entries ==> entry.scope == entries[id].scope && entry.createdAt == entries[id].createdAt && !entries[id].tombstoned
      modifies `entries, `revisions, `index, `generation, `alwaysIndexed
      ensures Valid() && Evolved()
      ensures entries == old(entries)[id := entry]
      ensures RevisionKey(id, entry.revision) !in old(revisions)
      ensures revisions == old(revisions)[RevisionKey(id, entry.revision) := Revision(entry, operation)]
      ensures generation == old(generation) + 1
      ensures index == if indexing then Reindexed(old(index), id, entry) else old(index)
      ensures alwaysIndexed == (old(alwaysIndexed) && indexing)
    {
      hide HistoryIsComplete, IndexIsExact, Reindexed;
      RevisionKeeps(entries, revisions, id, entry, operation);
      PutEvolves(entries, revisions, id, entry, RevisionKey(id, entry.revision), Revision(entry, operation));
      if alwaysIndexed { ReindexedIsExact(entries, index, id, entry); }
      entries := entries[id := entry];
      revisions := revisions[RevisionKey(id, entry.revision) := Revision(entry, operation)];
      if indexing { index := Reindexed(index, id, entry); }
      generation := generation + 1;
      alwaysIndexed := alwaysIndexed && indexing;
    }

    function NewEntry(scope: Scope, write: MemoryWrite, now: int): Entry {
      Entry(scope, write.content, write.meta, now, now, 1, scan(write.content), false)
    }

    // An append writes a new entry, or conflicts; `created` is the identifier a
    // write without one is given.
    method AppendInTransaction(scope: Scope, write: MemoryWrite, created: string, now: int)
      returns (error: Option<Error>, id: string)
      requires Valid()
      modifies `entries, `revisions, `index, `generation, `alwaysIndexed
      ensures Valid() && Evolved() && id == OrElse(write.entryId, created)
      ensures error == if id in old(entries) then Some(Conflict) else None
      ensures error.Some? ==> entries == old(entries) && revisions == old(revisions) && index == old(index) && generation == old(generation)
                              && alwaysIndexed == old(alwaysIndexed)
      ensures error.None? ==> entries == old(entries)[id := NewEntry(scope, write, now)] && generation == old(generation) + 1
                              && revisions == old(revisions)[RevisionKey(id, 1) := Revision(NewEntry(scope, write, now), Append)]
                              && index == (if indexing then Reindexed(old(index), id, NewEntry(scope, write, now)) else old(index))
                              && alwaysIndexed == (old(alwaysIndexed) && indexing)
    {
      hide HistoryIsComplete, IndexIsExact, Without, Reindexed;
      id := OrElse(write.entryId, created);
      if id in entries { return Some(Conflict), id; }
      Put(id, NewEntry(scope, write, now), Append);
      return None, id;
    }

    /** Append once per key: the same write under the same key returns the entry it
        created before, whatever has become of it, and changes nothing; another
        write under that key is refused. */
    method AppendIdempotent(scope: Scope, write: MemoryWrite, key: string, created: string, now: int)
      returns (error: Option<Error>, id: string)
      requires Valid()
      modifies `entries, `revisions, `index, `generation, `alwaysIndexed, `keys
      ensures Valid() && Evolved()
      ensures error == if Blank(key) then Some(Invalid)
                       else if key in old(keys) then
                         if old(keys)[key].scope == scope && old(keys)[key].write == write then None else Some(Conflict)
                       else if OrElse(write.entryId, created) in old(entries) then Some(Conflict) else None
      ensures error.Some? || key in old(keys) ==> entries == old(entries) && revisions == old(revisions) && index == old(index)
                                                  && generation == old(generation) && keys == old(keys)
      ensures error.None? && key in old(keys) ==> id == old(keys)[key].entryId && id in entries
      ensures error.None? && key !in old(keys) ==>
                && id == OrElse(write.entryId, created) && keys == old(keys)[key := IdempotencyRow(id, scope, write)]
                && entries == old(entries)[id := NewEntry(scope, write, now)] && generation == old(generation) + 1
                && revisions == old(revisions)[RevisionKey(id, 1) := Revision(NewEntry(scope, write, now), Append)]
                && index == (if indexing then Reindexed(old(index), id, NewEntry(scope, write, now)) else old(index))
    {
      hide HistoryIsComplete, IndexIsExact, Without, Reindexed;
      id := "";
      if Blank(key) { return Some(Invalid), id; }
      if key in keys {
        var row := keys[key];
        if row.scope != scope || row.write != write { return Some(Conflict), id; }
        assert keys[key := row] == keys;
        return None, row.entryId;
      }
      error, id := AppendInTransaction(scope, write, created, now);
      if error.Some? { return; }
      keys := keys[key := IdempotencyRow(id, scope, write)];
    }

    predicate Same(scope: Scope, content: string, id: string)
      reads this
    {
      id in entries && entries[id].scope == scope && entries[id].content == content && !entries[id].tombstoned
    }

    /** Return an equal active value of the scope, the oldest, or append it. */
    method AppendReconciled(scope: Scope, write: MemoryWrite, created: string, now: int)
      returns (error: Option<Error>, id: string, appended: bool)
      requires Valid()
      modifies `entries, `revisions, `index, `generation, `alwaysIndexed
      ensures Valid() && Evolved()
      ensures appended || error.Some? <==>
                forall x <- old(entries) ::
                  old(entries)[x].scope == scope && old(entries)[x].content == write.content ==> old(entries)[x].tombstoned
      ensures error.None? && !appended ==>
                && id in entries && entries[id].scope == scope && entries[id].content == write.content && !entries[id].tombstoned
      ensures (exists x <- old(entries) :: old(Same(scope, write.content, x))) ==>
                error.None? && !appended && old(Same(scope, write.content, id)) && entries == old(entries) && generation == old(generation)
                && forall x <- old(entries) :: old(Same(scope, write.content, x)) ==> old(entries)[id].createdAt <= old(entries)[x].createdAt
      ensures !(exists x <- old(entries) :: old(Same(scope, write.content, x))) ==>
                && id == OrElse(write.entryId, created) && (appended <==> error.None?)
                && error == (if id in old(entries) then Some(Conflict) else None)
      ensures appended ==>
                && entries == old(entries)[id := NewEntry(scope, write, now)] && generation == old(generation) + 1
                && revisions == old(revisions)[RevisionKey(id, 1) := Revision(NewEntry(scope, write, now), Append)]
                && index == (if indexing then Reindexed(old(index), id, NewEntry(scope, write, now)) else old(index))
      ensures !appended ==> entries == old(entries) && revisions == old(revisions) && index == old(index) && generation == old(generation)
    {
      hide HistoryIsComplete, IndexIsExact, Without, Reindexed;
      var found := FindByContent(scope, write.content);
      if found.Some? { return None, found.value, false; }
      error, id := AppendInTransaction(scope, write, created, now);
      appended := error.None?;
    }

    method FindByContent(scope: Scope, content: string) returns (found: Option<string>)
      ensures found.None? ==> forall x <- entries :: !Same(scope, content, x)
      ensures found.Some? ==> Same(scope, content, found.value)
                              && forall x <- entries :: Same(scope, content, x) ==> entries[found.value].createdAt <= entries[x].createdAt
    {
      found := None;
      var todo := entries.Keys;
      while todo != {}
        invariant todo <= entries.Keys
        invariant found.Some? ==> Same(scope, content, found.value)
        invariant forall x <- entries.Keys - todo :: Same(scope, content, x) ==>
                    found.Some? && entries[found.value].createdAt <= entries[x].createdAt
        decreases |todo|
      {
        var x :| x in todo;
        todo := todo - {x};
        if Same(scope, content, x) && (found.None? || entries[x].createdAt < entries[found.value].createdAt) { found := Some(x); }
      }
    }

    // The reader's view of the entry must still be the current one.
    function CheckExpected(entry: Entry, revision: Option<nat>, content: Option<string>): Option<Error> {
      if revision.None? && content.None? then Some(Invalid)
      else if revision.Some? && entry.revision != revision.value then Some(Conflict)
      else if content.Some? && entry.content != content.value then Some(Conflict)
      else None
    }

    function Edited(current: Entry, edit: Edit, now: int): Entry {
      current.(content := EditedContent(edit), meta := EditedMeta(current.meta, edit), updatedAt := now,
               revision := current.revision + 1, blocked := scan(EditedContent(edit)))
    }

    /** Replace an active entry of the scope that is still what the caller saw. */
    method ReplaceEntry(scope: Scope, id: string, edit: Edit, revision: Option<nat>, content: Option<string>, now: int)
      returns (error: Option<Error>)
      requires Valid()
      modifies `entries, `revisions, `index, `generation, `alwaysIndexed
      ensures Valid() && Evolved()
      ensures error == if id !in old(entries) || old(entries)[id].scope != scope || old(entries)[id].tombstoned then Some(NotFound)
                       else if revision.None? && content.None? then Some(Invalid)
                       else if (revision.Some? && revision.value != old(entries)[id].revision)
                               || (content.Some? && content.value != old(entries)[id].content) then Some(Conflict)
                       else if edit.Full? && edit.write.entryId !in {None, Some(id)} then Some(Invalid) else None
      ensures error.Some? ==> entries == old(entries) && revisions == old(revisions) && index == old(index) && generation == old(generation)
      ensures error.None? ==> entries == old(entries)[id := Edited(old(entries)[id], edit, now)] && generation == old(generation) + 1
                              && index == (if indexing then Reindexed(old(index), id, entries[id]) else old(index))
                              && revisions == old(revisions)[RevisionKey(id, entries[id].revision) := Revision(entries[id], Replace)]
    {
      hide HistoryIsComplete, IndexIsExact, Without, Reindexed;
      if id !in entries || entries[id].scope != scope { return Some(NotFound); }
      var current := entries[id];
      if current.tombstoned { return Some(NotFound); }
      error := CheckExpected(current, revision, content);
      if error.Some? { return; }
      if edit.Full? && edit.write.entryId.Some? && edit.write.entryId.value != id { return Some(Invalid); }
      Put(id, Edited(current, edit, now), Replace);
    }

    /** Leave a tombstone; removing a removed entry changes nothing. */
    method RemoveEntry(scope: Scope, id: string, revision: Option<nat>, content: Option<string>, now: int)
      returns (error: Option<Error>)
      requires Valid()
      modifies `entries, `revisions, `index, `generation, `alwaysIndexed
      ensures Valid() && Evolved()
      ensures error == if id !in old(entries) || old(entries)[id].scope != scope then Some(NotFound)
                       else if old(entries)[id].tombstoned then None
                       else if revision.None? && content.None? then Some(Invalid)
                       else if (revision.Some? && revision.value != old(entries)[id].revision)
                               || (content.Some? && content.value != old(entries)[id].content) then Some(Conflict)
                       else None
      ensures error.Some? || old(entries)[id].tombstoned ==>
                entries == old(entries) && revisions == old(revisions) && index == old(index) && generation == old(generation)
      ensures error.None? && !old(entries)[id].tombstoned ==>
                && entries == old(entries)[id := old(entries)[id].(tombstoned := true, updatedAt := now, revision := old(entries)[id].revision + 1)]
                && generation == old(generation) + 1
                && index == (if indexing then Without(old(index), id) else old(index))
                && revisions == old(revisions)[RevisionKey(id, entries[id].revision) := Revision(entries[id], Tombstone)]
    {
      hide HistoryIsComplete, IndexIsExact, Without;
      if id !in entries || entries[id].scope != scope { return Some(NotFound); }
      var current := entries[id];
      if current.tombstoned { return None; }
      error := CheckExpected(current, revision, content);
      if error.Some? { return; }
      Put(id, current.(tombstoned := true, updatedAt := now, revision := current.revision + 1), Tombstone);
    }
  }

  const HOME := Scope("profile", "subject")
  const FACT := Meta("fact", "user", None, None, None)

  /** A store that goes stale: an entry is appended, rewritten while the index is
      off, and the index is not exact after it is on again. */
  method GoStale() returns (store: Store)
    ensures fresh(store) && store.Valid() && store.indexing
    ensures "a" in store.entries && store.entries["a"].content == "new" && IndexRow("a", HOME, "old") in store.index
    ensures !IndexIsExact(store.entries, store.index)
  {
    hide HistoryIsComplete, IndexIsExact, Reindexed, Reopened, EntriesEvolve, Kept;
    store := new Store(_ => None, true);
    var _, _ := store.AppendInTransaction(HOME, MemoryWrite("old", FACT, Some("a")), "", 0);
    OneRow(store.entries["a"]);
    store.Reopen(false);
    var error := store.ReplaceEntry(HOME, "a", ContentOnly("new", None, None, None, None, None), Some(1), None, 1);
    assert error.None?;
    ghost var index := store.index;
    store.Reopen(true);
    RowStays(store.entries, index, store.index, IndexRow("a", HOME, "old"));
    StaleRow(store.entries, store.index);
  }

  lemma RowStays(entries: map<string, Entry>, before: seq<IndexRow>, after: seq<IndexRow>, row: IndexRow)
    requires Reopened(entries, before, after) && before == [row]
    ensures row in after
  {
    assert after[0] == row;
  }

  lemma OneRow(entry: Entry)
    requires Indexed(entry)
    ensures Reindexed([], "a", entry) == [RowOf("a", entry)]
  {
  }

  lemma StaleRow(entries: map<string, Entry>, index: seq<IndexRow>)
    requires "a" in entries && entries["a"].content != "old" && IndexRow("a", HOME, "old") in index
    ensures !IndexIsExact(entries, index)
  {
  }

  // The same, in the tables: the stored row stays, and nothing is missing.
  lemma StaleHappens()
    ensures var was := Entry(HOME, "old", FACT, 0, 0, 1, None, false);
            var now := was.(content := "new", updatedAt := 1, revision := 2);
            var index := [RowOf("a", was)];
            && IndexIsExact(map["a" := was], index)
            && Reopened(map["a" := now], index, index) && !IndexIsExact(map["a" := now], index)
  {
    var was := Entry(HOME, "old", FACT, 0, 0, 1, None, false);
    var now := was.(content := "new", updatedAt := 1, revision := 2);
    assert RowOf("a", was) in [RowOf("a", was)];
    assert InIndex([RowOf("a", was)], "a");
    StaleRow(map["a" := now], [RowOf("a", was)]);
  }
}
