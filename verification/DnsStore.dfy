// Custom DNS records on a UniFi controller: upsert and delete read the list, look for a record of
// the same name and type up to case and blanks, and write at most once.

module DnsStore {
  import opened Wrappers
  import opened Text

  /** A record as the controller returns it; anything may be missing, and other fields are kept. */
  datatype Raw = Raw(
    id: Option<string>, key: Option<string>, recordType: Option<string>, value: Option<string>,
    enabled: Option<bool>, others: map<string, string>)

  /** What a record is found by. */
  datatype Slot = Slot(key: string, recordType: string)

  /** What a record says, with the defaults of `normalizeRecord`. */
  datatype Entry = Entry(value: string, enabled: bool)

  function OrElse(s: Option<string>, default: string): string {
    if s.Some? then s.value else default
  }

  function SlotFor(key: string, recordType: string): Slot {
    Slot(Lower(Trim(key)), Upper(Trim(recordType)))
  }

  function SlotOf(r: Raw): Slot {
    SlotFor(OrElse(r.key, ""), OrElse(r.recordType, "A"))
  }

  function EntryOf(r: Raw): Entry {
    Entry(OrElse(r.value, ""), if r.enabled.Some? then r.enabled.value else true)
  }

  predicate HasId(r: Raw) {
    r.id.Some? && r.id.value != ""
  }

  function Find(records: seq<Raw>, slot: Slot): Option<Raw> {
    if records == [] then None else if SlotOf(records[0]) == slot then Some(records[0]) else Find(records[1..], slot)
  }

  /** The store read as a map. */
  function Lookup(records: seq<Raw>, slot: Slot): Option<Entry> {
    var r := Find(records, slot);
    if r.Some? then Some(EntryOf(r.value)) else None
  }

  // ---------- The controller's side ----------

  function Replaced(records: seq<Raw>, id: string, body: Raw): seq<Raw> {
    if records == [] then []
    else [if records[0].id == Some(id) then body else records[0]] + Replaced(records[1..], id, body)
  }

  function Removed(records: seq<Raw>, id: string): seq<Raw> {
    if records == [] then []
    else if records[0].id == Some(id) then Removed(records[1..], id)
    else [records[0]] + Removed(records[1..], id)
  }

  function FirstWithId(records: seq<Raw>, id: string): Option<Raw> {
    if records == [] then None
    else if records[0].id == Some(id) then Some(records[0])
    else FirstWithId(records[1..], id)
  }

  /** No two records share a slot, and no two of those that have an id share it. */
  predicate Distinct(records: seq<Raw>) {
    records == [] ||
    (&& (forall r | r in records[1..] :: (HasId(r) ==> r.id != records[0].id) && SlotOf(r) != SlotOf(records[0]))
     && Distinct(records[1..]))
  }

  predicate IdsPresent(records: seq<Raw>) {
    forall r | r in records :: HasId(r)
  }

  // ---------- The model's side ----------

  function Body(base: Raw, key: string, recordType: string, value: string, enabled: bool): Raw {
    base.(key := Some(key), recordType := Some(recordType), value := Some(value), enabled := Some(enabled))
  }

  const BLANK := Raw(None, None, None, None, None, map[])

  /** The records after an upsert; `id` is the one the controller would give a new record. */
  function Upserted(records: seq<Raw>, id: string, key: string, recordType: string, value: string, enabled: bool)
    : seq<Raw>
  {
    var kind := Upper(recordType);
    var existing := Find(records, SlotFor(key, kind));
    if existing.Some? && HasId(existing.value) then
      var base := FirstWithId(records, existing.value.id.value);
      Replaced(records, existing.value.id.value,
               Body(if base.Some? then base.value else BLANK, key, kind, value, enabled))
    else records + [Body(BLANK, key, kind, value, enabled).(id := Some(id))]
  }

  function Deleted(records: seq<Raw>, key: string, recordType: string): seq<Raw> {
    var existing := Find(records, SlotFor(key, Upper(recordType)));
    if existing.Some? && HasId(existing.value) then Removed(records, existing.value.id.value) else records
  }

  class Controller {
    var records: seq<Raw>

    constructor (rs: seq<Raw>)
      ensures records == rs
    {
      records := rs;
    }

    method Put(id: string, body: Raw)
      modifies this
      ensures records == Replaced(old(records), id, body)
    {
      records := Replaced(records, id, body);
    }

    method Post(id: string, body: Raw)
      modifies this
      ensures records == old(records) + [body.(id := Some(id))]
    {
      records := records + [body.(id := Some(id))];
    }

    method Remove(id: string)
      modifies this
      ensures records == Removed(old(records), id)
    {
      records := Removed(records, id);
    }
  }

  method FindExisting(records: seq<Raw>, slot: Slot) returns (r: Option<Raw>)
    ensures r == Find(records, slot)
  {
    for i := 0 to |records|
      invariant Find(records, slot) == Find(records[i..], slot)
    {
      if SlotOf(records[i]) == slot {
        return Some(records[i]);
      }
      assert records[i..][1..] == records[i + 1..];
    }
    r := None;
  }

  method UpsertRecord(c: Controller, freshId: string, key: string, recordType: string, value: string, enabled: bool)
    modifies c
    ensures c.records == Upserted(old(c.records), freshId, key, recordType, value, enabled)
  {
    var kind := Upper(recordType);
    var listed := c.records;
    var existing := FindExisting(listed, SlotFor(key, kind));
    if existing.Some? && HasId(existing.value) {
      var id := existing.value.id.value;
      var base := FirstWithId(listed, id);
      c.Put(id, Body(if base.Some? then base.value else BLANK, key, kind, value, enabled));
    } else {
      c.Post(freshId, Body(BLANK, key, kind, value, enabled));
    }
  }

  method DeleteRecord(c: Controller, key: string, recordType: string)
    modifies c
    ensures c.records == Deleted(old(c.records), key, recordType)
  {
    var existing := FindExisting(c.records, SlotFor(key, Upper(recordType)));
    if existing.Some? && HasId(existing.value) {
      c.Remove(existing.value.id.value);
    }
  }

  // ---------- Refinement of a map ----------

  /** Two texts that are the same but for the white space around them and the case of their letters. */
  predicate Same(a: string, b: string) {
    UpToCase(Trim(a), Trim(b))
  }

  /**
   * A record is found by key and type up to case and surrounding blanks; one without a type counts as A,
   * and one that does not say so is enabled.
   */
  lemma SlotExactly(r: Raw, key: string, recordType: string)
    ensures SlotOf(r) == SlotFor(key, recordType) <==>
            && Same(if r.key.Some? then r.key.value else "", key)
            && Same(if r.recordType.Some? then r.recordType.value else "A", recordType)
    ensures EntryOf(r).enabled <==> r.enabled != Some(false)
    ensures if r.value.None? then EntryOf(r).value == "" else Some(EntryOf(r).value) == r.value
  {
    FoldingIsUpToCase(Trim(OrElse(r.key, "")), Trim(key));
    FoldingIsUpToCase(Trim(OrElse(r.recordType, "A")), Trim(recordType));
  }

  lemma {:induction false} FindIsHeld(records: seq<Raw>, slot: Slot)
    ensures Find(records, slot).Some? <==> exists r | r in records :: SlotOf(r) == slot
    ensures Find(records, slot).Some? ==>
              Find(records, slot).value in records && SlotOf(Find(records, slot).value) == slot
  {
    if records != [] {
      FindIsHeld(records[1..], slot);
      assert records == [records[0]] + records[1..];
    }
  }

  lemma {:induction false} IdFindsItself(records: seq<Raw>, r: Raw)
    requires Distinct(records) && r in records && HasId(r)
    ensures FirstWithId(records, r.id.value) == Some(r)
  {
    if r != records[0] {
      IdFindsItself(records[1..], r);
    }
  }

  lemma {:induction false} ReplacedAbsent(records: seq<Raw>, id: string, body: Raw)
    requires forall r | r in records :: r.id != Some(id)
    ensures Replaced(records, id, body) == records
  {
    if records != [] {
      ReplacedAbsent(records[1..], id, body);
    }
  }

  /** Replacing one record by one of the same id and slot changes that slot and nothing else. */
  lemma {:induction false} ReplacedLookup(records: seq<Raw>, r: Raw, body: Raw, slot: Slot)
    requires Distinct(records) && r in records && HasId(r) && body.id == r.id && SlotOf(body) == SlotOf(r)
    ensures var t := Replaced(records, r.id.value, body);
            && Distinct(t)
            && Find(t, slot) == (if slot == SlotOf(r) then Some(body) else Find(records, slot))
            && (forall x | x in t :: x == body || (x in records && x != r))
            && (forall x | x in records && x != r :: x in t)
  {
    if records[0] == r {
      ReplacedAbsent(records[1..], r.id.value, body);
      assert Replaced(records, r.id.value, body) == [body] + records[1..];
    } else {
      ReplacedLookup(records[1..], r, body, slot);
      FindIsHeld(records[1..], SlotOf(r));
      assert records[0].id != r.id;
    }
  }

  lemma {:induction false} AppendedLookup(records: seq<Raw>, r: Raw, slot: Slot)
    ensures Find(records + [r], slot) ==
            if Find(records, slot).Some? then Find(records, slot) else if SlotOf(r) == slot then Some(r) else None
    ensures Distinct(records + [r]) <==>
            Distinct(records) && forall x | x in records :: (HasId(r) ==> x.id != r.id) && SlotOf(x) != SlotOf(r)
  {
    if records != [] {
      assert (records + [r])[1..] == records[1..] + [r];
      AppendedLookup(records[1..], r, slot);
      assert records == [records[0]] + records[1..];
    }
  }

  lemma {:induction false} RemovedAbsent(records: seq<Raw>, id: string)
    requires forall r | r in records :: r.id != Some(id)
    ensures Removed(records, id) == records
  {
    if records != [] {
      RemovedAbsent(records[1..], id);
    }
  }

  lemma {:induction false} RemovedLookup(records: seq<Raw>, r: Raw, slot: Slot)
    requires Distinct(records) && r in records && HasId(r)
    ensures var t := Removed(records, r.id.value);
            && Distinct(t)
            && Find(t, slot) == (if slot == SlotOf(r) then None else Find(records, slot))
            && (forall x :: x in t <==> x in records && x != r)
  {
    if records[0] == r {
      RemovedAbsent(records[1..], r.id.value);
      FindIsHeld(records[1..], slot);
    } else {
      RemovedLookup(records[1..], r, slot);
      assert records == [records[0]] + records[1..];
    }
  }

  lemma {:induction false} ReplacedByItself(records: seq<Raw>, r: Raw)
    requires Distinct(records) && r in records && HasId(r)
    ensures Replaced(records, r.id.value, r) == records
  {
    if records[0] == r {
      ReplacedAbsent(records[1..], r.id.value, r);
    } else {
      ReplacedByItself(records[1..], r);
    }
  }

  /**
   * On a store with distinct ids and slots, an upsert is a map update that keeps the store
   * distinct, every other record and every other field of its own as they were, and a second upsert of
   * the same changes nothing.
   */
  lemma UpsertRefinesUpdate(records: seq<Raw>, id: string, key: string, recordType: string, value: string,
                            enabled: bool, other: Slot, id2: string)
    requires Distinct(records) && id != "" && forall r | r in records :: r.id != Some(id)
    requires var existing := Find(records, SlotFor(key, Upper(recordType))); existing.None? || HasId(existing.value)
    ensures var t := Upserted(records, id, key, recordType, value, enabled);
            var slot := SlotFor(key, Upper(recordType));
            var existing := Find(records, slot);
            && Lookup(t, slot) == Some(Entry(value, enabled))
            && Find(t, slot) == Some(
                 if existing.Some?
                 then existing.value.(key := Some(key), recordType := Some(Upper(recordType)), value := Some(value),
                                      enabled := Some(enabled))
                 else Raw(Some(id), Some(key), Some(Upper(recordType)), Some(value), Some(enabled), map[]))
            && (other != slot ==> Find(t, other) == Find(records, other))
            && Distinct(t) && (IdsPresent(records) ==> IdsPresent(t))
            && Upserted(t, id2, key, recordType, value, enabled) == t
  {
    var kind := Upper(recordType);
    var slot := SlotFor(key, kind);
    var t := Upserted(records, id, key, recordType, value, enabled);
    var existing := Find(records, slot);
    FindIsHeld(records, slot);
    if existing.Some? {
      var r := existing.value;
      IdFindsItself(records, r);
      ReplacedLookup(records, r, Body(r, key, kind, value, enabled), slot);
      ReplacedLookup(records, r, Body(r, key, kind, value, enabled), other);
    } else {
      var body := Body(BLANK, key, kind, value, enabled).(id := Some(id));
      AppendedLookup(records, body, slot);
      AppendedLookup(records, body, other);
    }
    var now := Find(t, slot).value;
    FindIsHeld(t, slot);
    IdFindsItself(t, now);
    ReplacedByItself(t, now);
    assert Body(now, key, kind, value, enabled) == now;
  }

  lemma {:induction false} SlotIsHeldOnce(records: seq<Raw>, r: Raw)
    requires Distinct(records) && r in records
    ensures Find(records, SlotOf(r)) == Some(r)
  {
    if r != records[0] {
      SlotIsHeldOnce(records[1..], r);
    }
  }

  /**
   * A delete is a map removal exactly when the record it finds, if any, has an id; without one it
   * silently keeps the record. Either way every other record stays, and done twice is done once.
   */
  lemma DeleteRefinesRemoval(records: seq<Raw>, key: string, recordType: string, other: Slot)
    requires Distinct(records)
    ensures var t := Deleted(records, key, recordType);
            var slot := SlotFor(key, Upper(recordType));
            var existing := Find(records, slot);
            && (Lookup(t, slot) == None <==> existing.None? || existing.value.id !in {None, Some("")})
            && (other != slot ==> Find(t, other) == Find(records, other))
            && Distinct(t)
            && (forall r | r in records && SlotOf(r) != slot :: r in t)
            && (forall r | r in t :: r in records && (SlotOf(r) != slot || r.id in {None, Some("")}))
            && Deleted(t, key, recordType) == t
  {
    var slot := SlotFor(key, Upper(recordType));
    FindIsHeld(records, slot);
    forall r | r in records && SlotOf(r) == slot
      ensures Find(records, slot) == Some(r)
    {
      SlotIsHeldOnce(records, r);
    }
    if Find(records, slot).Some? && HasId(Find(records, slot).value) {
      var r := Find(records, slot).value;
      RemovedLookup(records, r, slot);
      RemovedLookup(records, r, other);
      FindIsHeld(Deleted(records, key, recordType), slot);
    }
  }

  lemma {:induction false} RemovedAppended(records: seq<Raw>, body: Raw, id: string)
    requires body.id == Some(id) && forall r | r in records :: r.id != Some(id)
    ensures Removed(records + [body], id) == records
  {
    if records == [] {
      assert [body][1..] == [];
    } else {
      assert (records + [body])[1..] == records[1..] + [body];
      RemovedAppended(records[1..], body, id);
    }
  }

  /** Deleting what was just created leaves the store as it was. */
  lemma DeleteUndoesCreate(records: seq<Raw>, id: string, key: string, recordType: string, value: string, enabled: bool)
    requires Distinct(records) && id != "" && forall r | r in records :: r.id != Some(id)
    requires Find(records, SlotFor(key, Upper(recordType))).None?
    ensures Deleted(Upserted(records, id, key, recordType, value, enabled), key, recordType) == records
  {
    var body := Body(BLANK, key, Upper(recordType), value, enabled).(id := Some(id));
    AppendedLookup(records, body, SlotOf(body));
    RemovedAppended(records, body, id);
  }

  /**
   * Ids are needed: with slots and ids otherwise distinct, an upsert keeps slots distinct exactly
   * when the record it finds, if any, has an id. Otherwise it posts a second record for the slot.
   */
  lemma UpsertNeedsTheId(records: seq<Raw>, id: string, key: string, recordType: string, value: string, enabled: bool)
    requires Distinct(records) && forall r | r in records :: r.id != Some(id)
    ensures var existing := Find(records, SlotFor(key, Upper(recordType)));
            Distinct(Upserted(records, id, key, recordType, value, enabled)) <==>
            existing.None? || existing.value.id !in {None, Some("")}
  {
    var slot := SlotFor(key, Upper(recordType));
    var existing := Find(records, slot);
    FindIsHeld(records, slot);
    if existing.Some? && HasId(existing.value) {
      IdFindsItself(records, existing.value);
      ReplacedLookup(records, existing.value, Body(existing.value, key, Upper(recordType), value, enabled), slot);
    } else {
      AppendedLookup(records, Body(BLANK, key, Upper(recordType), value, enabled).(id := Some(id)), slot);
    }
  }
}
