/**
 * The record store of server/services/JsonDbService.js: named collections,
 * each persisted as one JSON array of records, with read-all, add,
 * update-by-id and delete-by-id. Every operation reads the whole collection,
 * changes it in memory and writes the whole collection back.
 *
 * The data directory is the field `files`, from collection name to what its
 * file holds. The disk's behaviour is the field `writable`: when it is false
 * every `writeFile` fails, which the store reports with `false` and
 * otherwise ignores.
 */
module JsonDb {
  import opened Options
  import opened JsValues
  import opened JsArrays

  /** The content of a collection's file: a JSON array, or text that cannot be read or parsed. */
  datatype File = Parsed(records: seq<Record>) | Unreadable

  predicate AllJson(data: seq<Record>) {
    forall i :: 0 <= i < |data| ==> IsJson(data[i])
  }

  /** The records `JSON.stringify(data)` writes: each one without its `undefined` fields. */
  function ToJson(data: seq<Record>): (r: seq<Record>)
    ensures |r| == |data| && AllJson(r)
    ensures forall i :: 0 <= i < |data| ==> r[i] == Normalize(data[i])
  {
    seq(|data|, i requires 0 <= i < |data| => Normalize(data[i]))
  }

  lemma ToJsonOfJson(data: seq<Record>)
    requires AllJson(data)
    ensures ToJson(data) == data
  {
    forall i | 0 <= i < |data| ensures ToJson(data)[i] == data[i] {
      NormalizeJson(data[i]);
    }
  }

  /** Every parsed file holds JSON records. */
  ghost predicate FilesAreJson(files: map<string, File>) {
    forall c :: c in files && files[c].Parsed? ==> AllJson(files[c].records)
  }

  /** What `read(c)` returns: the parsed array, or `[]` when the file is missing or unreadable. */
  function StoredIn(files: map<string, File>, c: string): seq<Record> {
    if c in files && files[c].Parsed? then files[c].records else []
  }

  // ------------------------------------------------------- record-level rules

  predicate HasId(r: Record, id: string) {
    Get(r, "id") == Str(id)
  }

  /** `item => item.id === id` */
  function IdIs(id: string): Record -> bool {
    r => HasId(r, id)
  }

  /** `item => item.id !== id` */
  function IdIsNot(id: string): Record -> bool {
    r => !HasId(r, id)
  }

  /**
   * `{ id: Date.now().toString(), ...item }`: the generated id is used only
   * when the item has no `id` field of its own, since the item's fields are
   * spread after it.
   */
  function NewItem(item: Record, freshId: string): (r: Record)
    ensures r.Keys == item.Keys + {"id"}
    ensures r["id"] == if "id" in item then item["id"] else Str(freshId)
    ensures forall k :: k != "id" ==> Get(r, k) == Get(item, k)
  {
    Spread(map["id" := Str(freshId)], item)
  }

  /** `data.filter(item => item.id !== id)` */
  function WithoutId(data: seq<Record>, id: string): (r: seq<Record>)
    ensures forall i :: 0 <= i < |r| ==> !HasId(r[i], id)
    ensures forall x :: x in r <==> x in data && !HasId(x, id)
  {
    Filter(data, IdIsNot(id))
  }

  predicate UniqueIds(data: seq<Record>) {
    forall i, j :: 0 <= i < j < |data| && "id" in data[i] && "id" in data[j] ==> data[i]["id"] != data[j]["id"]
  }

  // ------------------------------------------------ effects of the operations

  /** `read(c)` on a missing file first writes `[]` to it. */
  function ReadEffect(files: map<string, File>, c: string, writable: bool): map<string, File> {
    if c !in files && writable then files[c := Parsed([])] else files
  }

  /** `add(c, item)`, given the item it builds. */
  function AddEffect(files: map<string, File>, c: string, newItem: Record, writable: bool): map<string, File> {
    if writable then files[c := Parsed(StoredIn(files, c) + [Normalize(newItem)])] else files
  }

  /** What `update(c, id, updates)` returns: the merged record, or `null` when no record has that id. */
  function UpdateResult(files: map<string, File>, c: string, id: string, updates: Record): Option<Record> {
    var data := StoredIn(files, c);
    var i := FindIndex(data, IdIs(id));
    if i == -1 then None else Some(Spread(data[i], updates))
  }

  /** What `update(c, id, updates)` leaves on disk. */
  function UpdateEffect(files: map<string, File>, c: string, id: string, updates: Record, writable: bool): map<string, File> {
    var data := StoredIn(files, c);
    var i := FindIndex(data, IdIs(id));
    if i == -1 then ReadEffect(files, c, writable)
    else if writable then files[c := Parsed(data[i := Normalize(Spread(data[i], updates))])]
    else files
  }

  /** What `delete(c, id)` leaves on disk. */
  function DeleteEffect(files: map<string, File>, c: string, id: string, writable: bool): map<string, File> {
    if writable then files[c := Parsed(WithoutId(StoredIn(files, c), id))] else files
  }

  // ------------------------------------------------------------ the store

  class JsonDbService {
    var files: map<string, File>
    var writable: bool

    ghost predicate Valid()
      reads this
    {
      FilesAreJson(files)
    }

    /** The records `read(c)` would return now. */
    function Stored(c: string): seq<Record>
      reads this
    {
      StoredIn(files, c)
    }

    constructor (initial: map<string, File>, diskWritable: bool)
      requires FilesAreJson(initial)
      ensures Valid()
      ensures files == initial && writable == diskWritable
    {
      files := initial;
      writable := diskWritable;
    }

    /** `write(c, data)`: replaces the whole file, or fails and changes nothing. */
    method Write(c: string, data: seq<Record>) returns (ok: bool)
      requires Valid()
      modifies this`files
      ensures Valid()
      ensures ok == writable
      ensures files == if writable then old(files)[c := Parsed(ToJson(data))] else old(files)
    {
      if writable {
        files := files[c := Parsed(ToJson(data))];
        ok := true;
      } else {
        ok := false;
      }
    }

    /**
     * `read(c)`: a missing collection is created empty and reads as `[]`; a
     * file that cannot be read or parsed also reads as `[]`.
     */
    method Read(c: string) returns (data: seq<Record>)
      requires Valid()
      modifies this`files
      ensures Valid()
      ensures data == old(Stored(c)) && AllJson(data)
      ensures files == ReadEffect(old(files), c, writable)
    {
      if c !in files {
        var created := Write(c, []);
        return [];
      }
      match files[c] {
        case Unreadable =>
          data := [];
        case Parsed(records) =>
          data := records;
      }
    }

    /** `add(c, item)`: appends the item with its id and returns it. */
    method Add(c: string, item: Record, freshId: string) returns (newItem: Record)
      requires Valid()
      modifies this`files
      ensures Valid()
      ensures newItem == NewItem(item, freshId)
      ensures files == AddEffect(old(files), c, newItem, writable)
    {
      var data := Read(c);
      newItem := NewItem(item, freshId);
      data := data + [newItem];
      ghost var before := data[..|data| - 1];
      assert ToJson(data) == before + [Normalize(newItem)] by {
        ToJsonOfJson(before);
      }
      var written := Write(c, data);
    }

    /**
     * `update(c, id, updates)`: merges `updates` into the first record with
     * that id and returns the merged record, or returns `null` without
     * writing when no record has it.
     */
    method Update(c: string, id: string, updates: Record) returns (result: Option<Record>)
      requires Valid()
      modifies this`files
      ensures Valid()
      ensures result == UpdateResult(old(files), c, id, updates)
      ensures files == UpdateEffect(old(files), c, id, updates, writable)
    {
      var data := Read(c);
      var index := FindIndex(data, IdIs(id));
      if index != -1 {
        ghost var before := data;
        data := data[index := Spread(data[index], updates)];
        assert ToJson(data) == before[index := Normalize(data[index])] by {
          ToJsonOfJson(before);
        }
        var written := Write(c, data);
        return Some(data[index]);
      }
      return None;
    }

    /** `delete(c, id)`: removes every record with that id; always reports success. */
    method Delete(c: string, id: string) returns (ok: bool)
      requires Valid()
      modifies this`files
      ensures Valid()
      ensures ok
      ensures files == DeleteEffect(old(files), c, id, writable)
    {
      var data := Read(c);
      var filtered := WithoutId(data, id);
      assert ToJson(filtered) == filtered by {
        ToJsonOfJson(filtered);
      }
      var written := Write(c, filtered);
      return true;
    }
  }

  // ---------------------------------------------------- properties of the store

  /**
   * A successful add grows the collection by one record, the item's JSON
   * form, appended last; earlier records and other collections are untouched.
   */
  lemma AddAppends(files: map<string, File>, c: string, item: Record, freshId: string, writable: bool)
    ensures var after := AddEffect(files, c, NewItem(item, freshId), writable);
      && (writable ==> |StoredIn(after, c)| == |StoredIn(files, c)| + 1
                       && StoredIn(after, c)[..|StoredIn(files, c)|] == StoredIn(files, c)
                       && Get(StoredIn(after, c)[|StoredIn(files, c)|], "id")
                          == (if "id" in item then item["id"] else Str(freshId)))
      && (!writable ==> after == files)
      && forall c' :: c' != c ==> StoredIn(after, c') == StoredIn(files, c')
  {
  }

  /** The read that starts an add changes nothing the add does not overwrite. */
  lemma AddAfterRead(files: map<string, File>, c: string, newItem: Record, writable: bool)
    ensures AddEffect(ReadEffect(files, c, writable), c, newItem, writable) == AddEffect(files, c, newItem, writable)
    ensures StoredIn(ReadEffect(files, c, writable), c) == StoredIn(files, c)
  {
  }

  /**
   * When the generated id is new and the item brings no id of its own, adding
   * keeps the ids of the collection distinct.
   */
  lemma AddKeepsIdsUnique(data: seq<Record>, item: Record, freshId: string)
    requires UniqueIds(data)
    requires "id" !in item
    requires forall i :: 0 <= i < |data| ==> !HasId(data[i], freshId)
    ensures UniqueIds(data + [Normalize(NewItem(item, freshId))])
  {
    var n := Normalize(NewItem(item, freshId));
    assert Get(n, "id") == Str(freshId);
    var d := data + [n];
    forall i, j | 0 <= i < j < |d| && "id" in d[i] && "id" in d[j]
      ensures d[i]["id"] != d[j]["id"]
    {
      if j == |data| {
        assert !HasId(data[i], freshId);
      }
    }
  }

  /**
   * An update of a present id changes only the first record with that id:
   * every field of `updates` wins, every other field is kept, and all other
   * records and collections are untouched.
   */
  lemma UpdateChangesFirstMatch(files: map<string, File>, c: string, id: string, updates: Record, writable: bool)
    requires writable
    requires exists j :: 0 <= j < |StoredIn(files, c)| && HasId(StoredIn(files, c)[j], id)
    ensures var before := StoredIn(files, c);
      var after := StoredIn(UpdateEffect(files, c, id, updates, writable), c);
      var i := FindIndex(before, IdIs(id));
      && 0 <= i && HasId(before[i], id)
      && (forall j :: 0 <= j < i ==> !HasId(before[j], id))
      && |after| == |before|
      && (forall j :: 0 <= j < |before| && j != i ==> after[j] == before[j])
      && (forall k :: Get(after[i], k) == if k in updates then updates[k] else Get(before[i], k))
      && UpdateResult(files, c, id, updates) == Some(Spread(before[i], updates))
  {
    var before := StoredIn(files, c);
    var j :| 0 <= j < |before| && HasId(before[j], id);
    assert IdIs(id)(before[j]);
    var i := FindIndex(before, IdIs(id));
    var merged := Spread(before[i], updates);
    UpdatePresentEffect(files, c, id, updates, i);
    var after := before[i := Normalize(merged)];
    assert StoredIn(UpdateEffect(files, c, id, updates, writable), c) == after;
    forall k ensures Get(after[i], k) == if k in updates then updates[k] else Get(before[i], k) {
      assert Get(after[i], k) == Get(merged, k);
    }
  }

  /** An update touches no collection but its own. */
  lemma UpdateKeepsOtherCollections(files: map<string, File>, c: string, id: string, updates: Record, writable: bool)
    ensures forall c' :: c' != c ==> StoredIn(UpdateEffect(files, c, id, updates, writable), c') == StoredIn(files, c')
  {
  }

  /** The collection an update of a present id writes: the merged record in place of the first match. */
  lemma UpdatePresentEffect(files: map<string, File>, c: string, id: string, updates: Record, i: int)
    requires i == FindIndex(StoredIn(files, c), IdIs(id)) && 0 <= i
    ensures var before := StoredIn(files, c);
      && UpdateEffect(files, c, id, updates, true) == files[c := Parsed(before[i := Normalize(Spread(before[i], updates))])]
      && UpdateResult(files, c, id, updates) == Some(Spread(before[i], updates))
  {
  }

  /** An update of an absent id returns `null` and leaves every collection's records as they were. */
  lemma UpdateAbsent(files: map<string, File>, c: string, id: string, updates: Record, writable: bool)
    requires forall j :: 0 <= j < |StoredIn(files, c)| ==> !HasId(StoredIn(files, c)[j], id)
    ensures UpdateResult(files, c, id, updates) == None
    ensures forall c' :: StoredIn(UpdateEffect(files, c, id, updates, writable), c') == StoredIn(files, c')
  {
    var data := StoredIn(files, c);
    assert forall j :: 0 <= j < |data| ==> !IdIs(id)(data[j]);
  }

  /** Deleting removes every record with the id and keeps the others in their order. */
  lemma DeleteKeepsOrder(a: seq<Record>, b: seq<Record>, id: string)
    ensures WithoutId(a + b, id) == WithoutId(a, id) + WithoutId(b, id)
  {
    FilterAppend(a, b, IdIsNot(id));
  }

  /** A second identical delete changes nothing: delete is idempotent. */
  lemma DeleteIdempotent(files: map<string, File>, c: string, id: string, writable: bool)
    ensures var once := DeleteEffect(files, c, id, writable);
      DeleteEffect(once, c, id, writable) == once
  {
    FilterIdempotent(StoredIn(files, c), IdIsNot(id));
  }

  /** Deleting an id no record has rewrites the collection with the same records. */
  lemma DeleteAbsent(files: map<string, File>, c: string, id: string)
    requires forall j :: 0 <= j < |StoredIn(files, c)| ==> !HasId(StoredIn(files, c)[j], id)
    ensures StoredIn(DeleteEffect(files, c, id, true), c) == StoredIn(files, c)
  {
    FilterKeepsAll(StoredIn(files, c), IdIsNot(id));
  }
}
