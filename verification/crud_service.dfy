/** The server's data-access layer: insert, list, `$set` update, delete and the
    per-category statistics over the `links` collection, which is modelled as a
    sequence of documents in natural (insertion) order. */
module CrudService {
  import opened JsonValues
  import opened Text
  import opened Aggregation
  import CategoryOptions

  predicate IsHexDigit(c: char) {
    '0' <= c <= '9' || 'a' <= c <= 'f' || 'A' <= c <= 'F'
  }

  /** `str(ObjectId)`: 24 lower-case hexadecimal digits. */
  predicate IsIdText(s: string) {
    |s| == 24 && forall i :: 0 <= i < |s| ==> '0' <= s[i] <= '9' || 'a' <= s[i] <= 'f'
  }

  type ObjectId = s: string | IsIdText(s) witness "000000000000000000000000"

  /** `ObjectId(text)`: accepts 24 hexadecimal digits in either case; anything else
      raises `InvalidId`. */
  function ParseObjectId(text: string): (r: Option<ObjectId>)
    ensures r.Some? <==> |text| == 24 && forall i :: 0 <= i < |text| ==> IsHexDigit(text[i])
    ensures r.Some? ==> forall i :: 0 <= i < |text| ==> r.value[i] == LowerAscii(text[i])
  {
    if |text| == 24 && forall i :: 0 <= i < |text| ==> IsHexDigit(text[i]) then
      var id := LowerAll(text);
      assert IsIdText(id);
      Some(id)
    else None
  }

  /** `ObjectId(str(oid)) == oid`. */
  lemma ParseRoundTrip(id: ObjectId)
    ensures ParseObjectId(id) == Some(id)
  {
    assert LowerAll(id) == id;
  }

  datatype Doc = Doc(id: ObjectId, fields: Obj)

  datatype Collection = Collection(docs: seq<Doc>)

  /** The collection's own invariant: `_id` is unique and is not one of the fields. */
  predicate Valid(c: Collection) {
    && (forall i, j :: 0 <= i < j < |c.docs| ==> c.docs[i].id != c.docs[j].id)
    && (forall i :: 0 <= i < |c.docs| ==> "_id" !in c.docs[i].fields)
  }

  /** The errors the driver raises; each becomes a 500 answer at the route. */
  datatype DbError = InvalidId(text: string) | DuplicateKey(id: ObjectId) | ImmutableId

  /** A driver call either raises or returns a value together with the collection
      after it. */
  datatype Write<T> = Done(result: T, coll: Collection) | Raised(error: DbError)

  /** Position of the first document with `_id == id`. */
  function IdIndex(docs: seq<Doc>, id: ObjectId): (r: Option<nat>)
    ensures r.Some? ==> r.value < |docs| && docs[r.value].id == id
    ensures r.Some? ==> forall j :: 0 <= j < r.value ==> docs[j].id != id
    ensures r.None? <==> forall j :: 0 <= j < |docs| ==> docs[j].id != id
    decreases |docs|
  {
    if docs == [] then None
    else if docs[0].id == id then Some(0)
    else match IdIndex(docs[1..], id)
      case None => None
      case Some(k) => Some(k + 1)
  }

  /** In a valid collection the first document with an id is the only one. */
  lemma IdIndexUnique(c: Collection, id: ObjectId, j: nat)
    requires Valid(c)
    requires j < |c.docs| && c.docs[j].id == id
    ensures IdIndex(c.docs, id) == Some(j)
  {
  }

  /* ---------- create_link_db ---------- */

  /** The document `create_link_db` builds; `created_at` is the opaque `time.ctime()` text. */
  function NewLinkFields(data: Obj, title: Json, createdAt: string): (f: Obj)
    ensures f.Keys == {"url", "title", "category", "created_at", "clicks"}
    ensures f["url"] == PyGet(data, "url") && f["title"] == title
    ensures "category" in data ==> f["category"] == data["category"]
    ensures "category" !in data ==> f["category"] == Str(CategoryOptions.Other)
    ensures f["created_at"] == Str(createdAt) && f["clicks"] == Int(0)
  {
    map[
      "url" := PyGet(data, "url"),
      "title" := title,
      "category" := if "category" in data then data["category"] else Str(CategoryOptions.Other),
      "created_at" := Str(createdAt),
      "clicks" := Int(0)
    ]
  }

  /** `create_link_db(data, title, links_collection)`; `newId` is the id the driver
      generates for the insert. */
  function CreateLinkDb(data: Obj, title: Json, createdAt: string, newId: ObjectId, c: Collection): (r: Write<string>)
    ensures r.Raised? <==> IdIndex(c.docs, newId).Some?
    ensures r.Raised? ==> r.error == DuplicateKey(newId)
    ensures r.Done? ==> r.result == newId
    ensures r.Done? ==> |r.coll.docs| == |c.docs| + 1 && r.coll.docs[..|c.docs|] == c.docs
    ensures r.Done? ==> r.coll.docs[|c.docs|] == Doc(newId, NewLinkFields(data, title, createdAt))
    ensures r.Done? && Valid(c) ==> Valid(r.coll)
  {
    if IdIndex(c.docs, newId).Some? then Raised(DuplicateKey(newId))
    else Done(newId, Collection(c.docs + [Doc(newId, NewLinkFields(data, title, createdAt))]))
  }

  /* ---------- get_all_links_db ---------- */

  /** A document as `find()` yields it, with `_id` replaced by its text. */
  function Exported(d: Doc): Obj {
    d.fields["_id" := Str(d.id)]
  }

  /** `get_all_links_db(links_collection)`. */
  function GetAllLinksDb(c: Collection): (links: seq<Obj>)
    ensures |links| == |c.docs|
    ensures forall i :: 0 <= i < |links| ==> "_id" in links[i] && links[i]["_id"] == Str(c.docs[i].id)
    ensures forall i, k :: 0 <= i < |links| && k != "_id" ==> Get(links[i], k) == Get(c.docs[i].fields, k)
  {
    seq(|c.docs|, i requires 0 <= i < |c.docs| => Exported(c.docs[i]))
  }

  /** Every document comes back exactly once, in collection order: the listed records
      carry pairwise distinct ids, and removing `_id` from each gives the stored fields. */
  lemma GetAllLinksRoundTrip(c: Collection)
    requires Valid(c)
    ensures var links := GetAllLinksDb(c);
      && (forall i, j :: 0 <= i < j < |links| ==> links[i]["_id"] != links[j]["_id"])
      && (forall i :: 0 <= i < |links| ==> links[i] - {"_id"} == c.docs[i].fields)
  {
    var links := GetAllLinksDb(c);
    forall i | 0 <= i < |links|
      ensures links[i] - {"_id"} == c.docs[i].fields
    {
      assert links[i] == Exported(c.docs[i]);
    }
  }

  /* ---------- update_link_db ---------- */

  /** `$set`: the listed keys take the new values, every other field is kept. */
  function SetFields(fields: Obj, update: Obj): (r: Obj)
    ensures r.Keys == fields.Keys + update.Keys
    ensures forall k :: k in update ==> r[k] == update[k]
    ensures forall k :: k in fields && k !in update ==> r[k] == fields[k]
  {
    fields + update
  }

  /** `update_link_db(link_id, update_data, links_collection)`: returns `matched_count`. */
  function UpdateLinkDb(idText: string, update: Obj, c: Collection): (r: Write<nat>)
    ensures ParseObjectId(idText).None? ==> r == Raised(InvalidId(idText))
    ensures ParseObjectId(idText).Some? ==>
      var hit := IdIndex(c.docs, ParseObjectId(idText).value);
      && (hit.None? ==> r == Done(0, c))
      && (hit.Some? && "_id" in update ==> r == Raised(ImmutableId))
      && (hit.Some? && "_id" !in update ==>
            && r.Done? && r.result == 1
            && |r.coll.docs| == |c.docs|
            && r.coll.docs[hit.value] == Doc(c.docs[hit.value].id, SetFields(c.docs[hit.value].fields, update))
            && forall j :: 0 <= j < |c.docs| && j != hit.value ==> r.coll.docs[j] == c.docs[j])
    ensures r.Done? && Valid(c) ==> Valid(r.coll)
  {
    match ParseObjectId(idText)
    case None => Raised(InvalidId(idText))
    case Some(id) =>
      match IdIndex(c.docs, id)
      case None => Done(0, c)
      case Some(i) =>
        if "_id" in update then Raised(ImmutableId)
        else
          var d := c.docs[i];
          Done(1, Collection(c.docs[i := Doc(d.id, SetFields(d.fields, update))]))
  }

  /* ---------- delete_link_db ---------- */

  /** `delete_link_db(link_id, links_collection)`: returns `deleted_count`. */
  function DeleteLinkDb(idText: string, c: Collection): (r: Write<nat>)
    ensures ParseObjectId(idText).None? ==> r == Raised(InvalidId(idText))
    ensures ParseObjectId(idText).Some? ==>
      var hit := IdIndex(c.docs, ParseObjectId(idText).value);
      && r.Done?
      && (hit.None? ==> r == Done(0, c))
      && (hit.Some? ==> r.result == 1 && r.coll.docs == c.docs[..hit.value] + c.docs[hit.value + 1..])
    ensures r.Done? && Valid(c) ==> Valid(r.coll)
  {
    match ParseObjectId(idText)
    case None => Raised(InvalidId(idText))
    case Some(id) =>
      match IdIndex(c.docs, id)
      case None => Done(0, c)
      case Some(i) =>
        RemoveAtKeepsValid(c, i);
        Done(1, Collection(c.docs[..i] + c.docs[i + 1..]))
  }

  /** Removing one document keeps the remaining ids distinct. */
  lemma RemoveAtKeepsValid(c: Collection, i: nat)
    requires i < |c.docs|
    ensures Valid(c) ==> Valid(Collection(c.docs[..i] + c.docs[i + 1..]))
  {
    var rest := c.docs[..i] + c.docs[i + 1..];
    assert forall j :: 0 <= j < |rest| ==> rest[j] == c.docs[if j < i then j else j + 1];
  }

  /** Deleting from a valid collection removes exactly the document with that id:
      the count is 1 iff it existed, it is gone afterwards, and every other document
      is still there. */
  lemma DeleteRemovesExactlyOne(idText: string, id: ObjectId, c: Collection)
    requires Valid(c)
    requires ParseObjectId(idText) == Some(id)
    ensures var r := DeleteLinkDb(idText, c);
      && r.Done?
      && (r.result == 1 <==> exists j :: 0 <= j < |c.docs| && c.docs[j].id == id)
      && (forall j :: 0 <= j < |r.coll.docs| ==> r.coll.docs[j].id != id)
      && (forall j :: 0 <= j < |c.docs| && c.docs[j].id != id ==> c.docs[j] in r.coll.docs)
      && |r.coll.docs| == |c.docs| - r.result
  {
    match IdIndex(c.docs, id)
    case None =>
    case Some(i) =>
      var rest := c.docs[..i] + c.docs[i + 1..];
      assert DeleteLinkDb(idText, c) == Done(1, Collection(rest));
      assert forall j :: 0 <= j < |rest| ==> rest[j] == c.docs[if j < i then j else j + 1];
      forall j | 0 <= j < |rest|
        ensures rest[j].id != id
      {
        var k := if j < i then j else j + 1;
        assert rest[j] == c.docs[k] && k != i;
      }
      forall j | 0 <= j < |c.docs| && c.docs[j].id != id
        ensures c.docs[j] in rest
      {
        assert c.docs[j] == rest[if j < i then j else j - 1];
      }
  }

  /* ---------- get_stats_db ---------- */

  /** `$category`: the field's value, or null when the field is absent. */
  function CategoryKey(fields: Obj): Json {
    if "category" in fields then fields["category"] else Null
  }

  function CategoryValues(c: Collection): (keys: seq<Json>)
    ensures |keys| == |c.docs|
    ensures forall i :: 0 <= i < |c.docs| ==> keys[i] == CategoryKey(c.docs[i].fields)
  {
    seq(|c.docs|, i requires 0 <= i < |c.docs| => CategoryKey(c.docs[i].fields))
  }

  /** `get_stats_db(collection)`: one `{category, count}` row per distinct category
      value, with its number of documents, highest count first; the counts add up to
      the number of documents. */
  function GetStatsDb(c: Collection): (stats: seq<Stat>)
    ensures IsCategoryStats(CategoryValues(c), stats)
    ensures SumCounts(stats) == |c.docs|
  {
    GroupCountSortCorrect(CategoryValues(c));
    GroupCountSort(CategoryValues(c))
  }
}
