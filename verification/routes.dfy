/** The decision logic of the Flask routes: which status code and which payload each
    route answers with, and what it writes. The request body is the parsed JSON
    object; the scrape outcome, the insert's generated id and the `time.ctime()` text
    are inputs. */
module Routes {
  import opened JsonValues
  import opened Classifier
  import opened Scraper
  import opened CrudService
  import Aggregation
  import CategoryOptions

  /** The JSON payload a route answers with. `Crash` is the 500 body
      `{"error": context + ": " + str(e)}`. */
  datatype Answer =
    | Created(message: string, id: string, titleUsed: Json)
    | Updated(message: string, id: string, newTitle: Json)
    | Deleted(message: string)
    | Analysis(title: string, categoryGuess: string)
    | Listing(links: seq<Obj>)
    | Statistics(stats: seq<Aggregation.Stat>)
    | Error(error: string)
    | Crash(context: string, cause: DbError)

  datatype Response = Response(status: int, answer: Answer)

  /** A response together with the collection after the request. */
  datatype Served = Served(response: Response, coll: Collection)

  /** The value line 62 of the create route binds to `title` when no title was given:
      the scraper's tuple itself, or None. */
  function ScrapeAsTitle(scrape: Option<(string, string)>): Json {
    match scrape
    case Some(p) => Pair(p.0, p.1)
    case None => Null
  }

  /* ---------- POST /links ---------- */

  function CreateLinkRoute(data: Obj, page: Page, py: PyText, createdAt: string, newId: ObjectId, c: Collection): (s: Served)
    ensures s.response.status in {201, 400, 500}
    ensures s.response.status == 400 <==> !Truthy(PyGet(data, "url"))
    ensures s.response.status != 201 ==> s.coll == c
    ensures s.response.status == 500 <==> Truthy(PyGet(data, "url")) && IdIndex(c.docs, newId).Some?
    ensures s.response.status == 201 ==>
      && s.response.answer.Created?
      && s.response.answer.id == newId
      && |s.coll.docs| == |c.docs| + 1 && s.coll.docs[..|c.docs|] == c.docs
      && PyGet(s.coll.docs[|c.docs|].fields, "title") == s.response.answer.titleUsed
      && PyGet(s.coll.docs[|c.docs|].fields, "url") == PyGet(data, "url")
    ensures s.response.status == 201 && Truthy(PyGet(data, "title")) ==>
      s.response.answer.titleUsed == PyGet(data, "title")
    ensures s.response.status == 201 && !Truthy(PyGet(data, "title")) ==>
      s.response.answer.titleUsed == ScrapeAsTitle(GetTitleFromUrl(PyGet(data, "url"), page, py))
  {
    var url := PyGet(data, "url");
    var provided := PyGet(data, "title");
    if !Truthy(url) then Served(Response(400, Error("La URL es requerida")), c)
    else
      var title := if Truthy(provided) then provided else ScrapeAsTitle(GetTitleFromUrl(url, page, py));
      match CreateLinkDb(data, title, createdAt, newId, c)
      case Raised(e) => Served(Response(500, Crash("Error al crear el enlace", e)), c)
      case Done(id, after) => Served(Response(201, Created("Enlace creado con éxito", id, title)), after)
  }

  /** When no title is given, the stored title is never text: it is the scraper's
      tuple, or null when the scrape failed. */
  lemma CreateStoresTupleTitle(data: Obj, page: Page, py: PyText, createdAt: string, newId: ObjectId, c: Collection)
    requires !Truthy(PyGet(data, "title"))
    ensures var s := CreateLinkRoute(data, page, py, createdAt, newId, c);
      s.response.status == 201 ==> !s.response.answer.titleUsed.Str?
  {
  }

  /** After a successful create, listing the links shows one with the posted url. */
  lemma CreateThenListHasUrl(data: Obj, page: Page, py: PyText, createdAt: string, newId: ObjectId, c: Collection)
    requires Valid(c)
    ensures var s := CreateLinkRoute(data, page, py, createdAt, newId, c);
      s.response.status == 201 ==>
        && Valid(s.coll)
        && exists i :: 0 <= i < |GetAllLinksDb(s.coll)| && Get(GetAllLinksDb(s.coll)[i], "url") == PyGet(data, "url")
  {
    var s := CreateLinkRoute(data, page, py, createdAt, newId, c);
    if s.response.status == 201 {
      var links := GetAllLinksDb(s.coll);
      var i := |c.docs|;
      assert Get(links[i], "url") == Get(s.coll.docs[i].fields, "url");
    }
  }

  /* ---------- PUT /links/<id> ---------- */

  /** The defaulting the update route applies to the body before the `$set`. */
  function UpdateDefaults(data: Obj, page: Page, py: PyText): (d: Obj)
    ensures !Truthy(PyGet(data, "url")) ==> d == data
    ensures forall k :: k != "title" && k != "category" ==> (k in d <==> k in data) && (k in d ==> d[k] == data[k])
    ensures Truthy(PyGet(data, "url")) && Truthy(PyGet(data, "title")) ==> PyGet(d, "title") == PyGet(data, "title")
    ensures Truthy(PyGet(data, "url")) && !Truthy(PyGet(data, "title")) ==>
      var scrape := GetTitleFromUrl(PyGet(data, "url"), page, py);
      && PyGet(d, "title") == Str(if scrape.Some? then scrape.value.0 else NoTitle)
      && (!Truthy(PyGet(data, "category")) ==> PyGet(d, "category") == Str(if scrape.Some? then scrape.value.1 else CategoryOptions.NoCategory))
    ensures Truthy(PyGet(data, "url")) && Truthy(PyGet(data, "title")) && !Truthy(PyGet(data, "category")) ==>
      PyGet(d, "category") == Str(CategoryOptions.Other)
    ensures Truthy(PyGet(data, "category")) ==> PyGet(d, "category") == PyGet(data, "category")
  {
    var url := PyGet(data, "url");
    var manual := PyGet(data, "title");
    if !Truthy(url) then data
    else
      var scraped := !Truthy(manual);
      var guess := GetTitleFromUrl(url, page, py);
      var pair := if guess.Some? then guess.value else (NoTitle, CategoryOptions.NoCategory);
      var withTitle := if scraped then data["title" := Str(pair.0)] else data;
      if !Truthy(PyGet(withTitle, "category")) then
        withTitle["category" := Str(if scraped then pair.1 else CategoryOptions.Other)]
      else withTitle
  }

  /** A failed scrape during an update stores "Sin Categoría", a label the client's
      category list does not offer. */
  lemma UpdateCanStoreNoCategory(py: PyText)
    ensures var d := UpdateDefaults(map["url" := Str("https://example.org")], FetchFailed, py);
      && PyGet(d, "category") == Str(CategoryOptions.NoCategory)
      && !CategoryOptions.IsOption(CategoryOptions.NoCategory)
  {
  }

  function UpdateLinkRoute(idText: string, data: Obj, page: Page, py: PyText, c: Collection): (s: Served)
    ensures s.response.status in {200, 404, 500}
    ensures var w := UpdateLinkDb(idText, UpdateDefaults(data, page, py), c);
      && (s.response.status == 500 <==> w.Raised?)
      && (s.response.status == 404 <==> w.Done? && w.result == 0)
      && (s.response.status == 200 <==> w.Done? && w.result != 0)
      && (w.Done? ==> s.coll == w.coll)
      && (w.Raised? ==> s.coll == c)
    ensures s.response.status == 200 ==>
      && s.response.answer.Updated?
      && s.response.answer.id == idText
      && s.response.answer.newTitle == PyGet(UpdateDefaults(data, page, py), "title")
  {
    var d := UpdateDefaults(data, page, py);
    match UpdateLinkDb(idText, d, c)
    case Raised(e) => Served(Response(500, Crash("Error al actualizar el enlace", e)), c)
    case Done(matched, after) =>
      if matched == 0 then
        Served(Response(404, Error("No se encontró un enlace con ese ID para actualizar.")), after)
      else
        Served(Response(200, Updated("Enlace actualizado con éxito", idText, PyGet(d, "title"))), after)
  }

  /** For a well-formed id the update answers 404 exactly when no document has the id.
      When one does, it answers 200, unless the body carries `_id`, which the driver
      refuses to change: then it answers 500. */
  lemma UpdateNotFound(idText: string, id: ObjectId, data: Obj, page: Page, py: PyText, c: Collection)
    requires ParseObjectId(idText) == Some(id)
    ensures var s := UpdateLinkRoute(idText, data, page, py, c);
      && (s.response.status == 404 <==> forall j :: 0 <= j < |c.docs| ==> c.docs[j].id != id)
      && ("_id" !in data ==> (s.response.status == 200 <==> exists j :: 0 <= j < |c.docs| && c.docs[j].id == id))
      && ("_id" in data ==> (s.response.status == 500 <==> exists j :: 0 <= j < |c.docs| && c.docs[j].id == id))
  {
    assert "_id" in UpdateDefaults(data, page, py) <==> "_id" in data;
  }

  /* ---------- DELETE /links/<id> ---------- */

  function DeleteLinkRoute(idText: string, c: Collection): (s: Served)
    ensures s.response.status in {200, 404, 500}
    ensures var w := DeleteLinkDb(idText, c);
      && (s.response.status == 500 <==> w.Raised?)
      && (s.response.status == 200 <==> w.Done? && w.result == 1)
      && (s.response.status == 404 <==> w.Done? && w.result != 1)
      && (w.Done? ==> s.coll == w.coll)
      && (w.Raised? ==> s.coll == c)
  {
    match DeleteLinkDb(idText, c)
    case Raised(e) => Served(Response(500, Crash("Error al eliminar el enlace", e)), c)
    case Done(deleted, after) =>
      if deleted == 1 then
        Served(Response(200, Deleted("Enlace con ID '" + idText + "' eliminado con éxito")), after)
      else
        Served(Response(404, Error("No se encontró un enlace con ese ID o ya fue eliminado.")), after)
  }

  /** Deleting the same id twice: the second answer is 404 and changes nothing. */
  lemma DeleteTwiceIsNotFound(idText: string, id: ObjectId, c: Collection)
    requires Valid(c)
    requires ParseObjectId(idText) == Some(id)
    ensures var first := DeleteLinkRoute(idText, c);
      var second := DeleteLinkRoute(idText, first.coll);
      second.response.status == 404 && second.coll == first.coll
  {
    DeleteRemovesExactlyOne(idText, id, c);
    var first := DeleteLinkRoute(idText, c);
    DeleteRemovesExactlyOne(idText, id, first.coll);
  }

  /* ---------- GET /links and GET /stats ---------- */

  function GetAllLinksRoute(c: Collection): Response {
    Response(200, Listing(GetAllLinksDb(c)))
  }

  function GetStatsRoute(c: Collection): Response {
    Response(200, Statistics(GetStatsDb(c)))
  }

  /* ---------- POST /analyze_link ---------- */

  function AnalyzeLinkRoute(data: Obj, page: Page, py: PyText): (r: Response)
    ensures r.status in {200, 400}
    ensures r.status == 400 <==> !Truthy(PyGet(data, "url"))
    ensures r.status == 200 ==> r.answer.Analysis?
    ensures r.status == 200 && GetTitleFromUrl(PyGet(data, "url"), page, py).None? ==>
      r.answer == Analysis(NoTitle, CategoryOptions.NoCategory)
    ensures r.status == 200 && GetTitleFromUrl(PyGet(data, "url"), page, py).Some? ==>
      var p := GetTitleFromUrl(PyGet(data, "url"), page, py).value;
      r.answer == Analysis(p.0, p.1)
  {
    var url := PyGet(data, "url");
    if !Truthy(url) then Response(400, Error("La URL es requerida para el análisis."))
    else match GetTitleFromUrl(url, page, py)
      case None => Response(200, Analysis(NoTitle, CategoryOptions.NoCategory))
      case Some(p) => Response(200, Analysis(p.0, p.1))
  }

  /** The category sentinel marks a failed scrape and nothing else: a 200 answer whose
      guess is "Sin Categoría" carries both sentinels, and any other guess is a label
      the client offers. */
  lemma AnalysisSentinels(data: Obj, page: Page, py: PyText)
    ensures var r := AnalyzeLinkRoute(data, page, py);
      r.status == 200 ==>
        && (r.answer.categoryGuess == CategoryOptions.NoCategory <==> GetTitleFromUrl(PyGet(data, "url"), page, py).None?)
        && (r.answer.categoryGuess == CategoryOptions.NoCategory ==> r.answer.title == NoTitle)
        && (r.answer.categoryGuess != CategoryOptions.NoCategory ==> CategoryOptions.IsOption(r.answer.categoryGuess))
  {
    CategoryOptions.NoCategoryIsNotAnOption();
  }
}
