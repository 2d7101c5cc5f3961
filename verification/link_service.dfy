/** The client's state layer (`useLinkService`): the initial form, the id mapping of
    fetched links, the create/update/delete handlers, the url analysis and the two
    derived views. Each handler is modelled as a function from the state and the
    server's reply (an input) to the new state, the requests it sent and whether it
    asked for a refresh. */
module LinkService {
  import opened JsonValues
  import opened Text
  import opened Sorting
  import opened Aggregation
  import CategoryOptions
  import CrudService
  import Scraper

  /* ---------- wire types ---------- */

  /** What `response.json()` gave: a parse failure (the thrown error's message), an
      object, or an array. */
  datatype Body<T> = Unparseable(reason: string) | Object(fields: Obj) | Array(items: seq<T>)

  /** What `fetch` gave: a rejected request (the error's message) or a response. */
  datatype Reply<T> = NetworkError(reason: string) | Answered(status: int, body: Body<T>)

  /** `response.ok`. */
  predicate Ok(status: int) {
    200 <= status <= 299
  }

  /** `data[key]` on a parsed body. */
  function Field<T>(body: Body<T>, key: string): Json {
    if body.Object? then Get(body.fields, key) else Undefined
  }

  /** The requests the client sends, with their JSON bodies as sent. */
  datatype Request =
    | GetLinks
    | GetStats
    | PostLink(body: Obj)
    | PutLink(id: string, body: Obj)
    | DeleteLink(id: string)
    | PostAnalyze(body: Obj)

  datatype Kind = Success | Failure

  datatype Message = Message(text: string, kind: Kind)

  /** The hook's state (the loading flags are not modelled). */
  datatype Hook = Hook(links: seq<Obj>, stats: seq<Stat>, form: Obj, editLink: Option<Obj>, message: Option<Message>)

  /** A handler's effect: the new state, the requests sent, in order, and whether it
      triggered `fetchLinksAndStats`. */
  datatype Step = Step(hook: Hook, sent: seq<Request>, refresh: bool)

  /* ---------- initial form ---------- */

  /** `initialFormState`: empty url and title, and the last category option. */
  function InitialForm(): (f: Obj)
    ensures f == map["url" := Str(""), "title" := Str(""), "category" := Str("Otros")]
  {
    CategoryOptions.OptionsShape();
    map["url" := Str(""), "title" := Str(""), "category" := Str(CategoryOptions.Options[|CategoryOptions.Options| - 1])]
  }

  function InitialHook(): Hook {
    Hook([], [], InitialForm(), None, None)
  }

  /* ---------- fetchLinksAndStats ---------- */

  /** `{ ...link, id: link._id || link.id }`. */
  function NormalizeLink(link: Obj): (r: Obj)
    ensures "id" in r
    ensures Truthy(Get(link, "_id")) ==> r["id"] == Get(link, "_id")
    ensures !Truthy(Get(link, "_id")) ==> r["id"] == Get(link, "id")
    ensures forall k :: k != "id" ==> (k in r <==> k in link) && (k in r ==> r[k] == link[k])
  {
    link["id" := if Truthy(Get(link, "_id")) then Get(link, "_id") else Get(link, "id")]
  }

  function NormalizeLinks(links: seq<Obj>): (r: seq<Obj>)
    ensures |r| == |links|
    ensures forall i :: 0 <= i < |links| ==> r[i] == NormalizeLink(links[i])
  {
    seq(|links|, i requires 0 <= i < |links| => NormalizeLink(links[i]))
  }

  /** Mapping the ids twice is mapping them once. */
  lemma NormalizeIdempotent(link: Obj)
    ensures NormalizeLink(NormalizeLink(link)) == NormalizeLink(link)
  {
  }

  const LoadError := "Error de conexión o fallo al obtener datos."

  /** `fetchLinksAndStats`, given the replies to `GET /links` and `GET /stats`. */
  function FetchLinksAndStats(h: Hook, links: Reply<Obj>, stats: Reply<Stat>): (s: Step)
    ensures s.hook.form == h.form && s.hook.editLink == h.editLink && !s.refresh
    ensures var linksLoaded := links.Answered? && Ok(links.status) && links.body.Array?;
      && (linksLoaded ==> s.hook.links == NormalizeLinks(links.body.items))
      && (!linksLoaded ==> s.hook.links == h.links && s.hook.stats == h.stats)
      && (s.sent == if linksLoaded then [GetLinks, GetStats] else [GetLinks])
      && (linksLoaded && stats.Answered? && Ok(stats.status) && stats.body.Array? ==>
            s.hook.stats == stats.body.items && s.hook.message == h.message)
      && (linksLoaded && stats.Answered? && !stats.body.Unparseable? && !(Ok(stats.status) && stats.body.Array?) ==>
            s.hook.stats == h.stats && s.hook.message == h.message)
      && (!linksLoaded || stats.NetworkError? || (stats.Answered? && stats.body.Unparseable?) ==>
            s.hook.stats == h.stats && s.hook.message == Some(Message(LoadError, Failure)))
  {
    var fail := h.(message := Some(Message(LoadError, Failure)));
    if !(links.Answered? && Ok(links.status) && links.body.Array?) then Step(fail, [GetLinks], false)
    else
      var loaded := h.(links := NormalizeLinks(links.body.items));
      var sent := [GetLinks, GetStats];
      match stats
      case NetworkError(_) => Step(loaded.(message := fail.message), sent, false)
      case Answered(status, body) =>
        if body.Unparseable? then Step(loaded.(message := fail.message), sent, false)
        else if Ok(status) && body.Array? then Step(loaded.(stats := body.items), sent, false)
        else Step(loaded, sent, false)
  }

  /** The links the server lists come out of the id mapping with their document ids,
      which are text and pairwise distinct. */
  lemma ServerLinksHaveTextIds(c: CrudService.Collection)
    requires CrudService.Valid(c)
    ensures var links := NormalizeLinks(CrudService.GetAllLinksDb(c));
      && HasTextIds(links)
      && (forall i :: 0 <= i < |links| ==> Get(links[i], "id") == Str(c.docs[i].id))
      && (forall i, j :: 0 <= i < j < |links| ==> IdText(links[i]) != IdText(links[j]))
  {
    var raw := CrudService.GetAllLinksDb(c);
    var links := NormalizeLinks(raw);
    forall i | 0 <= i < |links|
      ensures Get(links[i], "id") == Str(c.docs[i].id)
    {
      assert Get(raw[i], "_id") == Str(c.docs[i].id);
    }
  }

  /* ---------- create / update / delete ---------- */

  /** `data.error || fallback`, as the message of the thrown error. */
  function ErrorText<T>(body: Body<T>, fallback: string): string {
    if Truthy(Field(body, "error")) then JsString(Field(body, "error")) else fallback
  }

  /** `error.message` in a handler's catch: the network error's message, the parse
      error's message, or the error thrown with `data.error || fallback`. */
  function FailureReason(reply: Reply<Obj>, fallback: string): (reason: string)
    ensures reply.NetworkError? ==> reason == reply.reason
    ensures reply.Answered? && reply.body.Unparseable? ==> reason == reply.body.reason
    ensures reply.Answered? && !reply.body.Unparseable? ==> reason == ErrorText(reply.body, fallback)
  {
    match reply
    case NetworkError(reason) => reason
    case Answered(_, body) => if body.Unparseable? then body.reason else ErrorText(body, fallback)
  }

  /** `showMessage(text, 'error')`. */
  function Fail(h: Hook, text: string): Hook {
    h.(message := Some(Message(text, Failure)))
  }

  const CreateFallback := "Fallo en la creación del enlace."

  /** `handleCreateLink(linkData)`. The body is parsed before the status is looked at. */
  function HandleCreateLink(h: Hook, linkData: Obj, reply: Reply<Obj>): (s: Step)
    ensures s.sent == [PostLink(DropUndefined(linkData))]
    ensures s.hook.links == h.links && s.hook.stats == h.stats && s.hook.editLink == h.editLink
    ensures s.refresh <==> reply.Answered? && reply.status == 201 && !reply.body.Unparseable?
    ensures s.refresh ==> s.hook.form == InitialForm() && s.hook.message.Some? && s.hook.message.value.kind == Success
    ensures !s.refresh ==> s.hook.form == h.form && s.hook.message.Some? && s.hook.message.value.kind == Failure
    ensures !s.refresh ==> s.hook.message == Some(Message("Error al crear: " + FailureReason(reply, CreateFallback), Failure))
  {
    var sent := [PostLink(DropUndefined(linkData))];
    match reply
    case NetworkError(reason) => Step(Fail(h, "Error al crear: " + reason), sent, false)
    case Answered(status, body) =>
      if body.Unparseable? then Step(Fail(h, "Error al crear: " + body.reason), sent, false)
      else if status == 201 then
        var text := "Enlace '" + JsString(Field(body, "title_used")) + "' creado con éxito.";
        Step(h.(form := InitialForm(), message := Some(Message(text, Success))), sent, true)
      else Step(Fail(h, "Error al crear: " + ErrorText(body, CreateFallback)), sent, false)
  }

  /** The success message quotes the title the server says it used. */
  lemma CreateMessageQuotesTitle(h: Hook, linkData: Obj, used: string)
    ensures var s := HandleCreateLink(h, linkData, Answered(201, Object(map["title_used" := Str(used)])));
      s.hook.message == Some(Message("Enlace '" + used + "' creado con éxito.", Success))
  {
  }

  /** `{ url: linkData.url, title: linkData.title, category: linkData.category }` as
      `JSON.stringify` sends it. */
  function PutBody(linkData: Obj): (b: Obj)
    ensures b.Keys <= {"url", "title", "category"}
    ensures forall k :: k in b ==> k in linkData && b[k] == linkData[k]
    ensures forall k :: k in {"url", "title", "category"} && k in linkData && linkData[k] != Undefined ==> k in b
  {
    DropUndefined(map["url" := Get(linkData, "url"), "title" := Get(linkData, "title"), "category" := Get(linkData, "category")])
  }

  const UpdateFallback := "Fallo al actualizar el enlace."

  /** `handleUpdateLink(linkData)`. */
  function HandleUpdateLink(h: Hook, linkData: Option<Obj>, reply: Reply<Obj>): (s: Step)
    ensures linkData.None? || !Truthy(Get(linkData.value, "id")) ==> s == Step(h, [], false)
    ensures linkData.Some? && Truthy(Get(linkData.value, "id")) ==>
      && s.sent == [PutLink(JsString(Get(linkData.value, "id")), PutBody(linkData.value))]
      && s.hook.links == h.links && s.hook.stats == h.stats && s.hook.form == h.form
      && (s.refresh <==> reply.Answered? && Ok(reply.status))
      && (s.refresh ==> s.hook.editLink.None? && s.hook.message == Some(Message("Enlace actualizado con éxito.", Success)))
      && (!s.refresh ==> s.hook.editLink == h.editLink)
      && (!s.refresh ==> s.hook.message == Some(Message("Error al actualizar: " + FailureReason(reply, UpdateFallback), Failure)))
  {
    if linkData.None? || !Truthy(Get(linkData.value, "id")) then Step(h, [], false)
    else
      var d := linkData.value;
      var sent := [PutLink(JsString(Get(d, "id")), PutBody(d))];
      match reply
      case NetworkError(reason) => Step(Fail(h, "Error al actualizar: " + reason), sent, false)
      case Answered(status, body) =>
        if Ok(status) then
          Step(h.(editLink := None, message := Some(Message("Enlace actualizado con éxito.", Success))), sent, true)
        else if body.Unparseable? then Step(Fail(h, "Error al actualizar: " + body.reason), sent, false)
        else Step(Fail(h, "Error al actualizar: " + ErrorText(body, UpdateFallback)), sent, false)
  }

  const DeleteFallback := "Fallo al eliminar el enlace."

  /** `handleDeleteLink(id, title)`; `confirmed` is the answer to `window.confirm`. */
  function HandleDeleteLink(h: Hook, id: Json, title: Json, confirmed: bool, reply: Reply<Obj>): (s: Step)
    ensures !confirmed ==> s == Step(h, [], false)
    ensures confirmed ==>
      && s.sent == [DeleteLink(JsString(id))]
      && s.hook.links == h.links && s.hook.stats == h.stats && s.hook.form == h.form && s.hook.editLink == h.editLink
      && (s.refresh <==> reply.Answered? && Ok(reply.status))
      && (s.refresh ==> s.hook.message == Some(Message("Enlace '" + JsString(title) + "' eliminado.", Success)))
      && (!s.refresh ==> s.hook.message == Some(Message("Error al eliminar: " + FailureReason(reply, DeleteFallback), Failure)))
  {
    if !confirmed then Step(h, [], false)
    else
      var sent := [DeleteLink(JsString(id))];
      match reply
      case NetworkError(reason) => Step(Fail(h, "Error al eliminar: " + reason), sent, false)
      case Answered(status, body) =>
        if Ok(status) then
          Step(h.(message := Some(Message("Enlace '" + JsString(title) + "' eliminado.", Success))), sent, true)
        else if body.Unparseable? then Step(Fail(h, "Error al eliminar: " + body.reason), sent, false)
        else Step(Fail(h, "Error al eliminar: " + ErrorText(body, DeleteFallback)), sent, false)
  }

  /** A 404 with an error text shows that text and leaves the links as they were. */
  lemma DeleteNotFoundShowsServerText(h: Hook, id: Json, title: Json, text: string)
    requires text != ""
    ensures var s := HandleDeleteLink(h, id, title, true, Answered(404, Object(map["error" := Str(text)])));
      && s.hook.message == Some(Message("Error al eliminar: " + text, Failure))
      && s.hook.links == h.links && !s.refresh
  {
  }

  /* ---------- analyzeUrl ---------- */

  /** The request `analyzeUrl(url, ...)` sends, if any: only for text whose trimmed form
      starts with "http", and then with the trimmed text. A url that is not text makes
      `url.trim()` throw before anything is sent. */
  function AnalyzeRequest(url: Json, space: char -> bool): (r: Option<Request>)
    ensures r.Some? <==> url.Str? && StartsWith(Strip(url.s, space), "http")
    ensures r.Some? ==> r.value == PostAnalyze(map["url" := Str(Strip(url.s, space))])
  {
    if url.Str? && StartsWith(Strip(url.s, space), "http") then
      Some(PostAnalyze(map["url" := Str(Strip(url.s, space))]))
    else None
  }

  /** The url an analysis sends is already trimmed and starts with "http", so analysing
      it again sends the same request. */
  lemma AnalyzedUrlIsClean(url: Json, space: char -> bool)
    requires AnalyzeRequest(url, space).Some?
    ensures url.Str?
    ensures var u := Strip(url.s, space);
      && Strip(u, space) == u
      && StartsWith(u, "http")
      && AnalyzeRequest(Str(u), space) == AnalyzeRequest(url, space)
  {
    var u := Strip(url.s, space);
    StripIdempotent(url.s, space);
    CleanUrlRequest(u, space);
  }

  /** Text that is already trimmed and starts with "http" is sent exactly as it is. */
  lemma CleanUrlRequest(u: string, space: char -> bool)
    ensures Strip(u, space) == u && StartsWith(u, "http") ==>
      AnalyzeRequest(Str(u), space) == Some(PostAnalyze(map["url" := Str(u)]))
  {
  }

  /** The functional update `analyzeUrl` hands to the draft's setter on an ok reply:
      each suggestion replaces the draft's value unless it is the "no data" sentinel. */
  function MergeAnalysis(prev: Obj, body: Body<Obj>): (r: Obj)
    ensures Get(r, "title") == (if Field(body, "title") != Str(Scraper.NoTitle) then Field(body, "title") else Get(prev, "title"))
    ensures Get(r, "category") == (if Field(body, "category_guess") != Str(CategoryOptions.NoCategory) then Field(body, "category_guess") else Get(prev, "category"))
    ensures forall k :: k != "title" && k != "category" ==> (k in r <==> k in prev) && (k in r ==> r[k] == prev[k])
  {
    var title := if Field(body, "title") != Str(Scraper.NoTitle) then Field(body, "title") else Get(prev, "title");
    var category := if Field(body, "category_guess") != Str(CategoryOptions.NoCategory) then Field(body, "category_guess") else Get(prev, "category");
    prev["title" := title]["category" := category]
  }

  /** The merge reads `prev.title` or `prev.category`, and so throws when `prev` is
      null, exactly when the reply carries the title sentinel or the category sentinel,
      as every failed scrape does. */
  predicate ReadsPrevious(body: Body<Obj>) {
    Field(body, "title") == Str(Scraper.NoTitle) || Field(body, "category_guess") == Str(CategoryOptions.NoCategory)
  }

  /** The draft after the reply arrives: merged on an ok, parsed reply, untouched
      otherwise (the error is only logged). */
  function ApplyAnalysis(prev: Obj, reply: Reply<Obj>): (r: Obj)
    ensures !(reply.Answered? && Ok(reply.status) && !reply.body.Unparseable?) ==> r == prev
    ensures reply.Answered? && Ok(reply.status) && !reply.body.Unparseable? ==> r == MergeAnalysis(prev, reply.body)
  {
    match reply
    case NetworkError(_) => prev
    case Answered(status, body) => if Ok(status) && !body.Unparseable? then MergeAnalysis(prev, body) else prev
  }

  /** Applying the same analysis twice changes nothing more. */
  lemma MergeIdempotent(prev: Obj, body: Body<Obj>)
    ensures MergeAnalysis(MergeAnalysis(prev, body), body) == MergeAnalysis(prev, body)
  {
  }

  /** A sentinel title keeps the user's title while a real category is taken. */
  lemma SentinelTitleKeepsDraft(draft: Obj, x: string)
    ensures var r := MergeAnalysis(draft["title" := Str(x)], Object(map["title" := Str(Scraper.NoTitle), "category_guess" := Str("Finanzas")]));
      Get(r, "title") == Str(x) && Get(r, "category") == Str("Finanzas")
  {
  }

  /* ---------- derived views ---------- */

  /** The id as sorted on; the sort reads `id` as text. */
  function IdText(link: Obj): string {
    var id := Get(link, "id");
    if id.Str? then id.s else ""
  }

  /** Every link carries a text id, so `b.id.localeCompare(a.id)` can be evaluated. */
  predicate HasTextIds(links: seq<Obj>) {
    forall i :: 0 <= i < |links| ==> Get(links[i], "id").Str?
  }

  /** `(a, b) => b.id.localeCompare(a.id)`, as "may come first": the larger id first. */
  function IdDesc(): (Obj, Obj) -> bool {
    (a: Obj, b: Obj) => LexLe(IdText(b), IdText(a))
  }

  lemma IdDescIsPreorder()
    ensures TotalPreorder(IdDesc())
  {
    forall a: Obj, b: Obj ensures IdDesc()(a, b) || IdDesc()(b, a) {
      LexLeTotal(IdText(a), IdText(b));
    }
    forall a: Obj, b: Obj, c: Obj | IdDesc()(a, b) && IdDesc()(b, c) ensures IdDesc()(a, c) {
      LexLeTransitive(IdText(c), IdText(b), IdText(a));
    }
  }

  /** `sortedLinks`: a sorted copy; `links` itself is a value and is not changed. */
  function SortedLinks(links: seq<Obj>): (r: seq<Obj>)
    requires HasTextIds(links)
    ensures multiset(r) == multiset(links)
    ensures forall i, j :: 0 <= i < j < |r| ==> LexLe(IdText(r[j]), IdText(r[i]))
  {
    IdDescIsPreorder();
    SortBySorted(links, IdDesc());
    SortBy(links, IdDesc())
  }

  /** With distinct ids the sorted view does not depend on the order the links were
      fetched in. */
  lemma SortedLinksIgnoreFetchOrder(a: seq<Obj>, b: seq<Obj>)
    requires HasTextIds(a) && HasTextIds(b)
    requires multiset(a) == multiset(b)
    requires forall i, j :: 0 <= i < j < |a| ==> IdText(a[i]) != IdText(a[j])
    ensures SortedLinks(a) == SortedLinks(b)
  {
    var sa := SortedLinks(a);
    var sb := SortedLinks(b);
    IdDescIsPreorder();
    SortBySorted(a, IdDesc());
    SortBySorted(b, IdDesc());
    forall x, y | x in sa && y in sa && IdDesc()(x, y) && IdDesc()(y, x)
      ensures x == y
    {
      LexLeAntisymmetric(IdText(x), IdText(y));
      assert x in multiset(a) && y in multiset(a);
      var i :| 0 <= i < |a| && a[i] == x;
      var j :| 0 <= j < |a| && a[j] == y;
    }
    SortedUnique(sa, sb, IdDesc());
  }

  /** `stats.reduce((sum, stat) => sum + stat.count, acc)`. */
  function ReduceCounts(stats: seq<Stat>, acc: int): (total: int)
    ensures total == acc + SumCounts(stats)
    decreases |stats|
  {
    if stats == [] then acc else ReduceCounts(stats[1..], acc + stats[0].count)
  }

  /** `totalLinks`. */
  function TotalLinks(stats: seq<Stat>): (total: nat)
    ensures total == SumCounts(stats)
    ensures stats == [] ==> total == 0
  {
    ReduceCounts(stats, 0)
  }

  /** The total shown beside the statistics is the number of stored links. */
  lemma TotalLinksCountsCollection(c: CrudService.Collection)
    ensures TotalLinks(CrudService.GetStatsDb(c)) == |c.docs|
  {
  }

  /** A refresh answered by the API's own listing and statistics shows every stored
      link, in order, under its document id and with its stored fields, and the total
      it displays is the number of links shown. */
  lemma FetchShowsCollection(h: Hook, c: CrudService.Collection, linksStatus: int, statsStatus: int)
    requires CrudService.Valid(c) && Ok(linksStatus) && Ok(statsStatus)
    ensures var s := FetchLinksAndStats(h,
        Answered(linksStatus, Array(CrudService.GetAllLinksDb(c))),
        Answered(statsStatus, Array(CrudService.GetStatsDb(c))));
      && |s.hook.links| == |c.docs|
      && (forall i :: 0 <= i < |c.docs| ==> Get(s.hook.links[i], "id") == Str(c.docs[i].id))
      && (forall i, k :: 0 <= i < |c.docs| && k != "id" && k != "_id" ==> Get(s.hook.links[i], k) == Get(c.docs[i].fields, k))
      && TotalLinks(s.hook.stats) == |s.hook.links|
      && s.hook.message == h.message
  {
    ServerLinksHaveTextIds(c);
    TotalLinksCountsCollection(c);
  }
}
