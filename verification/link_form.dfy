/** The link form (`LinkForm`): which draft is active, how field edits, submit and
    cancel act on it, and the debounced auto-analysis as a discrete-time machine
    with one clock step per millisecond and at most one pending timer. */
module LinkForm {
  import opened JsonValues
  import LinkService
  import Scraper
  import CategoryOptions

  /** The two drafts the form can show: `editLink` (null outside edit mode) and `form`. */
  datatype Ui = Ui(form: Obj, editLink: Option<Obj>)

  /** `!!editLink`: any object, even an empty one, is truthy. */
  predicate IsEditMode(u: Ui) {
    u.editLink.Some?
  }

  /** `editLink || form`: the draft the inputs show and edit. */
  function CurrentDraft(u: Ui): (d: Obj)
    ensures IsEditMode(u) ==> d == u.editLink.value
    ensures !IsEditMode(u) ==> d == u.form
  {
    if u.editLink.Some? then u.editLink.value else u.form
  }

  /* ---------- field edits, submit, cancel ---------- */

  /** `handleFormChange` for the input `name` taking `value`. */
  function HandleFormChange(u: Ui, name: string, value: Json): (r: Ui)
    ensures IsEditMode(r) == IsEditMode(u)
    ensures CurrentDraft(r) == CurrentDraft(u)[name := value]
    ensures IsEditMode(u) ==> r.form == u.form
    ensures !IsEditMode(u) ==> r.editLink == u.editLink
  {
    if u.editLink.Some? then u.(editLink := Some(u.editLink.value[name := value]))
    else u.(form := u.form[name := value])
  }

  /** What a submit asks the link service to do. */
  datatype Action = NoAction | Create(data: Obj) | Update(draft: Obj)

  /** `handleSubmit`, reached only while the submit button is enabled, that is while
      neither a save nor an analysis is in progress. */
  function Submit(u: Ui, isLoading: bool, isAnalyzing: bool): (a: Action)
    ensures isLoading || isAnalyzing ==> a == NoAction
    ensures a.Update? <==> !isLoading && !isAnalyzing && IsEditMode(u)
    ensures a.Create? <==> !isLoading && !isAnalyzing && !IsEditMode(u) && Truthy(Get(u.form, "url"))
    ensures a != NoAction ==> a == (if IsEditMode(u) then Update(CurrentDraft(u)) else Create(CurrentDraft(u)))
  {
    if isLoading || isAnalyzing then NoAction
    else if u.editLink.Some? then Update(u.editLink.value)
    else if !Truthy(Get(u.form, "url")) then NoAction
    else Create(u.form)
  }

  /** The service call a submit action makes. */
  function Dispatch(h: LinkService.Hook, a: Action, reply: LinkService.Reply<Obj>): (s: LinkService.Step)
    ensures a == NoAction ==> s == LinkService.Step(h, [], false)
    ensures a.Create? ==> s.sent == [LinkService.PostLink(DropUndefined(a.data))]
    ensures a.Update? ==> (s.sent == [] <==> !Truthy(Get(a.draft, "id")))
  {
    match a
    case NoAction => LinkService.Step(h, [], false)
    case Create(data) => LinkService.HandleCreateLink(h, data, reply)
    case Update(draft) => LinkService.HandleUpdateLink(h, Some(draft), reply)
  }

  /** A submit in edit mode can only issue the PUT for the edited link; in create mode
      it can only POST the form; and it sends nothing while disabled, or in create mode
      while the url is empty. */
  lemma SubmitSendsOnlyTheActiveRequest(h: LinkService.Hook, isLoading: bool, isAnalyzing: bool, reply: LinkService.Reply<Obj>)
    ensures var u := Ui(h.form, h.editLink);
      var s := Dispatch(h, Submit(u, isLoading, isAnalyzing), reply);
      && (IsEditMode(u) ==> forall r :: r in s.sent ==> r.PutLink? && r.id == JsString(Get(h.editLink.value, "id")))
      && (!IsEditMode(u) ==> forall r :: r in s.sent ==> r == LinkService.PostLink(DropUndefined(h.form)))
      && (isLoading || isAnalyzing || (!IsEditMode(u) && !Truthy(Get(h.form, "url"))) ==> s.sent == [])
  {
  }

  /** The "Cancelar" button: `setEditLink(null)`. */
  function Cancel(u: Ui): (r: Ui)
    ensures !IsEditMode(r)
    ensures r.form == u.form
    ensures CurrentDraft(r) == u.form
  {
    u.(editLink := None)
  }

  /* ---------- the debounced analysis ---------- */

  /** The effect's delay, in clock steps (milliseconds). */
  const Delay: nat := 800

  /** A pending `setTimeout`: when it fires, and the url and target draft it captured. */
  datatype Timer = Timer(due: nat, url: Json, toEdit: bool)

  /** One `analyzeUrl(url, ...)` invocation made by a firing timer. */
  datatype Call = Call(at: nat, url: Json, toEdit: bool)

  /** The form over time. `crashed` records that a state updater threw while React
      applied it: with no error boundary in `App`, the tree unmounts, the effect's
      cleanup clears the timer, and the form reacts to nothing more. */
  datatype Machine = Machine(ui: Ui, clock: nat, pending: Option<Timer>, calls: seq<Call>, crashed: bool)

  /** Every pending timer lies in the future. */
  predicate Sane(m: Machine) {
    m.pending.Some? ==> m.clock < m.pending.value.due
  }

  /** How the form reacts. `AsWritten` follows the code: the effect re-runs on any new
      `editLink` or a new `form.url`, and an analysis reply always goes through the
      setter it captured. `Intended` re-arms only when the url of the active draft is
      edited, drops the pending timer when the mode changes, and drops a reply whose
      edit draft has been closed. */
  datatype Policy = AsWritten | Intended

  datatype Event =
    | SetForm(form: Obj)
    | SetEditLink(editLink: Option<Obj>)
    | Tick
    | AnalysisReply(toEdit: bool, reply: LinkService.Reply<Obj>)

  /** The cleanup clears the old timer and the effect arms a new one for the draft now
      active. */
  function Arm(m: Machine): (r: Machine)
    ensures r.ui == m.ui && r.clock == m.clock && r.calls == m.calls && r.crashed == m.crashed
    ensures r.pending == Some(Timer(m.clock + Delay, Get(CurrentDraft(m.ui), "url"), IsEditMode(m.ui)))
    ensures Sane(r)
  {
    m.(pending := Some(Timer(m.clock + Delay, Get(CurrentDraft(m.ui), "url"), IsEditMode(m.ui))))
  }

  /** The effect as mounted: it runs once with the initial form. */
  function Mount(form: Obj): (m: Machine)
    ensures m.ui == Ui(form, None) && m.clock == 0 && m.calls == [] && !m.crashed
    ensures m.pending == Some(Timer(Delay, Get(form, "url"), false))
  {
    Arm(Machine(Ui(form, None), 0, None, [], false))
  }

  /** `setForm(f)`. */
  function StepSetForm(m: Machine, f: Obj, p: Policy): (r: Machine)
    requires Sane(m)
    ensures Sane(r) && r.ui == m.ui.(form := f) && r.clock == m.clock && r.calls == m.calls && r.crashed == m.crashed
    ensures p == AsWritten ==>
      r.pending == (if Get(f, "url") != Get(m.ui.form, "url") then Arm(r).pending else m.pending)
    ensures p == Intended ==>
      r.pending == (if !IsEditMode(m.ui) && Get(f, "url") != Get(m.ui.form, "url") then Arm(r).pending else m.pending)
  {
    var next := m.(ui := m.ui.(form := f));
    var urlChanged := Get(f, "url") != Get(m.ui.form, "url");
    match p
    case AsWritten => if urlChanged then Arm(next) else next
    case Intended => if urlChanged && !IsEditMode(m.ui) then Arm(next) else next
  }

  /** `setEditLink(e)`. React compares `editLink` by reference, and every object the
      form stores there is freshly built, so any non-null value counts as a change. */
  function StepSetEditLink(m: Machine, e: Option<Obj>, p: Policy): (r: Machine)
    requires Sane(m)
    ensures Sane(r) && r.ui == m.ui.(editLink := e) && r.clock == m.clock && r.calls == m.calls && r.crashed == m.crashed
    ensures p == AsWritten ==>
      r.pending == (if e.None? && m.ui.editLink.None? then m.pending else Arm(r).pending)
    ensures p == Intended && e.Some? && m.ui.editLink.Some? ==>
      r.pending == (if Get(e.value, "url") != Get(m.ui.editLink.value, "url") then Arm(r).pending else m.pending)
    ensures p == Intended && e.Some? != m.ui.editLink.Some? ==> r.pending.None?
    ensures p == Intended && e.None? && m.ui.editLink.None? ==> r.pending == m.pending
  {
    var next := m.(ui := m.ui.(editLink := e));
    match p
    case AsWritten =>
      if e.None? && m.ui.editLink.None? then next else Arm(next)
    case Intended =>
      if e.Some? && m.ui.editLink.Some? then
        if Get(e.value, "url") != Get(m.ui.editLink.value, "url") then Arm(next) else next
      else if e.Some? != m.ui.editLink.Some? then next.(pending := None)
      else next
  }

  /** One millisecond passes; a timer that falls due fires and calls the analysis when
      its captured url is truthy. */
  function StepTick(m: Machine): (r: Machine)
    requires Sane(m)
    ensures Sane(r) && r.ui == m.ui && r.clock == m.clock + 1 && r.crashed == m.crashed
    ensures m.pending.Some? && m.pending.value.due == m.clock + 1 ==>
      && r.pending.None?
      && r.calls == m.calls + (if Truthy(m.pending.value.url) then [Call(m.clock + 1, m.pending.value.url, m.pending.value.toEdit)] else [])
    ensures !(m.pending.Some? && m.pending.value.due == m.clock + 1) ==> r.pending == m.pending && r.calls == m.calls
  {
    var now := m.clock + 1;
    match m.pending
    case Some(t) =>
      if t.due == now then
        var fired := if Truthy(t.url) then [Call(now, t.url, t.toEdit)] else [];
        m.(clock := now, pending := None, calls := m.calls + fired)
      else m.(clock := now)
    case None => m.(clock := now)
  }

  /** The reply to an analysis arrives: on an ok, parsed reply the functional update of
      `analyzeUrl` goes through the captured setter; otherwise no setter is called. As
      written, a reply for an edit draft that is now null spreads null as `{}`, unless
      the merge reads `prev.title` or `prev.category`: then the updater throws outside
      the `try` and the form crashes. As intended, such a reply is dropped. */
  function StepReply(m: Machine, toEdit: bool, reply: LinkService.Reply<Obj>, p: Policy): (r: Machine)
    requires Sane(m)
    ensures Sane(r) && r.clock == m.clock && r.calls == m.calls
    ensures !OkParsed(reply) ==> r == m
    ensures p == Intended && toEdit && !IsEditMode(m.ui) ==> r == m
    ensures r.crashed <==> m.crashed || (p == AsWritten && toEdit && !IsEditMode(m.ui) && OkParsed(reply) && LinkService.ReadsPrevious(reply.body))
    ensures r.crashed && !m.crashed ==> r == m.(pending := None, crashed := true)
    ensures OkParsed(reply) && !toEdit ==> r.ui == m.ui.(form := LinkService.MergeAnalysis(m.ui.form, reply.body))
    ensures OkParsed(reply) && toEdit && IsEditMode(m.ui) ==>
      r.ui == m.ui.(editLink := Some(LinkService.MergeAnalysis(m.ui.editLink.value, reply.body)))
    ensures OkParsed(reply) && toEdit && !IsEditMode(m.ui) && p == AsWritten && !LinkService.ReadsPrevious(reply.body) ==>
      r.ui == m.ui.(editLink := Some(LinkService.MergeAnalysis(map[], reply.body)))
  {
    if !OkParsed(reply) then m
    else if !toEdit then StepSetForm(m, LinkService.MergeAnalysis(m.ui.form, reply.body), p)
    else if m.ui.editLink.Some? then StepSetEditLink(m, Some(LinkService.MergeAnalysis(m.ui.editLink.value, reply.body)), p)
    else match p
      case Intended => m
      case AsWritten =>
        if LinkService.ReadsPrevious(reply.body) then m.(pending := None, crashed := true)
        else StepSetEditLink(m, Some(LinkService.MergeAnalysis(map[], reply.body)), p)
  }

  /** An ok reply whose body parsed: the one kind of reply `analyzeUrl` merges. */
  predicate OkParsed(reply: LinkService.Reply<Obj>) {
    reply.Answered? && LinkService.Ok(reply.status) && !reply.body.Unparseable?
  }

  /** One event. A crashed form is unmounted and reacts to nothing. */
  function Step(m: Machine, ev: Event, p: Policy): (r: Machine)
    requires Sane(m)
    ensures Sane(r)
    ensures m.crashed ==> r == m
  {
    if m.crashed then m
    else match ev
      case SetForm(f) => StepSetForm(m, f, p)
      case SetEditLink(e) => StepSetEditLink(m, e, p)
      case Tick => StepTick(m)
      case AnalysisReply(toEdit, reply) => StepReply(m, toEdit, reply, p)
  }

  /** `n` milliseconds pass with no other event. */
  function Wait(m: Machine, n: nat): (r: Machine)
    requires Sane(m)
    ensures Sane(r) && r.ui == m.ui && r.clock == m.clock + n
    decreases n
  {
    if n == 0 then m else Wait(StepTick(m), n - 1)
  }

  /** A pending timer stays silent until its due time and then makes exactly the one
      call it captured (none when its url is empty). */
  lemma {:induction false} WaitFires(m: Machine, n: nat)
    requires Sane(m) && m.pending.Some?
    requires n <= m.pending.value.due - m.clock
    ensures var r := Wait(m, n);
      && (n < m.pending.value.due - m.clock ==> r.pending == m.pending && r.calls == m.calls)
      && (n == m.pending.value.due - m.clock ==>
            && r.pending.None?
            && r.calls == m.calls + (if Truthy(m.pending.value.url) then [Call(m.pending.value.due, m.pending.value.url, m.pending.value.toEdit)] else []))
    decreases n
  {
    if n > 0 {
      var m1 := StepTick(m);
      if m.pending.value.due == m.clock + 1 {
        assert n == 1;
        assert Wait(m, n) == Wait(m1, 0);
      } else {
        WaitFires(m1, n - 1);
      }
    }
  }

  /** With nothing pending, time passing changes nothing but the clock. */
  lemma {:induction false} WaitIdle(m: Machine, n: nat)
    requires Sane(m) && m.pending.None?
    ensures Wait(m, n) == m.(clock := m.clock + n)
    decreases n
  {
    if n > 0 {
      WaitIdle(StepTick(m), n - 1);
    }
  }

  /** On mount with the initial form the timer fires after 800 ms and, the url being
      empty, calls nothing. */
  lemma MountCallsNothing()
    ensures var r := Wait(Mount(LinkService.InitialForm()), Delay);
      r.calls == [] && r.pending.None?
  {
    var m := Mount(LinkService.InitialForm());
    assert m.pending == Some(Timer(Delay, Str(""), false));
    WaitFires(m, Delay);
  }

  /** Typing a new url in create mode: no call before 800 ms, and one call with that
      url at 800 ms. */
  lemma UrlEditCallsOnceAfterDelay(m: Machine, f: Obj, n: nat, p: Policy)
    requires Sane(m) && !IsEditMode(m.ui)
    requires Get(f, "url") != Get(m.ui.form, "url") && Truthy(Get(f, "url"))
    requires n <= Delay
    ensures var r := Wait(StepSetForm(m, f, p), n);
      && (n < Delay ==> r.calls == m.calls)
      && (n == Delay ==> r.calls == m.calls + [Call(m.clock + Delay, Get(f, "url"), false)] && r.pending.None?)
  {
    WaitFires(StepSetForm(m, f, p), n);
  }

  /** Two url edits less than 800 ms apart give one call, with the second url, 800 ms
      after the second edit; the first url is never analysed. */
  lemma LastUrlWins(m: Machine, f1: Obj, f2: Obj, d: nat, p: Policy)
    requires Sane(m) && !IsEditMode(m.ui)
    requires Get(f1, "url") != Get(m.ui.form, "url")
    requires Get(f2, "url") != Get(f1, "url") && Truthy(Get(f2, "url"))
    requires d < Delay
    ensures var m1 := Wait(StepSetForm(m, f1, p), d);
      var r := Wait(StepSetForm(m1, f2, p), Delay);
      r.calls == m.calls + [Call(m.clock + d + Delay, Get(f2, "url"), false)]
  {
    var m0 := StepSetForm(m, f1, p);
    WaitFires(m0, d);
    var m1 := Wait(m0, d);
    WaitFires(StepSetForm(m1, f2, p), Delay);
  }

  /** Editing the title or the category in create mode leaves the pending timer as it
      was, under either policy. */
  lemma TitleEditKeepsTimer(m: Machine, name: string, value: Json, p: Policy)
    requires Sane(m) && !IsEditMode(m.ui) && name != "url"
    ensures StepSetForm(m, HandleFormChange(m.ui, name, value).form, p).pending == m.pending
  {
  }

  /** As written, any edit in edit mode, a title included, re-arms the timer for the
      edited link. */
  lemma EditModeEditRearms(m: Machine, name: string, value: Json)
    requires Sane(m) && IsEditMode(m.ui)
    ensures var e := HandleFormChange(m.ui, name, value).editLink;
      StepSetEditLink(m, e, AsWritten).pending
        == Some(Timer(m.clock + Delay, Get(e.value, "url"), true))
  {
  }

  /** As written, an ok analysis of the link being edited re-arms the timer with the
      same url, so 800 ms later the same url is analysed again: in edit mode the
      analysis repeats for as long as the form stays open, and each round replaces the
      title the user typed with the page's title. */
  lemma EditModeAnalysisRepeats(m: Machine, body: LinkService.Body<Obj>, status: int)
    requires Sane(m) && IsEditMode(m.ui) && Truthy(Get(m.ui.editLink.value, "url"))
    requires LinkService.Ok(status) && !body.Unparseable?
    ensures var r := Wait(StepReply(m, true, LinkService.Answered(status, body), AsWritten), Delay);
      r.calls == m.calls + [Call(m.clock + Delay, Get(m.ui.editLink.value, "url"), true)]
  {
    var m1 := StepReply(m, true, LinkService.Answered(status, body), AsWritten);
    assert Get(m1.ui.editLink.value, "url") == Get(m.ui.editLink.value, "url");
    WaitFires(m1, Delay);
  }

  /** As intended, a reply never arms or drops a timer: an analysis cannot trigger
      another one. */
  lemma IntendedReplyDoesNotRearm(m: Machine, toEdit: bool, reply: LinkService.Reply<Obj>)
    requires Sane(m)
    ensures StepReply(m, toEdit, reply, Intended).pending == m.pending
  {
  }

  /** As written, a reply for the edit draft that arrives after Cancel and carries a
      real title and guess reopens edit mode with a draft holding only those two
      fields: it has no url and no id, so a submit then sends nothing. */
  lemma LateReplyReopensEdit(m: Machine, body: LinkService.Body<Obj>, status: int, h: LinkService.Hook, reply: LinkService.Reply<Obj>)
    requires Sane(m) && !IsEditMode(m.ui)
    requires LinkService.Ok(status) && !body.Unparseable? && !LinkService.ReadsPrevious(body)
    ensures var r := StepReply(m, true, LinkService.Answered(status, body), AsWritten);
      && IsEditMode(r.ui)
      && Get(r.ui.editLink.value, "id") == Undefined
      && Get(r.ui.editLink.value, "url") == Undefined
      && Dispatch(h.(form := r.ui.form, editLink := r.ui.editLink), Submit(r.ui, false, false), reply).sent == []
  {
    var r := StepReply(m, true, LinkService.Answered(status, body), AsWritten);
    var e := r.ui.editLink.value;
    assert e == LinkService.MergeAnalysis(map[], body);
    assert "id" !in e && "url" !in e;
  }

  /** As written, a reply for the edit draft that arrives after Cancel from a failed
      scrape, which carries the sentinels, throws in the updater: the form crashes,
      its timer is cleared, and it makes no further call whatever happens next. */
  lemma LateSentinelReplyCrashes(m: Machine, status: int, ev: Event, n: nat)
    requires Sane(m) && !IsEditMode(m.ui)
    requires LinkService.Ok(status)
    ensures var body := LinkService.Object(map["title" := Str(Scraper.NoTitle), "category_guess" := Str(CategoryOptions.NoCategory)]);
      var r := StepReply(m, true, LinkService.Answered(status, body), AsWritten);
      && r.crashed && r.ui == m.ui && r.pending.None?
      && Step(r, ev, AsWritten) == r
      && Wait(r, n).calls == m.calls
  {
    var body := LinkService.Object(map["title" := Str(Scraper.NoTitle), "category_guess" := Str(CategoryOptions.NoCategory)]);
    assert LinkService.Field(body, "title") == Str(Scraper.NoTitle);
    var r := StepReply(m, true, LinkService.Answered(status, body), AsWritten);
    WaitIdle(r, n);
  }

  /** As intended, a reply for a closed edit draft changes nothing. */
  lemma IntendedLateReplyIgnored(m: Machine, reply: LinkService.Reply<Obj>)
    requires Sane(m) && !IsEditMode(m.ui)
    ensures StepReply(m, true, reply, Intended) == m
  {
  }

  /** As intended, a title typed while editing is not followed by an
      analysis: nothing is pending, and waiting any time calls nothing. */
  lemma IntendedKeepsTypedTitle(m: Machine, value: Json, n: nat)
    requires Sane(m) && IsEditMode(m.ui) && m.pending.None?
    ensures var r := Wait(StepSetEditLink(m, HandleFormChange(m.ui, "title", value).editLink, Intended), n);
      r.calls == m.calls && Get(CurrentDraft(r.ui), "title") == value
  {
    var m1 := StepSetEditLink(m, HandleFormChange(m.ui, "title", value).editLink, Intended);
    WaitIdle(m1, n);
  }
}
