/**
 * The draft coordinator of the TinyMCE editor component (CoreEditorTinyEditorComponent),
 * as a pure state machine. A Coordinator value is a snapshot of the component's state: the
 * draft fields, the bound form control, the text the editor shows, which listeners are live,
 * and logs of the calls made to the draft store, the toasts shown, the values emitted on
 * `contentChanged` and the writes to the editor. One function per handler says how a
 * snapshot changes; the class in module DraftCoordinator performs the same changes in
 * place and is proved equal to these functions.
 *
 * The draft store, the editor engine and `CoreDom.htmlIsBlank` are outside the model: a
 * store answer is an input of the handler that awaits it, the editor is the text it shows,
 * and `htmlIsBlank` is the parameter `blank`.
 */
module DraftModel {
  import opened Js

  datatype ContextLevel = System | User | CourseCategory | Course | Module | Block

  /** The identity under which the draft store keeps one draft. */
  datatype DraftKey = DraftKey(
    contextLevel: ContextLevel, instanceId: int, elementId: string, extraParams: map<string, string>)

  /** A record returned by `resumeDraft`. */
  datatype DraftEntry = DraftEntry(draftText: JsValue, originalContent: JsValue)

  /** A call made to the draft store, with its arguments. */
  datatype StoreCall =
    | SaveDraft(key: DraftKey, pageInstance: string, draftText: string, originalContent: JsValue)
    | ResumeDraft(key: DraftKey, pageInstance: string, originalContent: JsValue)
    | DeleteDraft(key: DraftKey)

  /** The answer of an awaited store call: its value, or a rejection. */
  datatype Response<T> = Answered(value: T) | StoreFailed

  /** A toast: the language string shown and the time after which it is cleared. */
  datatype Toast = Toast(message: string, duration: nat)

  const DraftAutosaveFrequency: nat := 30000
  const RestoreToast := Toast("core.editor.textrecovered", 6000)
  const SavedToast := Toast("core.editor.autosavesucceeded", 2000)

  /** Markup that an untouched editor produces; a restored draft equal to one of them is empty. */
  const UntouchedMarkup: set<string> :=
    {"<p></p>", "<p><br></p>", "<br>", "<p>&nbsp;</p>", "<p><br>&nbsp;</p>"}

  /** What the editor is given in place of blank content. */
  const BlankParagraph := "<p></p>"

  /**
   * The component's inputs that no handler changes: whether a form control and an editor
   * are bound, whether a site is open, the autoSave flag, the optional draft identifiers and
   * the page instance made from the creation time.
   */
  datatype Env = Env(
    hasControl: bool, hasEditor: bool, hasSite: bool, autoSave: bool,
    contextLevel: Option<ContextLevel>, contextInstanceId: Option<int>,
    draftExtraParams: Option<map<string, string>>, pageInstance: string)

  /** The component's own draft fields. */
  datatype ComponentFields = ComponentFields(
    elementId: Option<string>, lastDraft: string, originalContent: JsValue, draftWasRestored: bool, isEmpty: bool)

  /** What the component sees of the bound form control, its element and the editor. */
  datatype FieldView = FieldView(control: JsValue, dirty: bool, touched: bool, editorContent: string)

  /** Which listeners are live: the valueChanges subscription, the auto-save interval, FORM_ACTION. */
  datatype Listeners = Listeners(subscribed: bool, timerRunning: bool, formObserved: bool)

  /** Logs of the store calls, the toasts, the `contentChanged` emissions and the editor writes. */
  datatype Logs = Logs(calls: seq<StoreCall>, toasts: seq<Toast>, emitted: seq<JsValue>, editorWrites: seq<string>)

  datatype Coordinator = Coordinator(own: ComponentFields, view: FieldView, live: Listeners, log: Logs)

  /** The state of a freshly constructed component. */
  function Created(elementId: Option<string>, control: JsValue, editorContent: string): (r: Coordinator)
    ensures r.own.lastDraft == "" && r.own.originalContent == Undefined && !r.own.draftWasRestored
    ensures r.own.elementId == elementId && r.view.control == control && r.view.editorContent == editorContent
    ensures Detached(r) && r.log.calls == []
  {
    Coordinator(ComponentFields(elementId, "", Undefined, false, true), FieldView(control, false, false, editorContent),
                Listeners(false, false, false), Logs([], [], [], []))
  }

  /** No listener is live: the state `ngOnDestroy` leaves. */
  predicate Detached(s: Coordinator) {
    !s.live.subscribed && !s.live.timerRunning && !s.live.formObserved
  }

  /** The key a store call uses: `contextLevel || SYSTEM`, `contextInstanceId || 0`, `elementId || ''`, `draftExtraParams || {}`. */
  function KeyOf(env: Env, elementId: Option<string>): (r: DraftKey)
    ensures r.contextLevel == (if env.contextLevel.Some? then env.contextLevel.value else System)
    ensures r.instanceId == (if env.contextInstanceId.Some? then env.contextInstanceId.value else 0)
    ensures r.elementId == (if elementId.Some? then elementId.value else "")
    ensures r.extraParams == (if env.draftExtraParams.Some? then env.draftExtraParams.value else map[])
  {
    DraftKey(env.contextLevel.GetOr(System), env.contextInstanceId.GetOr(0),
             elementId.GetOr(""), env.draftExtraParams.GetOr(map[]))
  }

  /** The element id with `id_` in front, when it is set and not empty. */
  function PrefixedElementId(e: Option<string>): (r: Option<string>)
    ensures r.Some? <==> e.Some?
    ensures e.Some? && e.value != "" ==> r.value == "id_" + e.value
    ensures e.Some? && e.value == "" ==> r.value == ""
  {
    if e.Some? && e.value != "" then Some("id_" + e.value) else e
  }

  /**
   * `shouldAutoSaveDrafts`: a site is open, autoSave is on and the draft is fully identified,
   * so the key of an auto-saved draft never falls back to the defaults of context and id.
   */
  predicate ShouldAutoSave(env: Env, s: Coordinator)
    ensures ShouldAutoSave(env, s) ==>
      && env.contextLevel.Some? && env.contextInstanceId.Some? && s.own.elementId.Some?
      && KeyOf(env, s.own.elementId) == DraftKey(env.contextLevel.value, env.contextInstanceId.value,
                                              s.own.elementId.value, env.draftExtraParams.GetOr(map[]))
  {
    env.hasSite && env.autoSave && env.contextLevel.Some? && env.contextInstanceId.Some? &&
    s.own.elementId.Some?
  }

  /** The draft text of a resumed entry after untouched markup is reverted to the empty string. */
  function NormalizeDraft(text: string): (r: string)
    ensures r == "" <==> (text == "" || text in UntouchedMarkup)
    ensures r != "" ==> r == text
  {
    if text in UntouchedMarkup then "" else text
  }

  /** Whether a resumed entry replaces the control's value. */
  predicate Restores(env: Env, s: Coordinator, entry: DraftEntry) {
    var text := NormalizeDraft(Coalesce(entry.draftText, ""));
    text != "" && env.hasControl && !LooseEquals(Str(text), s.view.control)
  }

  predicate SameDraftState(a: Coordinator, b: Coordinator) {
    a.view.control == b.view.control && a.view.editorContent == b.view.editorContent &&
    a.own.lastDraft == b.own.lastDraft && a.own.originalContent == b.own.originalContent &&
    a.own.draftWasRestored == b.own.draftWasRestored
  }

  /** Both states have the same element id, restore flag and live listeners. */
  predicate SameLifecycle(a: Coordinator, b: Coordinator) {
    a.own.elementId == b.own.elementId && a.own.draftWasRestored == b.own.draftWasRestored && a.live == b.live
  }

  /** `s` with `c` appended to the store-call log. */
  function AddCall(s: Coordinator, c: StoreCall): (r: Coordinator)
    ensures r.log.calls == s.log.calls + [c]
    ensures r.own == s.own && r.view == s.view && r.live == s.live
    ensures r.log.toasts == s.log.toasts && r.log.emitted == s.log.emitted && r.log.editorWrites == s.log.editorWrites
  {
    s.(log := s.log.(calls := s.log.calls + [c]))
  }

  /**
   * The start of `ngAfterViewInit`, before the editor options are awaited: seed
   * `originalContent` and `lastDraft` from the control.
   */
  function SeedDrafts(env: Env, s: Coordinator): (r: Coordinator)
    ensures env.hasControl && s.view.control.Str? ==>
      r.own.originalContent == s.view.control && r.own.lastDraft == s.view.control.s
    ensures !(env.hasControl && s.view.control.Str?) ==> r.own.originalContent == Undefined && r.own.lastDraft == ""
    ensures r == s.(own := s.own.(originalContent := r.own.originalContent, lastDraft := r.own.lastDraft))
  {
    s.(own := s.own.(originalContent := if env.hasControl then NullToUndefined(s.view.control) else Undefined,
                     lastDraft := if env.hasControl then Coalesce(s.view.control, "") else ""))
  }

  /**
   * `ngAfterViewInit` once the editor options have loaded, up to the draft handling: the
   * seeded draft fields, the subscription to the control's changes and the prefixed element id.
   */
  function Seed(env: Env, s: Coordinator): (r: Coordinator)
    ensures env.hasControl && s.view.control.Str? ==>
      r.own.originalContent == s.view.control && r.own.lastDraft == s.view.control.s
    ensures !(env.hasControl && s.view.control.Str?) ==> r.own.originalContent == Undefined && r.own.lastDraft == ""
    ensures r.live.subscribed == env.hasControl && r.log == s.log && r.view == s.view
    ensures r.own.elementId == PrefixedElementId(s.own.elementId)
  {
    var s1 := SeedDrafts(env, s);
    s1.(own := s1.own.(elementId := PrefixedElementId(s1.own.elementId)),
        live := s1.live.(subscribed := env.hasControl))
  }

  /**
   * The part of `restoreDraft` after the store returned `entry`: mark the element touched
   * and, when the normalised draft text is not empty and differs from the control's value,
   * put it in the control and the editor.
   */
  function ApplyEntry(env: Env, s: Coordinator, entry: DraftEntry): (r: Coordinator)
    ensures Restores(env, s, entry) ==>
      var text := NormalizeDraft(Coalesce(entry.draftText, ""));
      && r.view.control == Str(text) && r.own.lastDraft == text && r.own.draftWasRestored
      && r.own.originalContent == entry.originalContent
      && (env.hasEditor ==> r.view.editorContent == text)
    ensures !Restores(env, s, entry) ==> r == s.(view := s.view.(touched := true))
    ensures r.log.toasts == (if Restores(env, s, entry) && !LooseEquals(entry.draftText, entry.originalContent)
                             then s.log.toasts + [RestoreToast] else s.log.toasts)
    ensures r.log.calls == s.log.calls && r.view.dirty == s.view.dirty && r.live == s.live
    ensures r.own.elementId == s.own.elementId && r.view.touched
  {
    var text := NormalizeDraft(Coalesce(entry.draftText, ""));
    if text != "" && env.hasControl && !LooseEquals(Str(text), s.view.control) then
      Coordinator(
        s.own.(lastDraft := text, draftWasRestored := true, originalContent := entry.originalContent),
        s.view.(control := Str(text), touched := true,
                editorContent := if env.hasEditor then text else s.view.editorContent),
        s.live,
        s.log.(editorWrites := if env.hasEditor then s.log.editorWrites + [text] else s.log.editorWrites,
               toasts := if LooseEquals(entry.draftText, entry.originalContent) then s.log.toasts
                         else s.log.toasts + [RestoreToast]))
    else s.(view := s.view.(touched := true))
  }

  /**
   * `restoreDraft`: ask the store for a draft of this editor and apply the entry it returns;
   * a missing entry or a failed call changes nothing but the call log.
   */
  function RestoreStep(env: Env, s: Coordinator, response: Response<Option<DraftEntry>>): (r: Coordinator)
    ensures r.log.calls == s.log.calls + [ResumeDraft(KeyOf(env, s.own.elementId), env.pageInstance, s.own.originalContent)]
    ensures (response.StoreFailed? || response.value.None?) ==> r == AddCall(s, r.log.calls[|s.log.calls|])
    ensures response.Answered? && response.value.Some? ==>
      r == AddCall(ApplyEntry(env, s, response.value.value), r.log.calls[|s.log.calls|])
  {
    var call := ResumeDraft(KeyOf(env, s.own.elementId), env.pageInstance, s.own.originalContent);
    match response
    case StoreFailed => AddCall(s, call)
    case Answered(None) => AddCall(s, call)
    case Answered(Some(entry)) => AddCall(ApplyEntry(env, s, entry), call)
  }

  /**
   * `ngAfterViewInit`: seed the draft fields and await the editor options. When they fail
   * (`optionsLoaded` is false, TinyMCE did not load) the method stops there. Otherwise it
   * subscribes, prefixes the element id and, when drafts are auto-saved, restores one (the
   * store's answer is `response`), starts the auto-save interval and listens for form actions.
   */
  function AttachStep(env: Env, s: Coordinator, optionsLoaded: bool, response: Response<Option<DraftEntry>>)
    : (r: Coordinator)
    ensures !optionsLoaded ==> r == SeedDrafts(env, s)
    ensures optionsLoaded && !ShouldAutoSave(env, Seed(env, s)) ==> r == Seed(env, s)
    ensures optionsLoaded && ShouldAutoSave(env, Seed(env, s)) ==>
      var restored := RestoreStep(env, Seed(env, s), response);
      && r == restored.(live := restored.live.(timerRunning := true, formObserved := true))
      && r.log.calls == s.log.calls + [ResumeDraft(KeyOf(env, r.own.elementId), env.pageInstance,
                                                   Seed(env, s).own.originalContent)]
    ensures optionsLoaded ==> r.own.elementId == PrefixedElementId(s.own.elementId) && r.live.subscribed == env.hasControl
  {
    if !optionsLoaded then SeedDrafts(env, s)
    else
      var s1 := Seed(env, s);
      if ShouldAutoSave(env, s1) then
        var s2 := RestoreStep(env, s1, response);
        s2.(live := s2.live.(timerRunning := true, formObserved := true))
      else s1
  }

  /**
   * The host sets the control's value to `v`, emitting `valueChanges`; the component's
   * subscription then either re-asserts a restored draft or accepts `v` and saves it.
   */
  function ExternalChangeStep(env: Env, s: Coordinator, v: JsValue): (r: Coordinator)
    ensures !s.live.subscribed ==> r == s.(view := s.view.(control := v))
    ensures s.live.subscribed && s.own.draftWasRestored && s.own.originalContent == v ==>
      r == s.(view := s.view.(control := Str(s.own.lastDraft)))
    ensures s.live.subscribed && !(s.own.draftWasRestored && s.own.originalContent == v) ==>
      && r.view.control == v
      && r.own.originalContent == NullToUndefined(v) && r.own.lastDraft == Coalesce(v, "")
      && (env.hasEditor ==> r.view.editorContent == Coalesce(v, ""))
      && r.log.calls == s.log.calls + [SaveDraft(KeyOf(env, s.own.elementId), env.pageInstance,
                                                 r.own.lastDraft, r.own.originalContent)]
    ensures SameLifecycle(r, s)
  {
    if !s.live.subscribed then s.(view := s.view.(control := v))
    else if s.own.draftWasRestored && s.own.originalContent == v then s.(view := s.view.(control := Str(s.own.lastDraft)))
    else
      var text := Coalesce(v, "");
      Coordinator(
        s.own.(originalContent := NullToUndefined(v), lastDraft := text),
        s.view.(control := v, editorContent := if env.hasEditor then text else s.view.editorContent),
        s.live,
        s.log.(editorWrites := if env.hasEditor then s.log.editorWrites + [text] else s.log.editorWrites,
               calls := s.log.calls + [SaveDraft(KeyOf(env, s.own.elementId), env.pageInstance, text, NullToUndefined(v))]))
  }

  /** What `setContent(value)` puts in the editor: `<p></p>` for blank content, else the value. */
  function EditorTarget(blank: string -> bool, value: JsValue): (r: string)
    ensures (!value.Str? || blank(value.s)) ==> r == BlankParagraph
    ensures (value.Str? && !blank(value.s)) ==> r == value.s
  {
    if !value.Str? || blank(value.s) then BlankParagraph else value.s
  }

  /** `setContent`: write the target into the editor only when the editor shows something else. */
  function SetContentStep(env: Env, s: Coordinator, blank: string -> bool, value: JsValue): (r: Coordinator)
    ensures !env.hasEditor ==> r == s
    ensures env.hasEditor ==> r.view.editorContent == EditorTarget(blank, value) &&
                              r.own.isEmpty == (!value.Str? || blank(value.s))
    ensures r.log.editorWrites == s.log.editorWrites <==>
      (!env.hasEditor || s.view.editorContent == EditorTarget(blank, value))
    ensures r.log.editorWrites != s.log.editorWrites ==>
      r.log.editorWrites == s.log.editorWrites + [EditorTarget(blank, value)]
    ensures r.view.control == s.view.control && r.own.lastDraft == s.own.lastDraft && r.log.calls == s.log.calls
    ensures r.own.originalContent == s.own.originalContent
    ensures SameLifecycle(r, s)
  {
    if !env.hasEditor then s
    else
      var target := EditorTarget(blank, value);
      s.(own := s.own.(isEmpty := !value.Str? || blank(value.s)),
         view := s.view.(editorContent := target),
         log := s.log.(editorWrites := if s.view.editorContent != target then s.log.editorWrites + [target]
                                       else s.log.editorWrites))
  }

  /** `clearText`: blank the editor and set the control to `null` without emitting. */
  function ClearTextStep(env: Env, s: Coordinator, blank: string -> bool): (r: Coordinator)
    ensures env.hasControl ==> r.view.control == Null
    ensures env.hasEditor ==> r.view.editorContent == BlankParagraph && r.own.isEmpty
    ensures r.own.lastDraft == s.own.lastDraft && r.log.calls == s.log.calls && r.view.dirty == s.view.dirty
    ensures r.own.originalContent == s.own.originalContent
    ensures SameLifecycle(r, s)
  {
    var s1 := SetContentStep(env, s, blank, Null);
    if env.hasControl then s1.(view := s1.view.(control := Null)) else s1
  }

  /**
   * `onChange`: copy the editor's content into the control (marking it dirty), or clear the
   * field when the content is blank, and emit the control's value on `contentChanged`.
   */
  function OnChangeStep(env: Env, s: Coordinator, blank: string -> bool): (r: Coordinator)
    ensures !env.hasEditor ==> r == s
    ensures env.hasEditor && env.hasControl && blank(s.view.editorContent) ==>
      r.view.control == Null && r.view.dirty == s.view.dirty
    ensures env.hasEditor && env.hasControl && !blank(s.view.editorContent) ==>
      r.view.control == Str(s.view.editorContent) && r.view.dirty
    ensures env.hasEditor ==>
      && r.own.isEmpty == blank(s.view.editorContent)
      && r.log.emitted == s.log.emitted + [if env.hasControl then r.view.control else Undefined]
    ensures r.own.lastDraft == s.own.lastDraft && r.own.originalContent == s.own.originalContent
    ensures r.log.calls == s.log.calls
    ensures SameLifecycle(r, s)
  {
    if !env.hasEditor then s
    else
      var content := s.view.editorContent;
      var s1 := if blank(content) then ClearTextStep(env, s.(own := s.own.(isEmpty := true)), blank)
                else s.(own := s.own.(isEmpty := false),
                        view := if env.hasControl then s.view.(control := Str(content), dirty := true) else s.view);
      s1.(log := s1.log.(emitted := s1.log.emitted + [if env.hasControl then s1.view.control else Undefined]))
  }

  /** The user changes the editor's content and the editor reports the change. */
  function UserEditStep(env: Env, s: Coordinator, blank: string -> bool, content: string): (r: Coordinator)
    ensures env.hasEditor && env.hasControl && !blank(content) ==> r.view.control == Str(content) && r.view.dirty
    ensures r.own.lastDraft == s.own.lastDraft && r.log.calls == s.log.calls
    ensures r.own.originalContent == s.own.originalContent
    ensures SameLifecycle(r, s)
  {
    if !env.hasEditor then s else OnChangeStep(env, s.(view := s.view.(editorContent := content)), blank)
  }

  /**
   * One tick of the auto-save interval: save the control's text when it differs from the
   * last saved draft; `saved` says whether the store accepted it.
   */
  function TickStep(env: Env, s: Coordinator, saved: bool): (r: Coordinator)
    ensures r.log.calls == s.log.calls <==>
      (!s.live.timerRunning || !env.hasControl || s.own.lastDraft == Coalesce(s.view.control, ""))
    ensures r.log.calls != s.log.calls ==>
      r.log.calls == s.log.calls + [SaveDraft(KeyOf(env, s.own.elementId), env.pageInstance,
                                              Coalesce(s.view.control, ""), s.own.originalContent)]
    ensures r.own.lastDraft == (if saved && r.log.calls != s.log.calls then Coalesce(s.view.control, "") else s.own.lastDraft)
    ensures r.log.toasts == (if saved && r.log.calls != s.log.calls then s.log.toasts + [SavedToast] else s.log.toasts)
    ensures r == s.(own := s.own.(lastDraft := r.own.lastDraft), log := s.log.(calls := r.log.calls, toasts := r.log.toasts))
  {
    if !s.live.timerRunning || !env.hasControl then s
    else
      var text := Coalesce(s.view.control, "");
      if s.own.lastDraft == text then s
      else
        var s1 := AddCall(s, SaveDraft(KeyOf(env, s.own.elementId), env.pageInstance, text, s.own.originalContent));
        if saved then s1.(own := s1.own.(lastDraft := text), log := s1.log.(toasts := s1.log.toasts + [SavedToast]))
        else s1
  }

  /** A FORM_ACTION event: delete the draft when it comes from the form holding the editor. */
  function FormActionStep(env: Env, s: Coordinator, sameForm: bool): (r: Coordinator)
    ensures s.live.formObserved && sameForm ==> r == AddCall(s, DeleteDraft(KeyOf(env, s.own.elementId)))
    ensures !(s.live.formObserved && sameForm) ==> r == s
  {
    if s.live.formObserved && sameForm then AddCall(s, DeleteDraft(KeyOf(env, s.own.elementId))) else s
  }

  /** `ngOnDestroy`: unsubscribe, clear the interval and stop observing form actions. */
  function DestroyStep(s: Coordinator): (r: Coordinator)
    ensures Detached(r)
    ensures r == s.(live := Listeners(false, false, false))
  {
    s.(live := Listeners(false, false, false))
  }

  /** What can happen to an attached component. */
  datatype Event =
    | HostSetValue(value: JsValue)
    | UserEdit(content: string)
    | ClearText
    | Tick(saved: bool)
    | FormAction(sameForm: bool)
    | Destroy

  /**
   * One event. No event changes the element id or the restore flag, each adds at most one
   * store call, under the component's key, and none revives a detached component.
   */
  function Step(env: Env, blank: string -> bool, s: Coordinator, e: Event): (r: Coordinator)
    ensures r.own.elementId == s.own.elementId && r.own.draftWasRestored == s.own.draftWasRestored
    ensures r.log.calls == s.log.calls ||
      (&& |r.log.calls| == |s.log.calls| + 1 && r.log.calls[..|s.log.calls|] == s.log.calls
       && r.log.calls[|s.log.calls|].key == KeyOf(env, s.own.elementId))
    ensures Detached(s) ==> Detached(r) && r.log.calls == s.log.calls && r.own.lastDraft == s.own.lastDraft
    ensures !e.HostSetValue? ==> r.own.originalContent == s.own.originalContent
  {
    match e
    case HostSetValue(v) => ExternalChangeStep(env, s, v)
    case UserEdit(c) => UserEditStep(env, s, blank, c)
    case ClearText => ClearTextStep(env, s, blank)
    case Tick(saved) => TickStep(env, s, saved)
    case FormAction(same) => FormActionStep(env, s, same)
    case Destroy => DestroyStep(s)
  }

  /** The state after the events `es`, in order. */
  function Run(env: Env, blank: string -> bool, s: Coordinator, es: seq<Event>): Coordinator
    decreases |es|
  {
    if es == [] then s else Run(env, blank, Step(env, blank, s, es[0]), es[1..])
  }

  /** `n` copies of `x`. */
  function Repeat<T>(x: T, n: nat): (r: seq<T>)
    ensures |r| == n && forall i :: 0 <= i < n ==> r[i] == x
  {
    if n == 0 then [] else [x] + Repeat(x, n - 1)
  }

  /** Every store call in the log uses `key`. */
  predicate AllKeyed(calls: seq<StoreCall>, key: DraftKey) {
    forall i :: 0 <= i < |calls| ==> calls[i].key == key
  }
}
