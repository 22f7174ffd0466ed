/**
 * CoreEditorTinyEditorComponent's draft handling as an object whose handlers update its
 * fields in place. Each handler is atomic: the answer of the store call it awaits is an
 * argument. Every method is proved to change the state exactly as the matching function of
 * module DraftModel says, so the properties proved there about those functions hold of the
 * object.
 */
module DraftCoordinator {
  import opened Js
  import opened DraftModel

  class TinyEditor {
    // Inputs of the component, fixed from construction on.
    const hasControl: bool
    const hasEditor: bool
    const hasSite: bool
    const autoSave: bool
    const contextLevel: Option<ContextLevel>
    const contextInstanceId: Option<int>
    const draftExtraParams: Option<map<string, string>>
    const pageInstance: string
    /** `CoreDom.htmlIsBlank`. */
    const htmlIsBlank: string -> bool

    var elementId: Option<string>
    var lastDraft: string
    var originalContent: JsValue
    var draftWasRestored: bool
    var isEmpty: bool

    // The bound form control and the editor, as far as the component sees them.
    var controlValue: JsValue
    var dirty: bool
    var touched: bool
    var editorContent: string

    // Live listeners: the valueChanges subscription, the auto-save interval, FORM_ACTION.
    var subscribed: bool
    var timerRunning: bool
    var formObserved: bool

    ghost var storeCalls: seq<StoreCall>
    ghost var toasts: seq<Toast>
    ghost var emitted: seq<JsValue>
    ghost var editorWrites: seq<string>

    function EnvOf(): Env {
      Env(hasControl, hasEditor, hasSite, autoSave, contextLevel, contextInstanceId, draftExtraParams, pageInstance)
    }

    ghost function Snapshot(): Coordinator
      reads this
    {
      Coordinator(ComponentFields(elementId, lastDraft, originalContent, draftWasRestored, isEmpty),
                  FieldView(controlValue, dirty, touched, editorContent),
                  Listeners(subscribed, timerRunning, formObserved),
                  Logs(storeCalls, toasts, emitted, editorWrites))
    }

    /** The constructor; `pageInstance` is `'app_' + Date.now()`, made by the caller. */
    constructor (hasControl: bool, controlValue: JsValue, hasEditor: bool, editorContent: string,
                 hasSite: bool, autoSave: bool, contextLevel: Option<ContextLevel>,
                 contextInstanceId: Option<int>, elementId: Option<string>,
                 draftExtraParams: Option<map<string, string>>, pageInstance: string,
                 htmlIsBlank: string -> bool)
      ensures EnvOf() == Env(hasControl, hasEditor, hasSite, autoSave, contextLevel, contextInstanceId,
                             draftExtraParams, pageInstance)
      ensures this.htmlIsBlank == htmlIsBlank
      ensures Snapshot() == Created(elementId, controlValue, editorContent)
    {
      this.hasControl := hasControl;
      this.hasEditor := hasEditor;
      this.hasSite := hasSite;
      this.autoSave := autoSave;
      this.contextLevel := contextLevel;
      this.contextInstanceId := contextInstanceId;
      this.draftExtraParams := draftExtraParams;
      this.pageInstance := pageInstance;
      this.htmlIsBlank := htmlIsBlank;
      this.elementId := elementId;
      this.controlValue := controlValue;
      this.editorContent := editorContent;
      lastDraft := "";
      originalContent := Undefined;
      draftWasRestored := false;
      isEmpty := true;
      dirty := false;
      touched := false;
      subscribed := false;
      timerRunning := false;
      formObserved := false;
      storeCalls := [];
      toasts := [];
      emitted := [];
      editorWrites := [];
    }

    function DraftKeyNow(): DraftKey
      reads this
    {
      KeyOf(EnvOf(), elementId)
    }

    /** `shouldAutoSaveDrafts`. */
    method ShouldAutoSaveDrafts() returns (b: bool)
      ensures b <==> hasSite && autoSave && contextLevel.Some? && contextInstanceId.Some? && elementId.Some?
      ensures b == ShouldAutoSave(EnvOf(), Snapshot())
    {
      b := hasSite && autoSave && contextLevel.Some? && contextInstanceId.Some? && elementId.Some?;
    }

    /**
     * `ngAfterViewInit`; `optionsLoaded` says whether the awaited `getEditorOptions` resolved,
     * and `response` is what `resumeDraft` answers if a draft is asked for.
     */
    method AfterViewInit(optionsLoaded: bool, response: Response<Option<DraftEntry>>)
      modifies this
      ensures Snapshot() == AttachStep(EnvOf(), old(Snapshot()), optionsLoaded, response)
    {
      SeedDraftFields();
      if !optionsLoaded {
        return;
      }
      SetListeners();
      var autoSaveOn := ShouldAutoSaveDrafts();
      if autoSaveOn {
        RestoreDraft(response);
        StartAutoSave();
      }
    }

    /** The start of `ngAfterViewInit`: seed the draft fields from the control. */
    method SeedDraftFields()
      modifies this
      ensures Snapshot() == SeedDrafts(EnvOf(), old(Snapshot()))
    {
      originalContent := if hasControl then NullToUndefined(controlValue) else Undefined;
      lastDraft := if hasControl then Coalesce(controlValue, "") else "";
    }

    /**
     * `ngAfterViewInit` once the options are there: subscribe to the control's changes
     * (`setListeners`) and prefix the element id.
     */
    method SetListeners()
      modifies this
      ensures Snapshot() == old(Snapshot()).(own := old(Snapshot()).own.(elementId := PrefixedElementId(old(elementId))),
                                             live := old(Snapshot()).live.(subscribed := hasControl))
    {
      subscribed := hasControl;
      if elementId.Some? && elementId.value != "" {
        elementId := Some("id_" + elementId.value);
      }
    }

    /** `autoSaveDrafts` and `deleteDraftOnSubmitOrCancel`: start the interval and the observer. */
    method StartAutoSave()
      modifies this`timerRunning, this`formObserved
      ensures timerRunning && formObserved
    {
      timerRunning := true;
      formObserved := true;
    }

    /** `restoreDraft`. */
    method RestoreDraft(response: Response<Option<DraftEntry>>)
      modifies this
      ensures Snapshot() == RestoreStep(EnvOf(), old(Snapshot()), response)
    {
      var call := ResumeDraft(DraftKeyNow(), pageInstance, originalContent);
      storeCalls := storeCalls + [call];
      if response.Answered? && response.value.Some? {
        ApplyDraft(response.value.value);
      }
    }

    /** The part of `restoreDraft` that handles the entry the store answered. */
    method ApplyDraft(entry: DraftEntry)
      modifies this
      ensures Snapshot() == ApplyEntry(EnvOf(), old(Snapshot()), entry)
    {
      touched := true;
      var draftText := NormalizeDraft(Coalesce(entry.draftText, ""));
      if draftText != "" && hasControl && !LooseEquals(Str(draftText), controlValue) {
        RestoreText(draftText, entry);
      }
    }

    /** The branch of `restoreDraft` that restores the draft text `text` of `entry`. */
    method RestoreText(text: string, entry: DraftEntry)
      requires text == NormalizeDraft(Coalesce(entry.draftText, "")) && touched
      requires Restores(EnvOf(), Snapshot(), entry)
      modifies this
      ensures Snapshot() == ApplyEntry(EnvOf(), old(Snapshot()), entry)
    {
      ghost var s := Snapshot();
      assert ApplyEntry(EnvOf(), s, entry) == Coordinator(
        s.own.(lastDraft := text, draftWasRestored := true, originalContent := entry.originalContent),
        s.view.(control := Str(text), editorContent := if hasEditor then text else s.view.editorContent),
        s.live,
        s.log.(editorWrites := if hasEditor then s.log.editorWrites + [text] else s.log.editorWrites,
               toasts := if LooseEquals(entry.draftText, entry.originalContent) then s.log.toasts
                         else s.log.toasts + [RestoreToast]));
      ShowDraft(text);
      lastDraft := text;
      draftWasRestored := true;
      originalContent := entry.originalContent;
      if !LooseEquals(entry.draftText, entry.originalContent) {
        toasts := toasts + [RestoreToast];
      }
    }

    /** Put a restored draft in the control and, when there is one, the editor. */
    method ShowDraft(text: string)
      modifies this
      ensures controlValue == Str(text)
      ensures editorContent == (if hasEditor then text else old(editorContent))
      ensures editorWrites == (if hasEditor then old(editorWrites) + [text] else old(editorWrites))
      ensures originalContent == (if hasEditor then old(originalContent) else Str(text))
      ensures elementId == old(elementId) && lastDraft == old(lastDraft) && draftWasRestored == old(draftWasRestored)
      ensures isEmpty == old(isEmpty) && dirty == old(dirty) && touched == old(touched)
      ensures subscribed == old(subscribed) && timerRunning == old(timerRunning) && formObserved == old(formObserved)
      ensures storeCalls == old(storeCalls) && toasts == old(toasts) && emitted == old(emitted)
    {
      controlValue := Str(text);
      if hasEditor {
        editorContent := text;
        editorWrites := editorWrites + [text];
      } else {
        originalContent := Str(text);
      }
    }

    /** The host sets the control's value, emitting `valueChanges`, which the subscription handles. */
    method HostSetValue(newValue: JsValue)
      requires hasControl
      modifies this
      ensures Snapshot() == ExternalChangeStep(EnvOf(), old(Snapshot()), newValue)
    {
      ghost var s := Snapshot();
      controlValue := newValue;
      if !subscribed {
        return;
      }
      if draftWasRestored && originalContent == newValue {
        controlValue := Str(lastDraft);
        return;
      }
      AcceptValue(s, newValue);
    }

    /** The subscription accepts a new value `v` pushed from outside, from state `s`, and saves it. */
    method AcceptValue(ghost s: Coordinator, v: JsValue)
      requires Snapshot() == s.(view := s.view.(control := v))
      requires s.live.subscribed && !(s.own.draftWasRestored && s.own.originalContent == v)
      modifies this
      ensures Snapshot() == ExternalChangeStep(EnvOf(), s, v)
    {
      var text := Coalesce(v, "");
      assert ExternalChangeStep(EnvOf(), s, v) == Coordinator(
        s.own.(originalContent := NullToUndefined(v), lastDraft := text),
        s.view.(control := v, editorContent := if hasEditor then text else s.view.editorContent),
        s.live,
        s.log.(editorWrites := if hasEditor then s.log.editorWrites + [text] else s.log.editorWrites,
               calls := s.log.calls + [SaveDraft(DraftKeyNow(), pageInstance, text, NullToUndefined(v))]));
      originalContent := NullToUndefined(v);
      if hasEditor {
        editorContent := text;
        editorWrites := editorWrites + [text];
      }
      lastDraft := text;
      storeCalls := storeCalls + [SaveDraft(DraftKeyNow(), pageInstance, lastDraft, originalContent)];
    }

    /** `isNullOrWhiteSpace`, which also records the answer in `isEmpty`. */
    method IsNullOrWhiteSpace(value: JsValue) returns (b: bool)
      modifies this`isEmpty
      ensures b == isEmpty
      ensures b <==> (!value.Str? || htmlIsBlank(value.s))
    {
      if !value.Str? {
        isEmpty := true;
        return true;
      }
      isEmpty := htmlIsBlank(value.s);
      b := isEmpty;
    }

    /** `setContent`. */
    method SetContent(value: JsValue)
      modifies this
      ensures Snapshot() == SetContentStep(EnvOf(), old(Snapshot()), htmlIsBlank, value)
    {
      if !hasEditor {
        return;
      }
      var blank := IsNullOrWhiteSpace(value);
      if blank {
        if editorContent != BlankParagraph {
          editorContent := BlankParagraph;
          editorWrites := editorWrites + [BlankParagraph];
        }
      } else {
        if editorContent != value.s {
          editorContent := value.s;
          editorWrites := editorWrites + [value.s];
        }
      }
    }

    /** `clearText`. */
    method ClearText()
      modifies this
      ensures Snapshot() == ClearTextStep(EnvOf(), old(Snapshot()), htmlIsBlank)
    {
      SetContent(Null);
      if hasControl {
        controlValue := Null;
      }
    }

    /** `onChange`. */
    method OnChange()
      modifies this
      ensures Snapshot() == OnChangeStep(EnvOf(), old(Snapshot()), htmlIsBlank)
    {
      if !hasEditor {
        return;
      }
      ghost var s := Snapshot();
      var content := editorContent;
      var blank := IsNullOrWhiteSpace(Str(content));
      if blank {
        ClearText();
      } else if hasControl {
        controlValue := Str(content);
        dirty := true;
      }
      EmitChange();
    }

    /** `contentChanged.emit(this.control?.value)`. */
    method EmitChange()
      modifies this`emitted
      ensures emitted == old(emitted) + [if hasControl then controlValue else Undefined]
    {
      emitted := emitted + [if hasControl then controlValue else Undefined];
    }

    /** The user edits the editor and the editor reports the change. */
    method UserEdit(content: string)
      modifies this
      ensures Snapshot() == UserEditStep(EnvOf(), old(Snapshot()), htmlIsBlank, content)
    {
      if !hasEditor {
        return;
      }
      editorContent := content;
      OnChange();
    }

    /** One run of the `autoSaveDrafts` interval callback; `saved` is the store's answer. */
    method Tick(saved: bool)
      modifies this
      ensures Snapshot() == TickStep(EnvOf(), old(Snapshot()), saved)
    {
      if !timerRunning || !hasControl {
        return;
      }
      var newText := Coalesce(controlValue, "");
      if lastDraft == newText {
        return;
      }
      storeCalls := storeCalls + [SaveDraft(DraftKeyNow(), pageInstance, newText, originalContent)];
      if saved {
        lastDraft := newText;
        toasts := toasts + [SavedToast];
      }
    }

    /** The FORM_ACTION observer of `deleteDraftOnSubmitOrCancel`; a failed delete is ignored. */
    method FormAction(sameForm: bool)
      modifies this
      ensures Snapshot() == FormActionStep(EnvOf(), old(Snapshot()), sameForm)
    {
      if formObserved && sameForm {
        storeCalls := storeCalls + [DeleteDraft(DraftKeyNow())];
      }
    }

    /** `ngOnDestroy`. */
    method OnDestroy()
      modifies this
      ensures Snapshot() == DestroyStep(old(Snapshot()))
    {
      subscribed := false;
      timerRunning := false;
      formObserved := false;
    }
  }
}
