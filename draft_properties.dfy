/**
 * Properties of the draft coordinator that relate several handler calls: what a restored
 * draft does against a stale push from the host, auto-save ticks that have nothing to save,
 * retries after failed saves, the silence of a destroyed component, and the draft key that
 * every store call of one component uses.
 */
module DraftProperties {
  import opened Js
  import opened DraftModel

  /** A resumed draft made only of untouched-editor markup restores nothing. */
  lemma UntouchedMarkupIsNotRestored(env: Env, s: Coordinator, text: string, original: JsValue)
    requires text in UntouchedMarkup
    ensures var r := RestoreStep(env, s, Answered(Some(DraftEntry(Str(text), original))));
      SameDraftState(r, s) && r.log.toasts == s.log.toasts && r.log.editorWrites == s.log.editorWrites
  {
    assert NormalizeDraft(text) == "";
  }

  /**
   * After a draft was restored over the host's value, the host pushing that same original
   * value again leaves the control holding the draft, and nothing is saved.
   */
  lemma RestoredDraftWinsOverStalePush(env: Env, s: Coordinator, entry: DraftEntry)
    requires s.live.subscribed && Restores(env, s, entry)
    ensures var restored := ApplyEntry(env, s, entry);
      var r := ExternalChangeStep(env, restored, entry.originalContent);
      && r.view.control == Str(NormalizeDraft(Coalesce(entry.draftText, "")))
      && r.log.calls == s.log.calls
      && r.own.originalContent == entry.originalContent
  {
  }

  /** A component on which no listener is live makes no store call, whatever happens. */
  lemma {:induction false} DetachedIsSilent(env: Env, blank: string -> bool, s: Coordinator, es: seq<Event>)
    requires Detached(s)
    ensures Detached(Run(env, blank, s, es))
    ensures Run(env, blank, s, es).log.calls == s.log.calls
    ensures Run(env, blank, s, es).own.lastDraft == s.own.lastDraft
    decreases |es|
  {
    if es != [] {
      var s1 := Step(env, blank, s, es[0]);
      DetachedIsSilent(env, blank, s1, es[1..]);
    }
  }

  /** The state after `ngOnDestroy` stays silent, however many ticks and changes follow. */
  lemma DestroyStopsStoreCalls(env: Env, blank: string -> bool, s: Coordinator, es: seq<Event>)
    ensures Run(env, blank, s, [Destroy] + es).log.calls == s.log.calls
  {
    assert ([Destroy] + es)[1..] == es;
    DetachedIsSilent(env, blank, DestroyStep(s), es);
  }

  predicate AllTicks(es: seq<Event>) {
    forall i :: 0 <= i < |es| ==> es[i].Tick?
  }

  /**
   * When the last saved draft is the control's text, ticks save nothing and change nothing,
   * whether the store would accept a save or not.
   */
  lemma {:induction false} QuietTicks(env: Env, blank: string -> bool, s: Coordinator, es: seq<Event>)
    requires AllTicks(es)
    requires s.own.lastDraft == Coalesce(s.view.control, "")
    ensures Run(env, blank, s, es) == s
    decreases |es|
  {
    if es != [] {
      assert es[0].Tick?;
      assert Step(env, blank, s, es[0]) == s;
      assert AllTicks(es[1..]) by {
        forall i | 0 <= i < |es[1..]| ensures es[1..][i].Tick? {
          assert es[1..][i] == es[i + 1];
        }
      }
      QuietTicks(env, blank, s, es[1..]);
    }
  }

  /** After a tick that saved, later ticks with an unchanged control are no-ops. */
  lemma SaveThenQuiet(env: Env, blank: string -> bool, s: Coordinator, es: seq<Event>)
    requires s.live.timerRunning && env.hasControl && s.own.lastDraft != Coalesce(s.view.control, "")
    requires AllTicks(es)
    ensures var saved := TickStep(env, s, true);
      && saved.own.lastDraft == Coalesce(s.view.control, "")
      && |saved.log.calls| == |s.log.calls| + 1
      && Run(env, blank, saved, es) == saved
  {
    QuietTicks(env, blank, TickStep(env, s, true), es);
  }

  /** The save a tick issues when the control's text differs from the last saved draft. */
  function PendingSave(env: Env, s: Coordinator): StoreCall {
    SaveDraft(KeyOf(env, s.own.elementId), env.pageInstance, Coalesce(s.view.control, ""), s.own.originalContent)
  }

  /**
   * Failed saves do not advance the last saved draft, so every tick retries the same save;
   * the first one the store accepts brings the last saved draft up to the control's text.
   */
  lemma {:induction false} RetryUntilSaved(env: Env, blank: string -> bool, s: Coordinator, failures: nat)
    requires s.live.timerRunning && env.hasControl && s.own.lastDraft != Coalesce(s.view.control, "")
    ensures var r := Run(env, blank, s, Repeat(Tick(false), failures) + [Tick(true)]);
      && r.own.lastDraft == Coalesce(s.view.control, "")
      && r.log.calls == s.log.calls + Repeat(PendingSave(env, s), failures + 1)
      && r.view.control == s.view.control && r.own.originalContent == s.own.originalContent
    decreases failures
  {
    var es := Repeat(Tick(false), failures) + [Tick(true)];
    if failures == 0 {
      assert es == [Tick(true)];
      assert Run(env, blank, s, es) == Run(env, blank, TickStep(env, s, true), []);
      assert Repeat(PendingSave(env, s), 1) == [PendingSave(env, s)];
    } else {
      var s1 := TickStep(env, s, false);
      assert s1 == AddCall(s, PendingSave(env, s));
      assert es[0] == Tick(false);
      assert es[1..] == Repeat(Tick(false), failures - 1) + [Tick(true)];
      RetryUntilSaved(env, blank, s1, failures - 1);
      assert PendingSave(env, s1) == PendingSave(env, s);
      assert Repeat(PendingSave(env, s), failures + 1)
          == [PendingSave(env, s)] + Repeat(PendingSave(env, s), failures);
    }
  }

  /** No handler resets `draftWasRestored`: once a draft was restored, the flag stays set. */
  lemma {:induction false} RestoredFlagSticks(env: Env, blank: string -> bool, s: Coordinator, es: seq<Event>)
    requires s.own.draftWasRestored
    ensures Run(env, blank, s, es).own.draftWasRestored
    decreases |es|
  {
    if es != [] {
      RestoredFlagSticks(env, blank, Step(env, blank, s, es[0]), es[1..]);
    }
  }

  /** Only a host push replaces `originalContent`; edits, clears, ticks, form actions and destroy keep it. */
  lemma {:induction false} OriginalKeptWithoutHostPush(env: Env, blank: string -> bool, s: Coordinator, es: seq<Event>)
    requires forall i :: 0 <= i < |es| ==> !es[i].HostSetValue?
    ensures var r := Run(env, blank, s, es);
      && r.own.originalContent == s.own.originalContent
      && (s.own.draftWasRestored ==> r.own.draftWasRestored)
    decreases |es|
  {
    if es != [] {
      assert !es[0].HostSetValue?;
      OriginalKeptWithoutHostPush(env, blank, Step(env, blank, s, es[0]), es[1..]);
    }
  }

  /** After a restore and any user activity, a late push of the original markup still only
      puts the current draft back into the control, and makes no store call. */
  lemma StalePushAfterEditsIsIgnored(env: Env, blank: string -> bool, s: Coordinator, es: seq<Event>)
    requires s.own.draftWasRestored
    requires forall i :: 0 <= i < |es| ==> !es[i].HostSetValue?
    requires Run(env, blank, s, es).live.subscribed
    ensures var r := Run(env, blank, s, es);
      ExternalChangeStep(env, r, s.own.originalContent) == r.(view := r.view.(control := Str(r.own.lastDraft)))
  {
    OriginalKeptWithoutHostPush(env, blank, s, es);
  }

  /** No handler after attach changes the element id, and every call they add uses its key. */
  lemma {:induction false} CallsStayKeyed(env: Env, blank: string -> bool, s: Coordinator, es: seq<Event>)
    requires AllKeyed(s.log.calls, KeyOf(env, s.own.elementId))
    ensures Run(env, blank, s, es).own.elementId == s.own.elementId
    ensures AllKeyed(Run(env, blank, s, es).log.calls, KeyOf(env, s.own.elementId))
    decreases |es|
  {
    if es != [] {
      var s1 := Step(env, blank, s, es[0]);
      assert s1.own.elementId == s.own.elementId;
      assert AllKeyed(s1.log.calls, KeyOf(env, s.own.elementId)) by {
        forall i | 0 <= i < |s1.log.calls| ensures s1.log.calls[i].key == KeyOf(env, s.own.elementId) {
          if i < |s.log.calls| { assert s1.log.calls[i] == s.log.calls[i]; }
        }
      }
      CallsStayKeyed(env, blank, s1, es[1..]);
    }
  }

  /**
   * Over the whole life of one component, from construction through `ngAfterViewInit` and
   * any later events, every store call uses one key: the one built from the prefixed element id.
   */
  lemma SessionUsesOneKey(env: Env, blank: string -> bool, elementId: Option<string>, control: JsValue,
                          content: string, optionsLoaded: bool, response: Response<Option<DraftEntry>>,
                          es: seq<Event>)
    ensures var attached := AttachStep(env, Created(elementId, control, content), optionsLoaded, response);
      AllKeyed(Run(env, blank, attached, es).log.calls, KeyOf(env, PrefixedElementId(elementId)))
  {
    var attached := AttachStep(env, Created(elementId, control, content), optionsLoaded, response);
    if optionsLoaded {
      assert AllKeyed(attached.log.calls, KeyOf(env, attached.own.elementId));
      CallsStayKeyed(env, blank, attached, es);
    } else {
      DetachedIsSilent(env, blank, attached, es);
    }
  }

  /**
   * When the editor options fail to load, `ngAfterViewInit` stops before any listener is set
   * up: whatever events follow, no store call is made and no draft is saved.
   */
  lemma FailedAttachIsSilent(env: Env, blank: string -> bool, elementId: Option<string>, control: JsValue,
                             content: string, response: Response<Option<DraftEntry>>, es: seq<Event>)
    ensures var attached := AttachStep(env, Created(elementId, control, content), false, response);
      && attached.own.elementId == elementId
      && Run(env, blank, attached, es).log.calls == []
      && Run(env, blank, attached, es).own.lastDraft == attached.own.lastDraft
  {
    var attached := AttachStep(env, Created(elementId, control, content), false, response);
    DetachedIsSilent(env, blank, attached, es);
  }

  /**
   * The scenario of a field attached with an empty value, edited to any non-blank text `text`
   * and then auto-saved: the store receives that text with the empty original content.
   */
  lemma EditThenTickSavesEdit(env: Env, blank: string -> bool, elementId: string, text: string)
    requires env.hasControl && env.hasEditor && env.hasSite && env.autoSave
    requires env.contextLevel.Some? && env.contextInstanceId.Some?
    requires text != "" && !blank(text)
    ensures var attached := AttachStep(env, Created(Some(elementId), Str(""), ""), true, Answered(None));
      var r := Run(env, blank, attached, [UserEdit(text), Tick(true)]);
      && |r.log.calls| > 0
      && r.log.calls[|r.log.calls| - 1] == SaveDraft(KeyOf(env, attached.own.elementId), env.pageInstance, text, Str(""))
      && r.own.lastDraft == text
  {
    var attached := AttachStep(env, Created(Some(elementId), Str(""), ""), true, Answered(None));
    var edited := UserEditStep(env, attached, blank, text);
    assert edited.view.control == Str(text) && edited.own.originalContent == Str("");
    assert Run(env, blank, attached, [UserEdit(text), Tick(true)])
        == Run(env, blank, edited, [Tick(true)]);
  }
}
