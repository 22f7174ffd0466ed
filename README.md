# TinyMCE editor integration of the Moodle app, in Dafny

This project models the core of the Moodle app's rich-text editor integration and proves
properties of the model.

- **The draft coordinator of `CoreEditorTinyEditorComponent`.** The component mirrors the
  bound form control into the editor and back. It restores a saved draft when the editor is
  attached, and saves drafts on a 30-second interval and whenever the host replaces the value.
  It deletes the draft when the enclosing form is submitted or cancelled, and stops all of
  this on destroy.
  - Module `DraftModel` states every handler as a function on a snapshot of the component's
    state.
  - Module `DraftCoordinator` is the component itself: a class whose fields are that state,
    one method per handler, each proved to leave exactly the state its function gives.
  - Module `DraftProperties` proves what holds across handlers. A restored draft wins over a
    stale push of the same original value. A tick saves only a changed text. Failed saves are
    retried until one succeeds. A destroyed component stays silent. Every store call of one
    component uses one key.
- **The editor options of the core editor (`tiny-config.ts`).**
  - Module `TinyConfig` covers premium-plugin gating, the plugin list, the Tools menu and the
    premium-script URL.
  - It also has the two module-level caches as a class: the memoised TinyMCE promise, and the
    one-slot premium-plugins promise keyed by API key.
- **The TinyMCE add-on's loader (`loader.ts`).**
  - Module `TinyLoader` has the strings table handed to `tinyMCE.addI18n`, as a specification
    function and as the loop that fills it.
  - It also has the memoised TinyMCE promise that registers the QR-scan plugin once loaded.
- **The TinyMCE add-on's options (`config.ts`).**
  - Module `TinyAddonConfig` has the dark-mode skin and content style, and the plugin list.
  - It also has `removeSubmenuItem`, which the init hook uses to drop `justify` from the
    `align` menu.
- Module `Js` holds the JavaScript values the code works with:
  - `string | null | undefined`, with `??`, `===` and `==`;
  - settled promises;
  - the `<script>` elements of the document head;
  - `String.prototype.trim`.

Some parts are parameters, because the model does not contain them:
- the draft store, whose answers are inputs of the handlers;
- the editor engine, represented by the content it shows;
- `CoreDom.htmlIsBlank`;
- `Translate.instant`;
- `CorePath.concatenatePaths`;
- whether a script loads.

The model describes these four source files:
- src/core/features/editor/components/tiny-editor/tiny-editor.ts
- src/core/features/editor/utils/tiny-config.ts
- src/addons/tinymce/utils/loader.ts
- src/addons/tinymce/utils/config.ts

`restoreDraft` sets `originalContent` to the draft text when no editor is bound,
and then overwrites it with `entry.originalcontent`. The model keeps both writes, and its
contract states the final value.

## Model

| member | source | states |
|---|---|---|
| Js.Coalesce | src/core/features/editor/components/tiny-editor/tiny-editor.ts:124-125 | `v ?? d` is the string when there is one and `d` for `null` and `undefined` |
| Js.NullToUndefined | src/core/features/editor/components/tiny-editor/tiny-editor.ts:124 | `v ?? undefined` keeps every string and turns `null` into `undefined` |
| Js.Trim | src/addons/tinymce/utils/config.ts:312 | the result has no whitespace at either end, and the input is the result padded with whitespace only |
| DraftModel.Created | src/core/features/editor/components/tiny-editor/tiny-editor.ts:87-89 | a new component has an empty last draft, an undefined original content, no restored draft and no live listener |
| DraftModel.PrefixedElementId | src/core/features/editor/components/tiny-editor/tiny-editor.ts:133-136 | a non-empty element id gets `id_` in front; an empty or missing one is left as it is |
| DraftModel.NormalizeDraft | src/core/features/editor/components/tiny-editor/tiny-editor.ts:429-435 | the normalised draft is empty exactly when the text is empty or one of the five untouched-editor markups; otherwise it is the text |
| DraftModel.Seed | src/core/features/editor/components/tiny-editor/tiny-editor.ts:124-137 | attach sets `originalContent` to the control's string or undefined and `lastDraft` to the string or `''`; it subscribes when there is a control and prefixes the element id |
| DraftModel.ApplyEntry | src/core/features/editor/components/tiny-editor/tiny-editor.ts:426-453 | a restored draft goes into the control, `lastDraft` and the editor, and sets `draftWasRestored`. `originalContent` ends as the entry's. The toast appears only when draft and original differ loosely. A draft that does not restore only marks the field touched |
| DraftModel.RestoreStep | src/core/features/editor/components/tiny-editor/tiny-editor.ts:410-457 | exactly one resume call under the component's key. A missing entry or a store error changes nothing else |
| DraftModel.KeyOf | src/core/features/editor/components/tiny-editor/tiny-editor.ts:173-176 | each part of the key is the component's value when it has one, else the default: `SYSTEM`, `0`, `''` and `{}` |
| DraftModel.ShouldAutoSave | src/core/features/editor/components/tiny-editor/tiny-editor.ts:397-403 | when drafts are auto-saved, the context level, instance id and element id are all set, so the key uses them and not the defaults |
| DraftModel.SeedDrafts | src/core/features/editor/components/tiny-editor/tiny-editor.ts:124-125 | before the options are awaited, `originalContent` becomes the control's string or undefined and `lastDraft` the string or `''`; nothing else changes |
| DraftModel.AttachStep | src/core/features/editor/components/tiny-editor/tiny-editor.ts:120-151 | when the editor options fail to load, only the two draft fields are seeded. Otherwise the listeners are set and the id is prefixed. Without auto-save nothing else happens. With auto-save the state is `RestoreStep` of the seeded state with the interval and the form observer started, so there is one resume call |
| DraftModel.ExternalChangeStep | src/core/features/editor/components/tiny-editor/tiny-editor.ts:156-181 | with a restored draft and the same original, only the control is reset to `lastDraft` and no save is made. Otherwise the fields, the editor and one save of `newValue ?? ''` follow the new value |
| DraftModel.EditorTarget | src/core/features/editor/components/tiny-editor/tiny-editor.ts:367-377 | blank or missing content is shown as `<p></p>`, any other content as itself |
| DraftModel.SetContentStep | src/core/features/editor/components/tiny-editor/tiny-editor.ts:362-380 | the editor is written exactly when it shows something other than the target: no loops. The control, `lastDraft`, `originalContent` and the store calls stay unchanged |
| DraftModel.ClearTextStep | src/core/features/editor/components/tiny-editor/tiny-editor.ts:385-390 | the control becomes `null` and the editor `<p></p>`; `lastDraft`, `originalContent`, the dirty flag and the store calls are unchanged |
| DraftModel.OnChangeStep | src/core/features/editor/components/tiny-editor/tiny-editor.ts:261-280 | blank content clears the control to `null`; other content is copied in and marks it dirty. The control's value is emitted once; no draft field or store call changes |
| DraftModel.TickStep | src/core/features/editor/components/tiny-editor/tiny-editor.ts:462-493 | a store call is made exactly when the interval runs, a control exists and `control.value ?? ''` differs from `lastDraft`. `lastDraft` advances only when the save succeeds; nothing else changes |
| DraftModel.FormActionStep | src/core/features/editor/components/tiny-editor/tiny-editor.ts:498-515 | a form action from the editor's own form deletes the draft under the component's key; any other changes nothing |
| DraftModel.UserEditStep | src/core/features/editor/components/tiny-editor/tiny-editor.ts:261-280 | a non-blank edit goes into the control and marks it dirty; `lastDraft`, `originalContent` and the store calls do not change, and neither do the listeners |
| DraftModel.DestroyStep | src/core/features/editor/components/tiny-editor/tiny-editor.ts:557-562 | destroy unsubscribes, clears the interval and stops observing form actions, and changes nothing else |
| DraftModel.Step | src/core/features/editor/components/tiny-editor/tiny-editor.ts:156-181 | no event changes the element id or the restore flag. Each event adds at most one store call, under the component's key. No event revives a detached component. Only a host push changes `originalContent` |
| DraftProperties.UntouchedMarkupIsNotRestored | src/core/features/editor/components/tiny-editor/tiny-editor.ts:429-437 | a resumed draft that is untouched-editor markup changes no draft field, shows no toast and writes nothing to the editor |
| DraftProperties.RestoredDraftWinsOverStalePush | src/core/features/editor/components/tiny-editor/tiny-editor.ts:159-164 | after a restore, the host pushing the entry's original content again leaves the draft in the control and saves nothing |
| DraftProperties.DetachedIsSilent | src/core/features/editor/components/tiny-editor/tiny-editor.ts:557-562 | a component with no live listener makes no store call and keeps its last draft, whatever events follow |
| DraftProperties.DestroyStopsStoreCalls | src/core/features/editor/components/tiny-editor/tiny-editor.ts:557-562 | after destroy, no later sequence of events makes a store call |
| DraftProperties.QuietTicks | src/core/features/editor/components/tiny-editor/tiny-editor.ts:468-473 | when `lastDraft` is the control's text, any number of ticks change nothing |
| DraftProperties.SaveThenQuiet | src/core/features/editor/components/tiny-editor/tiny-editor.ts:475-488 | a successful save brings `lastDraft` up to the control's text, and later ticks are no-ops |
| DraftProperties.RetryUntilSaved | src/core/features/editor/components/tiny-editor/tiny-editor.ts:475-491 | after n failed ticks and one successful tick, the same save was sent n+1 times, and `lastDraft` is the control's text |
| DraftProperties.OriginalKeptWithoutHostPush | src/core/features/editor/components/tiny-editor/tiny-editor.ts:156-181 | a run of events with no host push keeps `originalContent`, and keeps `draftWasRestored` once set |
| DraftProperties.StalePushAfterEditsIsIgnored | src/core/features/editor/components/tiny-editor/tiny-editor.ts:159-164 | after a restore and any edits, clears, ticks or form actions, a push of the original content while still subscribed only puts `lastDraft` back into the control and saves nothing |
| DraftProperties.RestoredFlagSticks | src/core/features/editor/components/tiny-editor/tiny-editor.ts:446 | once set, `draftWasRestored` is never reset |
| DraftProperties.CallsStayKeyed | src/core/features/editor/components/tiny-editor/tiny-editor.ts:476-509 | after attach, events keep the element id, and every store call they add uses the component's key |
| DraftProperties.SessionUsesOneKey | src/core/features/editor/components/tiny-editor/tiny-editor.ts:120-181 | from construction through attach, whether or not the options load, and any later events, every store call uses the key built from the prefixed element id |
| DraftProperties.FailedAttachIsSilent | src/core/features/editor/components/tiny-editor/tiny-editor.ts:120-127 | when the editor options fail to load, the element id stays unprefixed and no later event makes a store call or changes `lastDraft` |
| DraftProperties.EditThenTickSavesEdit | src/core/features/editor/components/tiny-editor/tiny-editor.ts:261-280 | an edit followed by a successful tick saves the edited text with the original content, and advances `lastDraft` to it |
| DraftCoordinator.TinyEditor.constructor | src/core/features/editor/components/tiny-editor/tiny-editor.ts:87-89 | the fields are those of `Created` |
| DraftCoordinator.TinyEditor.ShouldAutoSaveDrafts | src/core/features/editor/components/tiny-editor/tiny-editor.ts:397-403 | true exactly when a site is open, autoSave is on, and the context level, instance id and element id are all set; equal to the `ShouldAutoSave` predicate on the component's state |
| DraftCoordinator.TinyEditor.AfterViewInit | src/core/features/editor/components/tiny-editor/tiny-editor.ts:120-151 | the new state is `AttachStep` of the old one, for whether the options loaded |
| DraftCoordinator.TinyEditor.SeedDraftFields | src/core/features/editor/components/tiny-editor/tiny-editor.ts:124-125 | the new state is `SeedDrafts` of the old one |
| DraftCoordinator.TinyEditor.HostSetValue | src/core/features/editor/components/tiny-editor/tiny-editor.ts:156-181 | the new state is `ExternalChangeStep` of the old one |
| DraftCoordinator.TinyEditor.RestoreDraft | src/core/features/editor/components/tiny-editor/tiny-editor.ts:410-457 | the new state is `RestoreStep` of the old one |
| DraftCoordinator.TinyEditor.IsNullOrWhiteSpace | src/core/features/editor/components/tiny-editor/tiny-editor.ts:345-355 | the result is true exactly when the value is missing or blank HTML, and `isEmpty` is set to it |
| DraftCoordinator.TinyEditor.SetContent | src/core/features/editor/components/tiny-editor/tiny-editor.ts:362-380 | the new state is `SetContentStep` of the old one |
| DraftCoordinator.TinyEditor.ClearText | src/core/features/editor/components/tiny-editor/tiny-editor.ts:385-390 | the new state is `ClearTextStep` of the old one |
| DraftCoordinator.TinyEditor.OnChange | src/core/features/editor/components/tiny-editor/tiny-editor.ts:261-280 | the new state is `OnChangeStep` of the old one |
| DraftCoordinator.TinyEditor.UserEdit | src/core/features/editor/components/tiny-editor/tiny-editor.ts:261-280 | the new state is `UserEditStep` of the old one |
| DraftCoordinator.TinyEditor.Tick | src/core/features/editor/components/tiny-editor/tiny-editor.ts:462-493 | the new state is `TickStep` of the old one |
| DraftCoordinator.TinyEditor.FormAction | src/core/features/editor/components/tiny-editor/tiny-editor.ts:498-515 | the new state is `FormActionStep` of the old one |
| DraftCoordinator.TinyEditor.OnDestroy | src/core/features/editor/components/tiny-editor/tiny-editor.ts:557-562 | the new state is `DestroyStep` of the old one |
| TinyConfig.SelectedPremium | src/core/features/editor/utils/tiny-config.ts:38-46 | premium plugins are enabled only with a non-empty API key, a context allowed premium access, and a script that loaded; then they are the site's list |
| TinyConfig.PluginList | src/core/features/editor/utils/tiny-config.ts:260-292 | the plugin list is the 19 base plugins followed by the premium ones, each in its own order |
| TinyConfig.ToolsMenuItems | src/core/features/editor/utils/tiny-config.ts:200-204 | the Tools menu ends with the `export` group, and with media the media manager sits right before it |
| TinyConfig.ToolsMenuListsMediaManager | src/core/features/editor/utils/tiny-config.ts:202-203 | the Tools menu contains `tiny_mediamanager` exactly when the context has media enabled |
| TinyConfig.PremiumPluginsUrl | src/core/features/editor/utils/tiny-config.ts:426-430 | the URL is `https://cdn.tiny.cloud/1/`, the key and `/tinymce/`, then the major and minor version and `/plugins.min.js` |
| TinyConfig.PremiumPluginsUrlNamesKey | src/core/features/editor/utils/tiny-config.ts:426-430 | the premium script URL starts with `https://cdn.tiny.cloud/1/` followed by the API key |
| TinyConfig.PremiumPluginsUrlInjective | src/core/features/editor/utils/tiny-config.ts:426-430 | for one TinyMCE version, two keys with the same URL are equal: distinct keys load distinct scripts |
| TinyConfig.DocumentationLink | src/core/features/editor/utils/tiny-config.ts:450-452 | the link is `https://docs.moodle.org/en/editor_tiny/` followed by the plugin name |
| TinyConfig.DocumentationLinkInjective | src/core/features/editor/utils/tiny-config.ts:450-452 | different plugins have different documentation links |
| TinyConfig.TinyConfigState.BaseUrl | src/core/features/editor/utils/tiny-config.ts:364-368 | the base URL is `tinymce` joined to the www path |
| TinyConfig.TinyConfigState.GetTinyMCE | src/core/features/editor/utils/tiny-config.ts:378-406 | once a promise is cached, it is returned unchanged and no script is added. The first call resolves at once when a TinyMCE script exists. Otherwise it adds one `tinymce` script and resolves or fails with "Error loading TinyMCE." |
| TinyConfig.TinyConfigState.LoadPremiumPlugins | src/core/features/editor/utils/tiny-config.ts:419-442 | the same API key returns the cached promise, even a rejected one. Another key replaces the key and the promise and adds the `premium` script for its URL |
| TinyConfig.TinyConfigState.PremiumPlugins | src/core/features/editor/utils/tiny-config.ts:38-46 | only premium access calls `loadPremiumPlugins`; the site's list is enabled exactly when its promise fulfils. A new key adds its script and becomes the cached key, and its promise fulfils exactly when the script loads; otherwise nothing changes |
| TinyConfig.TinyConfigState.GetEditorOptions | src/core/features/editor/utils/tiny-config.ts:30-48 | the options fail exactly when TinyMCE fails: a new TinyMCE promise fulfils exactly when a script is already in the page or the added one loads. A new premium promise fulfils exactly when its script loads, and a failed premium load only leaves the premium plugins out. The Tools menu follows the media flag, the skin is `oxide` and branding is the site's. A cached TinyMCE promise is kept. The scripts added are the TinyMCE one when it was neither cached nor in the page, then the premium one for a new key. `nextId` and the cached key change to match |
| TinyLoader.StringsTable | src/addons/tinymce/utils/loader.ts:85-96 | the table always has `__dir`, and it has the original string of every contributing entry |
| TinyLoader.BuildStrings | src/addons/tinymce/utils/loader.ts:85-96 | the loop builds exactly `StringsTable` of the entries |
| TinyLoader.TableKeys | src/addons/tinymce/utils/loader.ts:85-96 | a key is in the table exactly when it is `__dir` or the original string of an entry whose translation differs from it |
| TinyLoader.LastEntryWins | src/addons/tinymce/utils/loader.ts:93-95 | an original string maps to the translation of the last contributing entry that has it |
| TinyLoader.DirectionEntry | src/addons/tinymce/utils/loader.ts:85-88 | `__dir` is always present, and it holds `Translate.instant('core.thisdirection')` unless an entry's original string is `__dir` |
| TinyLoader.NoIdentityEntries | src/addons/tinymce/utils/loader.ts:93 | apart from `__dir`, no string is mapped to itself |
| TinyLoader.OnlyContributingEntriesCount | src/addons/tinymce/utils/loader.ts:93 | dropping every entry whose translation equals its original leaves the table unchanged: such entries contribute nothing |
| TinyLoader.Loader.BaseUrl | src/addons/tinymce/utils/loader.ts:26-30 | the base URL is `/assets/lib/tinymce` joined to the www path |
| TinyLoader.Loader.GetTinyMCE | src/addons/tinymce/utils/loader.ts:40-73 | a cached promise is returned unchanged. An existing `tinymce` script means no new script. The QR-scan plugin is set up exactly once, only when the promise fulfils, and the result is still `window.tinyMCE` |
| TinyLoader.Loader.LoadLanguageStrings | src/addons/tinymce/utils/loader.ts:82-99 | when TinyMCE loads, exactly one `addI18n(lang, table)` is made with the strings table; when it fails, none. A cached TinyMCE promise is kept, with no new script and no new QR-scan setup. Otherwise a new promise is made, the script is added unless one is in the page, and the QR-scan plugin is set up exactly when it fulfils |
| TinyAddonConfig.OptionsFor | src/addons/tinymce/utils/config.ts:169-196 | `skin` is `oxide-dark` exactly in dark mode, else `oxide`. `content_css` is `dark` exactly in dark mode, else `default`. The plugin list ends with `moodleapp/scanqr` |
| TinyAddonConfig.Flatten | src/addons/tinymce/utils/config.ts:306 | a single submenu item and an array of items give the same list |
| TinyAddonConfig.ItemText | src/addons/tinymce/utils/config.ts:309 | an item object without `text` is compared by `''` |
| TinyAddonConfig.DroppedCases | src/addons/tinymce/utils/config.ts:309-312 | an item's text is its name for a string, its `text` for an object with one, and `''` otherwise. It is dropped exactly when that text, trimmed, is the target; an undefined or null `text` never is |
| TinyAddonConfig.Kept | src/addons/tinymce/utils/config.ts:305-314 | none of the kept items has the target as its trimmed text |
| TinyAddonConfig.FilterSubmenu | src/addons/tinymce/utils/config.ts:305-317 | the loop builds exactly the kept items `Kept` |
| TinyAddonConfig.KeptIsSubsequence | src/addons/tinymce/utils/config.ts:305-317 | the filtered submenu is a subsequence of the original items, in the same order |
| TinyAddonConfig.KeptCounts | src/addons/tinymce/utils/config.ts:309-314 | every item whose trimmed text is not the target keeps all its occurrences, and every matching item keeps none |
| TinyAddonConfig.KeptIdempotent | src/addons/tinymce/utils/config.ts:305-317 | filtering an already filtered submenu changes nothing |
| TinyAddonConfig.WithoutSubmenuItem | src/addons/tinymce/utils/config.ts:297-321 | without a nested item in the section, the registry is unchanged. Otherwise only that section is re-registered, with its text and the filtered flattened submenu |
| TinyAddonConfig.RemovingTwiceIsRemovingOnce | src/addons/tinymce/utils/config.ts:297-321 | removing the same submenu item a second time changes nothing |
| TinyAddonConfig.MenuRegistry.RemoveSubmenuItem | src/addons/tinymce/utils/config.ts:297-321 | the registry becomes `WithoutSubmenuItem` of the old one, for the translated item string |
| TinyAddonConfig.MenuRegistry.OnInit | src/addons/tinymce/utils/config.ts:281-285 | the init hook removes `addon.tinymce.tiny:justify`, translated, from the `align` section |
| TinyAddonConfig.GetEditorOptions | src/addons/tinymce/utils/config.ts:35-41 | the options fail exactly when TinyMCE fails. Otherwise the language strings were registered once and the options follow dark mode. The loader's promise, scripts, QR-scan setups and `nextId` change as in `LoadLanguageStrings` |

## Left out

- Real async interleaving.
  - Every handler is one atomic step. An awaited store answer is an input of that step.
  - The interval is an explicit tick.
  - An answer that arrives after `ngOnDestroy` is not modelled. In the source, when
    `ngOnDestroy` runs while `getEditorOptions` is still pending, the later answer still
    subscribes to the control and starts the 30-second interval, and nothing clears them.
    `AttachStep` applied to a detached state shows exactly this. Attach is not an `Event`,
    so `DestroyStopsStoreCalls` does not cover that order.
- The layout code of the editor component: `maximizeEditorSize`, `getBlankHeightInContent`,
  `windowResized` and `waitLoadingsDone`. This is DOM measurement and framework waits.
- The commented-out URL treatment in the editor component (`treatExternalContent`,
  `restoreExternalContent`). The keyboard and resize observers. The view-enter and view-leave
  flags. None of them has behaviour here.
- DraftModel.AttachStep: whether the awaited `getEditorOptions` resolved is an input,
  `optionsLoaded`. It is not derived from TinyConfig.TinyConfigState.GetEditorOptions. The
  rejection that `ngAfterViewInit` itself then returns is not modelled.
- Toasts. They are a ghost log of the message and its clear time; the display is not modelled.
- The draft store, the editor engine, `CoreDom.htmlIsBlank`, `Translate.instant`,
  `CorePath.concatenatePaths` and `CoreFile.getWWWPath`. They are parameters. Whether a script
  loads is an input of the method that adds it.
- JavaScript truthiness. The optional inputs of the component are `Option` values, so
  "truthy" reads as "present". The one case where this differs is a context instance id of 0,
  and the key uses `|| 0` anyway.
- `entry.drafttext || ''` is modelled as `?? ''`. The two agree on every string, since the
  empty string maps to `''` either way.
- The configurations fetched from the site by the core editor (`getGlobalConfiguration`,
  `getContextConfiguration`). They are inputs, so their own failure is not modelled.
- The failure of importing `tinystrings.json`. It is not modelled either.
- JavaScript object key order.
  - The strings table is a map, and `tinystrings.json` is a sequence of entries in iteration
    order.
  - Integer-like keys, which JavaScript visits first, are not singled out.
  - `__proto__` as an original string is treated as an ordinary key.
- TinyAddonConfig.WithoutSubmenuItem: the re-registered `getSubmenuItems` is lazy in the source.
  It calls the original provider and `Translate.instant` on every opening of the menu. The
  model filters once, when the hook runs.
- `setupScanQR`'s UI registration and the native QR scan. The model only logs that the QR-scan
  plugin was set up on a given TinyMCE object.
- The large static toolbar, menu and option tables of both configuration files. The model
  keeps the fields that depend on an input, plus the plugin lists and skins.
- The web-service wrapper, the asset copy script, the add-on's editor component and Angular
  wiring. They are outside the modelled core.
- TinyConfig.TinyConfigState.GetTinyMCE and TinyLoader.Loader.GetTinyMCE: a
  `data-tinymce="tinymce"` script already in the page is assumed to have run. The promise
  resolves with the loaded `window.tinyMCE`. The source resolves with whatever
  `window.tinyMCE` is at that moment. When that is `undefined`, `tinyMCE.majorVersion` in
  `loadPremiumPlugins` throws, and the rejected premium promise stays cached for the key.
