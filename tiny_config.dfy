/**
 * The editor options of the core editor and the module-level caches behind them: which
 * premium plugins are enabled, the Tools menu, the plugin list, the script that loads
 * TinyMCE and the one-slot cache of the premium-plugins script, keyed by API key.
 */
module TinyConfig {
  import opened Js

  /** `window.tinyMCE`, as far as these options use it: its version strings. */
  datatype TinyMce = TinyMce(majorVersion: string, minorVersion: string)

  /** `globalConfig.plugins.premium`, when the site sends it. */
  datatype GlobalPremium = GlobalPremium(apikey: string, premiumplugins: seq<string>)

  /** The global configuration: the premium section and the branding flag. */
  datatype GlobalConfig = GlobalConfig(premium: Option<GlobalPremium>, branding: bool)

  /** The context configuration: `plugins.premium?.canacesspremium` and `plugins.media`. */
  datatype ContextConfig = ContextConfig(canAccessPremium: Option<bool>, media: bool)

  /** The options this model keeps of the object `getEditorOptions` returns. */
  datatype EditorOptions = EditorOptions(
    baseUrl: string, toolsMenu: string, plugins: seq<string>, skin: string, language: string, branding: bool)

  const TinyLoadError := "Error loading TinyMCE."
  const PremiumLoadError := "Error loading TinyMCE premium plugin."
  const MediaManager := "tiny_mediamanager"

  /** The TinyMCE plugins every editor gets, in order. */
  const BasePlugins: seq<string> := [
    "anchor", "charmap", "code", "codesample", "directionality", "emoticons", "fullscreen", "help",
    "insertdatetime", "lists", "nonbreaking", "pagebreak", "quickbars", "save", "searchreplace", "table",
    "visualblocks", "visualchars", "wordcount"]

  /** Premium plugins are asked for when the site has an API key and the context may use them. */
  predicate PremiumAllowed(g: GlobalConfig, c: ContextConfig) {
    g.premium.Some? && g.premium.value.apikey != "" && c.canAccessPremium == Some(true)
  }

  /**
   * The premium plugins enabled, given whether the premium script loaded: the site's list
   * when premium plugins are allowed and loaded, otherwise none; a failed load is swallowed.
   */
  function SelectedPremium(g: GlobalConfig, c: ContextConfig, loaded: bool): (r: seq<string>)
    ensures r != [] ==> PremiumAllowed(g, c) && loaded
    ensures PremiumAllowed(g, c) && loaded ==> r == g.premium.value.premiumplugins
  {
    if PremiumAllowed(g, c) && loaded then g.premium.value.premiumplugins else []
  }

  /** The plugin list: the base plugins, then the premium ones, each list in its own order. */
  function PluginList(premium: seq<string>): (r: seq<string>)
    ensures |r| == |BasePlugins| + |premium|
    ensures forall i :: 0 <= i < |BasePlugins| ==> r[i] == BasePlugins[i]
    ensures forall i :: 0 <= i < |premium| ==> r[|BasePlugins| + i] == premium[i]
  {
    BasePlugins + premium
  }

  /** `t` occurs in `s` starting at index `i`. */
  predicate OccursAt(s: string, t: string, i: int) {
    0 <= i && i + |t| <= |s| && s[i..i + |t|] == t
  }

  ghost predicate Contains(s: string, t: string) {
    exists i :: OccursAt(s, t, i)
  }

  /** The `items` of the Tools menu; the media manager is listed only for contexts with media. */
  function ToolsMenuItems(media: bool): (r: string)
    ensures |r| >= 9 && r[|r| - 9..] == " | export"
    ensures media ==> OccursAt(r, MediaManager, |r| - 9 - |MediaManager|)
  {
    "spellchecker" + " spellcheckerlanguage" + " spellcheckdialog" + " | autocorrect capitalization"
    + " | a11ycheck code wordcount" + " tiny_accessibilitychecker "
    + (if media then MediaManager else "") + " | export"
  }

  lemma {:induction false} NoLetterNoOccurrence(s: string, t: string, c: char)
    requires c in t && c !in s
    ensures !Contains(s, t)
  {
    var k :| 0 <= k < |t| && t[k] == c;
    forall i | 0 <= i && i + |t| <= |s|
      ensures !OccursAt(s, t, i)
    {
      assert s[i..i + |t|][k] == s[i + k];
    }
  }

  /** With media, the media manager sits right after the accessibility checker. */
  lemma ToolsMenuWithMedia()
    ensures Contains(ToolsMenuItems(true), MediaManager)
  {
    var front := "spellchecker" + " spellcheckerlanguage" + " spellcheckdialog" + " | autocorrect capitalization"
      + " | a11ycheck code wordcount" + " tiny_accessibilitychecker ";
    var back := " | export";
    assert ToolsMenuItems(true) == front + MediaManager + back;
    assert (front + MediaManager + back)[|front|..|front| + |MediaManager|] == MediaManager;
    assert OccursAt(ToolsMenuItems(true), MediaManager, |front|);
  }

  lemma NoMInConcat(x: string, y: string)
    requires 'm' !in x && 'm' !in y
    ensures 'm' !in x + y
  {
  }

  /** The spell-checking items of the menu have no `m`. */
  lemma SpellItemsLackM()
    ensures 'm' !in "spellchecker" + " spellcheckerlanguage" + " spellcheckdialog"
  {
    assert 'm' !in "spellchecker";
    assert 'm' !in " spellcheckerlanguage";
    assert 'm' !in " spellcheckdialog";
  }

  /** The correcting and checking items of the menu have no `m`. */
  lemma CheckItemsLackM()
    ensures 'm' !in " | autocorrect capitalization" + " | a11ycheck code wordcount"
  {
    assert 'm' !in " | autocorrect capitalization";
    assert 'm' !in " | a11ycheck code wordcount";
  }

  /** Without media, no item of the menu has an `m`. */
  lemma ToolsMenuLacksM()
    ensures 'm' !in ToolsMenuItems(false)
  {
    SpellItemsLackM();
    CheckItemsLackM();
    assert 'm' !in " tiny_accessibilitychecker " + " | export";
    assert ToolsMenuItems(false)
        == ("spellchecker" + " spellcheckerlanguage" + " spellcheckdialog")
         + (" | autocorrect capitalization" + " | a11ycheck code wordcount")
         + (" tiny_accessibilitychecker " + " | export");
  }

  /** So without media the media manager cannot occur in the menu. */
  lemma ToolsMenuWithoutMedia()
    ensures !Contains(ToolsMenuItems(false), MediaManager)
  {
    ToolsMenuLacksM();
    assert MediaManager[5] == 'm';
    NoLetterNoOccurrence(ToolsMenuItems(false), MediaManager, 'm');
  }

  /** The Tools menu lists `tiny_mediamanager` exactly when the context has media enabled. */
  lemma ToolsMenuListsMediaManager(media: bool)
    ensures Contains(ToolsMenuItems(media), MediaManager) <==> media
  {
    if media {
      ToolsMenuWithMedia();
    } else {
      ToolsMenuWithoutMedia();
    }
  }

  /** The URL of the premium-plugins script for `apiKey` and the loaded TinyMCE version. */
  function PremiumPluginsUrl(apiKey: string, tiny: TinyMce): (r: string)
    ensures var n := |"https://cdn.tiny.cloud/1/" + apiKey + "/tinymce/"|;
      && n <= |r| && r[..n] == "https://cdn.tiny.cloud/1/" + apiKey + "/tinymce/"
      && r[n..] == tiny.majorVersion + "." + tiny.minorVersion + "/plugins.min.js"
  {
    "https://cdn.tiny.cloud/1/" + apiKey + "/tinymce/" + tiny.majorVersion + "." + tiny.minorVersion
    + "/plugins.min.js"
  }

  /** The API key sits right after the fixed prefix, so distinct keys load distinct scripts. */
  lemma PremiumPluginsUrlNamesKey(apiKey: string, tiny: TinyMce)
    ensures var u := PremiumPluginsUrl(apiKey, tiny);
      var n := |"https://cdn.tiny.cloud/1/"|;
      && u[..n] == "https://cdn.tiny.cloud/1/"
      && u[n..n + |apiKey|] == apiKey
  {
  }

  /** Two API keys with the same premium script URL, for one TinyMCE version, are the same key. */
  lemma PremiumPluginsUrlInjective(k1: string, k2: string, tiny: TinyMce)
    requires PremiumPluginsUrl(k1, tiny) == PremiumPluginsUrl(k2, tiny)
    ensures k1 == k2
  {
    assert |PremiumPluginsUrl(k1, tiny)| == |PremiumPluginsUrl(k2, tiny)|;
    assert |k1| == |k2|;
    PremiumPluginsUrlNamesKey(k1, tiny);
    PremiumPluginsUrlNamesKey(k2, tiny);
  }

  /** `getDocumentationLink`: the Moodle docs page of a plugin. */
  function DocumentationLink(pluginName: string): (r: string)
    ensures var n := |"https://docs.moodle.org/en/editor_tiny/"|;
      n <= |r| && r[..n] == "https://docs.moodle.org/en/editor_tiny/" && r[n..] == pluginName
  {
    "https://docs.moodle.org/en/editor_tiny/" + pluginName
  }

  /** Different plugins have different documentation pages. */
  lemma DocumentationLinkInjective(a: string, b: string)
    requires DocumentationLink(a) == DocumentationLink(b)
    ensures a == b
  {
    var p := "https://docs.moodle.org/en/editor_tiny/";
    assert a == DocumentationLink(a)[|p|..];
    assert b == DocumentationLink(b)[|p|..];
  }

  /**
   * The module-level state of the file: the TinyMCE promise, the premium-plugins promise
   * with the API key it was made for, and the document head the scripts are added to.
   * `nextId` numbers the promises the file creates, so that "the same promise" can be said.
   */
  class TinyConfigState {
    /** `window.tinyMCE` once its script has run. */
    const window: TinyMce
    /** `CoreFile.getWWWPath()`. */
    const wwwPath: string
    /** `CorePath.concatenatePaths`. */
    const concatenatePaths: (string, string) -> string
    const head: DocumentHead

    var tinyPromise: Option<Promise<TinyMce>>
    var premiumPluginsPromise: Option<Promise<()>>
    var premiumPluginsApiKey: string
    var nextId: nat

    /**
     * What every promise of this file settles to: TinyMCE or the loading error; nothing or
     * the premium loading error; and every promise was numbered before `nextId`.
     */
    predicate Valid()
      reads this
    {
      && (tinyPromise.Some? ==>
            && tinyPromise.value.outcome in {Fulfilled(window), Rejected(TinyLoadError)}
            && tinyPromise.value.id < nextId)
      && (premiumPluginsPromise.Some? ==>
            && premiumPluginsPromise.value.outcome in {Fulfilled(()), Rejected(PremiumLoadError)}
            && premiumPluginsPromise.value.id < nextId)
    }

    constructor (window: TinyMce, wwwPath: string, concatenatePaths: (string, string) -> string, head: DocumentHead)
      ensures this.window == window && this.wwwPath == wwwPath && this.concatenatePaths == concatenatePaths
      ensures this.head == head
      ensures tinyPromise == None && premiumPluginsPromise == None && premiumPluginsApiKey == ""
      ensures Valid()
    {
      this.window := window;
      this.wwwPath := wwwPath;
      this.concatenatePaths := concatenatePaths;
      this.head := head;
      tinyPromise := None;
      premiumPluginsPromise := None;
      premiumPluginsApiKey := "";
      nextId := 0;
    }

    /** `getBaseURL` of the editor configuration service (tiny-config.ts:364-368): the
        TinyMCE folder bundled with the app, not the add-on loader's path. */
    function BaseUrl(): (r: string)
      ensures r == concatenatePaths(wwwPath, "tinymce")
    {
      concatenatePaths(wwwPath, "tinymce")
    }

    /** The script element `getTinyMCE` adds when the page has none. */
    function TinyScript(): Script {
      Script("tinymce", concatenatePaths(BaseUrl(), "tinymce.min.js"), true, "")
    }

    /**
     * `getTinyMCE`: the cached promise when there is one; otherwise a new promise, which
     * settles at once when a TinyMCE script is already in the page and otherwise adds the
     * script. `scriptLoads` is whether the browser loads the added script.
     */
    method GetTinyMCE(scriptLoads: bool) returns (p: Promise<TinyMce>)
      requires Valid()
      modifies this, head
      ensures Valid()
      ensures tinyPromise == Some(p)
      ensures old(tinyPromise).Some? ==>
        p == old(tinyPromise).value && nextId == old(nextId) && head.scripts == old(head.scripts)
      ensures old(tinyPromise).None? ==> p.id == old(nextId) && nextId == old(nextId) + 1
      ensures old(tinyPromise).None? && old(head.HasScript("tinymce")) ==>
        p.outcome == Fulfilled(window) && head.scripts == old(head.scripts)
      ensures old(tinyPromise).None? && !old(head.HasScript("tinymce")) ==>
        && head.scripts == old(head.scripts) + [TinyScript()]
        && p.outcome == (if scriptLoads then Fulfilled(window) else Rejected(TinyLoadError))
      ensures premiumPluginsPromise == old(premiumPluginsPromise) && premiumPluginsApiKey == old(premiumPluginsApiKey)
    {
      if tinyPromise.Some? {
        return tinyPromise.value;
      }
      var outcome: Settled<TinyMce>;
      if head.HasScript("tinymce") {
        outcome := Fulfilled(window);
      } else {
        head.scripts := head.scripts + [TinyScript()];
        outcome := if scriptLoads then Fulfilled(window) else Rejected(TinyLoadError);
      }
      p := Promise(nextId, outcome);
      nextId := nextId + 1;
      tinyPromise := Some(p);
    }

    /**
     * `loadPremiumPlugins`: the cached promise when there is one for the same API key;
     * otherwise a new promise for `apiKey`, which adds the premium script. `scriptLoads` is
     * whether the browser loads it. A rejected promise stays cached for its key.
     */
    method LoadPremiumPlugins(tiny: TinyMce, apiKey: string, scriptLoads: bool) returns (p: Promise<()>)
      requires Valid()
      modifies this, head
      ensures Valid()
      ensures premiumPluginsPromise == Some(p) && premiumPluginsApiKey == apiKey
      ensures old(premiumPluginsPromise).Some? && apiKey == old(premiumPluginsApiKey) ==>
        p == old(premiumPluginsPromise).value && nextId == old(nextId) && head.scripts == old(head.scripts)
      ensures !(old(premiumPluginsPromise).Some? && apiKey == old(premiumPluginsApiKey)) ==>
        && p.id == old(nextId) && nextId == old(nextId) + 1
        && head.scripts == old(head.scripts) + [Script("premium", PremiumPluginsUrl(apiKey, tiny), true, "origin")]
        && p.outcome == (if scriptLoads then Fulfilled(()) else Rejected(PremiumLoadError))
      ensures tinyPromise == old(tinyPromise)
    {
      if premiumPluginsPromise.Some? && apiKey == premiumPluginsApiKey {
        return premiumPluginsPromise.value;
      }
      premiumPluginsApiKey := apiKey;
      head.scripts := head.scripts + [Script("premium", PremiumPluginsUrl(apiKey, tiny), true, "origin")];
      p := Promise(nextId, if scriptLoads then Fulfilled(()) else Rejected(PremiumLoadError));
      nextId := nextId + 1;
      premiumPluginsPromise := Some(p);
    }

    /**
     * The premium part of `getEditorOptions`: when the site and the context allow premium
     * plugins, load their script for the API key and enable the site's list if it loads; a
     * failure is caught and leaves the list empty.
     */
    method PremiumPlugins(g: GlobalConfig, c: ContextConfig, tiny: TinyMce, premiumLoads: bool)
      returns (premium: seq<string>)
      modifies this, head
      requires Valid()
      ensures Valid() && tinyPromise == old(tinyPromise)
      ensures premium != [] ==> PremiumAllowed(g, c) && premium == g.premium.value.premiumplugins
      ensures PremiumAllowed(g, c) ==>
        premiumPluginsPromise.Some? && premium == SelectedPremium(g, c, premiumPluginsPromise.value.outcome.Fulfilled?)
      ensures if PremiumAllowed(g, c) && !(old(premiumPluginsPromise).Some? && g.premium.value.apikey == old(premiumPluginsApiKey))
        then
          && premiumPluginsApiKey == g.premium.value.apikey
          && premiumPluginsPromise.value.id == old(nextId) && nextId == old(nextId) + 1
          && head.scripts == old(head.scripts) + [Script("premium", PremiumPluginsUrl(g.premium.value.apikey, tiny), true, "origin")]
        else
          && premiumPluginsApiKey == old(premiumPluginsApiKey) && premiumPluginsPromise == old(premiumPluginsPromise)
          && nextId == old(nextId) && head.scripts == old(head.scripts)
      ensures (PremiumAllowed(g, c) && !(old(premiumPluginsPromise).Some? && g.premium.value.apikey == old(premiumPluginsApiKey)))
        ==> premiumPluginsPromise.value.outcome == (if premiumLoads then Fulfilled(()) else Rejected(PremiumLoadError))
    {
      premium := [];
      if PremiumAllowed(g, c) {
        var q := LoadPremiumPlugins(tiny, g.premium.value.apikey, premiumLoads);
        if q.outcome.Fulfilled? {
          premium := g.premium.value.premiumplugins;
        }
      }
    }

    /**
     * `getEditorOptions`, for the configurations the site returned and the current language.
     * It fails when TinyMCE does not load; a premium script that does not load only leaves
     * the premium plugins out.
     */
    method GetEditorOptions(g: GlobalConfig, c: ContextConfig, language: string, tinyLoads: bool,
                            premiumLoads: bool) returns (r: Settled<EditorOptions>)
      modifies this, head
      requires Valid()
      ensures Valid()
      ensures tinyPromise.Some? && (r.Rejected? <==> tinyPromise.value.outcome.Rejected?)
      ensures r.Rejected? ==> r.reason == TinyLoadError
      ensures r.Fulfilled? ==> |r.value.plugins| >= |BasePlugins|
      ensures r.Fulfilled? ==>
        var premium := r.value.plugins[|BasePlugins|..];
        && r.value.plugins == PluginList(premium)
        && (premium != [] ==> PremiumAllowed(g, c) && premium == g.premium.value.premiumplugins)
        && (PremiumAllowed(g, c) ==>
              premiumPluginsPromise.Some? && premium == SelectedPremium(g, c, premiumPluginsPromise.value.outcome.Fulfilled?))
        && r.value.toolsMenu == ToolsMenuItems(c.media)
        && r.value.baseUrl == BaseUrl() && r.value.skin == "oxide" && r.value.language == language
        && r.value.branding == g.branding
      ensures old(tinyPromise).Some? ==> tinyPromise == old(tinyPromise)
      ensures old(tinyPromise).None? ==> tinyPromise.value.id == old(nextId)
      ensures var tinyScripts := if old(tinyPromise).None? && !old(head.HasScript("tinymce")) then [TinyScript()] else [];
        var tinyIds := if old(tinyPromise).None? then 1 else 0;
        if r.Fulfilled? && PremiumAllowed(g, c)
           && !(old(premiumPluginsPromise).Some? && g.premium.value.apikey == old(premiumPluginsApiKey))
        then
          && premiumPluginsApiKey == g.premium.value.apikey
          && premiumPluginsPromise.value.id == old(nextId) + tinyIds && nextId == old(nextId) + tinyIds + 1
          && head.scripts == old(head.scripts) + tinyScripts
                             + [Script("premium", PremiumPluginsUrl(g.premium.value.apikey, window), true, "origin")]
        else
          && premiumPluginsApiKey == old(premiumPluginsApiKey) && premiumPluginsPromise == old(premiumPluginsPromise)
          && nextId == old(nextId) + tinyIds && head.scripts == old(head.scripts) + tinyScripts
      ensures old(tinyPromise).None? ==>
        tinyPromise.value.outcome == (if old(head.HasScript("tinymce")) || tinyLoads then Fulfilled(window) else Rejected(TinyLoadError))
      ensures (r.Fulfilled? && PremiumAllowed(g, c)
               && !(old(premiumPluginsPromise).Some? && g.premium.value.apikey == old(premiumPluginsApiKey)))
        ==> premiumPluginsPromise.value.outcome == (if premiumLoads then Fulfilled(()) else Rejected(PremiumLoadError))
    {
      var tinyP := GetTinyMCE(tinyLoads);
      if tinyP.outcome.Rejected? {
        return Rejected(tinyP.outcome.reason);
      }
      var premiumPlugins := PremiumPlugins(g, c, tinyP.outcome.value, premiumLoads);
      assert PluginList(premiumPlugins)[|BasePlugins|..] == premiumPlugins;
      r := Fulfilled(EditorOptions(BaseUrl(), ToolsMenuItems(c.media), PluginList(premiumPlugins), "oxide",
                                   language, g.branding));
    }
  }
}
