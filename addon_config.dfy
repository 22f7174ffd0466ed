/**
 * The TinyMCE add-on's editor options: the skin and content style chosen by dark mode, the
 * plugin list, and the init hook that rebuilds the `align` menu without its `justify` item.
 */
module TinyAddonConfig {
  import opened Js
  import TinyLoader

  /** An entry of a submenu: a registered item's name, or an item object with maybe a `text`. */
  datatype SubmenuItem = ItemName(name: string) | ItemSpec(itemType: string, text: Option<JsValue>)

  /** What `getSubmenuItems()` returns: one item, or an array of them. */
  datatype SubmenuSource = Single(item: SubmenuItem) | Many(items: seq<SubmenuItem>)

  /** A registered menu item: nested ones have `getSubmenuItems`, plain ones do not. */
  datatype MenuItem = NestedMenuItem(text: JsValue, submenu: SubmenuSource) | PlainMenuItem(text: JsValue)

  /** The options this model keeps of the object `getEditorOptions` returns. */
  datatype AddonOptions = AddonOptions(baseUrl: string, skin: string, contentCss: string, plugins: seq<string>)

  const ScanQrPlugin := "moodleapp/scanqr"
  const AlignSection := "align"
  const JustifyString := "addon.tinymce.tiny:justify"

  const AddonPlugins: seq<string> := [
    "anchor", "charmap", "code", "codesample", "directionality", "emoticons", "fullscreen", "help",
    "insertdatetime", "lists", "nonbreaking", "pagebreak", "quickbars", "save", "searchreplace", "table",
    "visualblocks", "visualchars", "wordcount", ScanQrPlugin]

  /** The options for the add-on's base URL and the dark-mode setting. */
  function OptionsFor(baseUrl: string, darkMode: bool): (r: AddonOptions)
    ensures r.skin == "oxide-dark" <==> darkMode
    ensures r.skin == "oxide" <==> !darkMode
    ensures r.contentCss == "dark" <==> darkMode
    ensures r.contentCss == "default" <==> !darkMode
    ensures r.baseUrl == baseUrl && r.plugins == AddonPlugins
    ensures |r.plugins| > 0 && r.plugins[|r.plugins| - 1] == ScanQrPlugin
  {
    AddonOptions(baseUrl, if darkMode then "oxide-dark" else "oxide", if darkMode then "dark" else "default",
                 AddonPlugins)
  }

  /** `[getSubmenuItems()].flat()`: a single item and an array of items are treated alike. */
  function Flatten(source: SubmenuSource): (r: seq<SubmenuItem>)
    ensures source.Single? ==> r == [source.item]
    ensures source.Many? ==> r == source.items
  {
    match source
    case Single(item) => [item]
    case Many(items) => items
  }

  /** The text an item is compared by: a name itself, an object's `text`, or `''`. */
  function ItemText(item: SubmenuItem): (r: JsValue)
    ensures item.ItemSpec? && item.text.None? ==> r == Str("")
  {
    match item
    case ItemName(name) => Str(name)
    case ItemSpec(_, text) => if text.Some? then text.value else Str("")
  }

  /** An item is left out when its text, trimmed, is the target string; no text never matches. */
  predicate Dropped(item: SubmenuItem, target: string) {
    ItemText(item).Str? && Trim(ItemText(item).s) == target
  }

  /** Which items are dropped, by the kind of item. */
  lemma DroppedCases(item: SubmenuItem, target: string)
    ensures item.ItemName? ==> (Dropped(item, target) <==> Trim(item.name) == target)
    ensures item.ItemSpec? && item.text.None? ==> (Dropped(item, target) <==> target == "")
    ensures item.ItemSpec? && item.text.Some? ==>
      (Dropped(item, target) <==> item.text.value.Str? && Trim(item.text.value.s) == target)
  {
  }

  /** The items `newSubmenu` receives, in order. */
  function Kept(items: seq<SubmenuItem>, target: string): (r: seq<SubmenuItem>)
    ensures forall i :: 0 <= i < |r| ==> !Dropped(r[i], target)
    decreases |items|
  {
    if items == [] then []
    else
      var rest := Kept(items[..|items| - 1], target);
      var item := items[|items| - 1];
      if Dropped(item, target) then rest else rest + [item]
  }

  /** The loop of `getSubmenuItems` in `removeSubmenuItem`, pushing what it keeps. */
  method FilterSubmenu(items: seq<SubmenuItem>, target: string) returns (newSubmenu: seq<SubmenuItem>)
    ensures newSubmenu == Kept(items, target)
  {
    newSubmenu := [];
    var i := 0;
    while i < |items|
      invariant 0 <= i <= |items|
      invariant newSubmenu == Kept(items[..i], target)
    {
      var item := items[i];
      var itemText := ItemText(item);
      if !(itemText.Str? && Trim(itemText.s) == target) {
        newSubmenu := newSubmenu + [item];
      }
      assert items[..i + 1][..i] == items[..i];
      i := i + 1;
    }
    assert items[..i] == items;
  }

  /** `a` is `b` with some elements left out, the rest in the same order. */
  predicate IsSubsequence<T(==)>(a: seq<T>, b: seq<T>)
    decreases |b|
  {
    if a == [] then true
    else if b == [] then false
    else (a[|a| - 1] == b[|b| - 1] && IsSubsequence(a[..|a| - 1], b[..|b| - 1])) || IsSubsequence(a, b[..|b| - 1])
  }

  /** The filtered submenu keeps the original order: it is a subsequence of the items. */
  lemma {:induction false} KeptIsSubsequence(items: seq<SubmenuItem>, target: string)
    ensures IsSubsequence(Kept(items, target), items)
    decreases |items|
  {
    if items != [] {
      var init := items[..|items| - 1];
      KeptIsSubsequence(init, target);
      var rest := Kept(init, target);
      if !Dropped(items[|items| - 1], target) {
        assert (rest + [items[|items| - 1]])[..|rest|] == rest;
      } else if rest != [] {
        assert IsSubsequence(rest, init);
      }
    }
  }

  /**
   * One step of a filter, counted: if `kept` is `keptInit` with `last` appended unless it is
   * dropped, the count of `x` keeps its relation to the unfiltered sequence.
   */
  lemma FilterCountStep<T>(init: seq<T>, last: T, keptInit: seq<T>, kept: seq<T>, x: T, dropLast: bool, dropX: bool)
    requires kept == if dropLast then keptInit else keptInit + [last]
    requires multiset(keptInit)[x] == if dropX then 0 else multiset(init)[x]
    requires last == x ==> dropLast == dropX
    ensures multiset(kept)[x] == if dropX then 0 else multiset(init + [last])[x]
  {
    assert multiset(init + [last]) == multiset(init) + multiset{last};
    if !dropLast {
      assert multiset(keptInit + [last]) == multiset(keptInit) + multiset{last};
    }
  }

  /**
   * Each item occurs in the filtered submenu as often as in the original, unless its trimmed
   * text is the target, in which case never: exactly the matching items are dropped.
   */
  lemma {:induction false} KeptCounts(items: seq<SubmenuItem>, target: string, x: SubmenuItem)
    ensures multiset(Kept(items, target))[x] == if Dropped(x, target) then 0 else multiset(items)[x]
    decreases |items|
  {
    if items != [] {
      var init := items[..|items| - 1];
      var last := items[|items| - 1];
      KeptCounts(init, target, x);
      assert items == init + [last];
      FilterCountStep(init, last, Kept(init, target), Kept(items, target), x, Dropped(last, target), Dropped(x, target));
    }
  }

  /** Filtering a filtered submenu again changes nothing. */
  lemma {:induction false} KeptIdempotent(items: seq<SubmenuItem>, target: string)
    ensures Kept(Kept(items, target), target) == Kept(items, target)
    decreases |items|
  {
    if items != [] {
      var init := items[..|items| - 1];
      var item := items[|items| - 1];
      KeptIdempotent(init, target);
      var rest := Kept(init, target);
      if !Dropped(item, target) {
        assert (rest + [item])[..|rest + [item]| - 1] == rest;
      }
    }
  }

  /**
   * The menu items after `removeSubmenuItem(editor, section, submenuItem)`, where `target` is
   * the translation of `submenuItem`: a nested item of that section is registered again with
   * its text and the filtered submenu; otherwise nothing changes.
   */
  function WithoutSubmenuItem(menuItems: map<string, MenuItem>, section: string, target: string)
    : (r: map<string, MenuItem>)
    ensures r.Keys == menuItems.Keys
    ensures forall s :: s in menuItems && s != section ==> r[s] == menuItems[s]
    ensures !(section in menuItems && menuItems[section].NestedMenuItem?) ==> r == menuItems
    ensures section in menuItems && menuItems[section].NestedMenuItem? ==>
      && r[section].NestedMenuItem? && r[section].text == menuItems[section].text
      && r[section].submenu == Many(Kept(Flatten(menuItems[section].submenu), target))
  {
    if section in menuItems && menuItems[section].NestedMenuItem?
    then menuItems[section := NestedMenuItem(menuItems[section].text, Many(Kept(Flatten(menuItems[section].submenu), target)))]
    else menuItems
  }

  /** Removing the same submenu item twice is the same as removing it once. */
  lemma RemovingTwiceIsRemovingOnce(menuItems: map<string, MenuItem>, section: string, target: string)
    ensures var once := WithoutSubmenuItem(menuItems, section, target);
      WithoutSubmenuItem(once, section, target) == once
  {
    if section in menuItems && menuItems[section].NestedMenuItem? {
      KeptIdempotent(Flatten(menuItems[section].submenu), target);
    }
  }

  /** `editor.ui.registry`, as far as the hook uses it: the registered menu items. */
  class MenuRegistry {
    var menuItems: map<string, MenuItem>

    constructor (menuItems: map<string, MenuItem>)
      ensures this.menuItems == menuItems
    {
      this.menuItems := menuItems;
    }

    /**
     * `removeSubmenuItem`: re-registers the section's nested item with the same text and
     * the submenu without the items whose trimmed text is the translated `submenuItem`.
     */
    method RemoveSubmenuItem(section: string, submenuItem: string, tr: string -> string)
      modifies this
      ensures menuItems == WithoutSubmenuItem(old(menuItems), section, tr(submenuItem))
    {
      if section in menuItems && menuItems[section].NestedMenuItem? {
        var item := menuItems[section];
        var newSubmenu := FilterSubmenu(Flatten(item.submenu), tr(submenuItem));
        menuItems := menuItems[section := NestedMenuItem(item.text, Many(newSubmenu))];
      }
    }

    /** The `init` handler installed by `setup`: drops `justify` from the `align` menu. */
    method OnInit(tr: string -> string)
      modifies this
      ensures menuItems == WithoutSubmenuItem(old(menuItems), AlignSection, tr(JustifyString))
    {
      RemoveSubmenuItem(AlignSection, JustifyString, tr);
    }
  }

  /**
   * `getEditorOptions`: loads the language strings for `lang` first, and fails when TinyMCE
   * does not load; otherwise the options for the loader's base URL and `darkMode`.
   */
  method GetEditorOptions(loader: TinyLoader.Loader, lang: string, tr: string -> string,
                          entries: seq<TinyLoader.StringEntry>, scriptLoads: bool, darkMode: bool)
    returns (r: Settled<AddonOptions>)
    requires loader.Valid()
    modifies loader, loader.head
    ensures loader.Valid()
    ensures loader.tinyPromise.Some? && (r.Fulfilled? <==> loader.tinyPromise.value.outcome.Fulfilled?)
    ensures r.Fulfilled? ==>
      && r.value == OptionsFor(loader.BaseUrl(), darkMode)
      && loader.i18nCalls == old(loader.i18nCalls) + [TinyLoader.I18nCall(lang, TinyLoader.StringsTable(tr, entries))]
    ensures r.Rejected? ==> loader.i18nCalls == old(loader.i18nCalls)
    ensures old(loader.tinyPromise).Some? ==>
      && loader.tinyPromise == old(loader.tinyPromise) && loader.nextId == old(loader.nextId)
      && loader.head.scripts == old(loader.head.scripts) && loader.scanQrSetups == old(loader.scanQrSetups)
    ensures old(loader.tinyPromise).None? ==>
      && loader.tinyPromise.value.id == old(loader.nextId) && loader.nextId == old(loader.nextId) + 1
      && (r.Fulfilled? ==> loader.scanQrSetups == old(loader.scanQrSetups) + [loader.window])
      && (r.Rejected? ==> r.reason == TinyLoader.TinyLoadError && loader.scanQrSetups == old(loader.scanQrSetups))
    ensures old(loader.tinyPromise).None? && old(loader.head.HasScript("tinymce")) ==>
      r.Fulfilled? && loader.head.scripts == old(loader.head.scripts)
    ensures old(loader.tinyPromise).None? && !old(loader.head.HasScript("tinymce")) ==>
      loader.head.scripts == old(loader.head.scripts) + [loader.TinyScript()] && (r.Fulfilled? <==> scriptLoads)
  {
    var loaded := loader.LoadLanguageStrings(lang, tr, entries, scriptLoads);
    if loaded.Rejected? {
      return Rejected(loaded.reason);
    }
    r := Fulfilled(OptionsFor(loader.BaseUrl(), darkMode));
  }
}
