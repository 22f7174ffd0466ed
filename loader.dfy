/**
 * The TinyMCE add-on's loader: the memoised promise of the TinyMCE API object, which also
 * registers the QR-scanning plugin once TinyMCE has loaded, and the table of language strings
 * handed to TinyMCE, built from the bundled English strings and their translations.
 */
module TinyLoader {
  import opened Js

  /** `window.tinyMCE`, here only an identity. */
  datatype TinyMce = TinyMce(name: string)

  /** One property of `tinystrings.json`: its key and the original English string. */
  datatype StringEntry = StringEntry(key: string, original: string)

  /** A call `tinyMCE.addI18n(lang, strings)`. */
  datatype I18nCall = I18nCall(lang: string, strings: map<string, string>)

  const DirKey := "__dir"
  const DirectionString := "core.thisdirection"
  const TinyLoadError := "Error loading TinyMCE."

  /** The translation `Translate.instant` gives for an entry. */
  function Translated(tr: string -> string, e: StringEntry): string {
    tr("addon.tinymce." + e.key)
  }

  /** An entry adds `strings[original]` only when its translation differs from the original. */
  predicate Contributes(tr: string -> string, e: StringEntry) {
    e.original != Translated(tr, e)
  }

  /**
   * The strings table after the loop has visited `entries` in order: `__dir` first, then
   * every contributing entry, a later one overwriting an earlier one with the same original.
   */
  function StringsTable(tr: string -> string, entries: seq<StringEntry>): (r: map<string, string>)
    ensures DirKey in r
    ensures forall e :: e in entries && Contributes(tr, e) ==> e.original in r
    decreases |entries|
  {
    if entries == [] then map[DirKey := tr(DirectionString)]
    else
      var table := StringsTable(tr, entries[..|entries| - 1]);
      var e := entries[|entries| - 1];
      if Contributes(tr, e) then table[e.original := Translated(tr, e)] else table
  }

  /** The entries of `entries` that contribute, in order. */
  function ContributingEntries(tr: string -> string, entries: seq<StringEntry>): (r: seq<StringEntry>)
    ensures forall i :: 0 <= i < |r| ==> Contributes(tr, r[i])
    decreases |entries|
  {
    if entries == [] then []
    else
      var rest := ContributingEntries(tr, entries[..|entries| - 1]);
      var e := entries[|entries| - 1];
      if Contributes(tr, e) then rest + [e] else rest
  }

  /** `loadLanguageStrings`' loop: the same table, built by updating `strings` in place. */
  method BuildStrings(tr: string -> string, entries: seq<StringEntry>) returns (strings: map<string, string>)
    ensures strings == StringsTable(tr, entries)
  {
    strings := map[DirKey := tr(DirectionString)];
    var i := 0;
    while i < |entries|
      invariant 0 <= i <= |entries|
      invariant strings == StringsTable(tr, entries[..i])
    {
      var original := entries[i].original;
      var translated := tr("addon.tinymce." + entries[i].key);
      if original != translated {
        strings := strings[original := translated];
      }
      assert entries[..i + 1][..i] == entries[..i];
      i := i + 1;
    }
    assert entries[..i] == entries;
  }

  /**
   * A key is in the table exactly when it is `__dir` or the original string of some
   * contributing entry.
   */
  lemma {:induction false} TableKeys(tr: string -> string, entries: seq<StringEntry>, k: string)
    ensures k in StringsTable(tr, entries) <==>
      k == DirKey || exists i :: 0 <= i < |entries| && Contributes(tr, entries[i]) && entries[i].original == k
    decreases |entries|
  {
    if entries != [] {
      var init := entries[..|entries| - 1];
      TableKeys(tr, init, k);
      if exists i :: 0 <= i < |init| && Contributes(tr, init[i]) && init[i].original == k {
        var i :| 0 <= i < |init| && Contributes(tr, init[i]) && init[i].original == k;
        assert entries[i] == init[i];
      }
      if exists i :: 0 <= i < |entries| && Contributes(tr, entries[i]) && entries[i].original == k {
        var i :| 0 <= i < |entries| && Contributes(tr, entries[i]) && entries[i].original == k;
        if i < |init| {
          assert init[i] == entries[i];
        }
      }
    }
  }

  /**
   * The value of an original string is the translation of the last contributing entry that
   * has it: later entries overwrite earlier ones.
   */
  lemma {:induction false} LastEntryWins(tr: string -> string, entries: seq<StringEntry>, j: nat)
    requires j < |entries| && Contributes(tr, entries[j])
    requires forall i :: j < i < |entries| && Contributes(tr, entries[i]) ==> entries[i].original != entries[j].original
    ensures var table := StringsTable(tr, entries);
      entries[j].original in table && table[entries[j].original] == Translated(tr, entries[j])
    decreases |entries|
  {
    var init := entries[..|entries| - 1];
    if j < |init| {
      forall i | j < i < |init| && Contributes(tr, init[i])
        ensures init[i].original != init[j].original
      {
        assert init[i] == entries[i];
      }
      LastEntryWins(tr, init, j);
    }
  }

  /**
   * `__dir` is always in the table, and holds the text direction unless some contributing
   * entry has `__dir` as its original string.
   */
  lemma {:induction false} DirectionEntry(tr: string -> string, entries: seq<StringEntry>)
    ensures DirKey in StringsTable(tr, entries)
    ensures (forall i :: 0 <= i < |entries| && Contributes(tr, entries[i]) ==> entries[i].original != DirKey)
      ==> StringsTable(tr, entries)[DirKey] == tr(DirectionString)
    decreases |entries|
  {
    if entries != [] {
      var init := entries[..|entries| - 1];
      DirectionEntry(tr, init);
      if forall i :: 0 <= i < |entries| && Contributes(tr, entries[i]) ==> entries[i].original != DirKey {
        forall i | 0 <= i < |init| && Contributes(tr, init[i])
          ensures init[i].original != DirKey
        {
          assert init[i] == entries[i];
        }
      }
    }
  }

  /** Apart from `__dir`, no original string is mapped to itself. */
  lemma {:induction false} NoIdentityEntries(tr: string -> string, entries: seq<StringEntry>)
    ensures forall k :: k in StringsTable(tr, entries) && k != DirKey ==> StringsTable(tr, entries)[k] != k
    decreases |entries|
  {
    if entries != [] {
      NoIdentityEntries(tr, entries[..|entries| - 1]);
    }
  }

  /** Entries whose translation equals their original string can be dropped: they add nothing. */
  lemma {:induction false} OnlyContributingEntriesCount(tr: string -> string, entries: seq<StringEntry>)
    ensures StringsTable(tr, ContributingEntries(tr, entries)) == StringsTable(tr, entries)
    decreases |entries|
  {
    if entries != [] {
      var init := entries[..|entries| - 1];
      var e := entries[|entries| - 1];
      OnlyContributingEntriesCount(tr, init);
      var rest := ContributingEntries(tr, init);
      if Contributes(tr, e) {
        assert (rest + [e])[..|rest + [e]| - 1] == rest;
      }
    }
  }

  /**
   * The module-level state of the loader: the TinyMCE promise, the document head, and, as
   * logs, the calls of `setupScanQR` and of `tinyMCE.addI18n`. `nextId` numbers promises.
   */
  class Loader {
    /** `window.tinyMCE` once its script has run. */
    const window: TinyMce
    /** `CoreFile.getWWWPath()`. */
    const wwwPath: string
    /** `CorePath.concatenatePaths`. */
    const concatenatePaths: (string, string) -> string
    const head: DocumentHead

    var tinyPromise: Option<Promise<TinyMce>>
    var nextId: nat
    ghost var scanQrSetups: seq<TinyMce>
    ghost var i18nCalls: seq<I18nCall>

    /** A cached promise settled to TinyMCE or to the loading error, and was numbered before `nextId`. */
    predicate Valid()
      reads this
    {
      tinyPromise.Some? ==>
        && tinyPromise.value.outcome in {Fulfilled(window), Rejected(TinyLoadError)}
        && tinyPromise.value.id < nextId
    }

    constructor (window: TinyMce, wwwPath: string, concatenatePaths: (string, string) -> string, head: DocumentHead)
      ensures this.window == window && this.wwwPath == wwwPath && this.concatenatePaths == concatenatePaths
      ensures this.head == head && tinyPromise == None && scanQrSetups == [] && i18nCalls == []
      ensures Valid()
    {
      this.window := window;
      this.wwwPath := wwwPath;
      this.concatenatePaths := concatenatePaths;
      this.head := head;
      tinyPromise := None;
      nextId := 0;
      scanQrSetups := [];
      i18nCalls := [];
    }

    /** `getBaseURL` of the add-on loader (loader.ts:26-30), a separate function from the
        editor configuration's one: it points at `/assets/lib/tinymce`. */
    function BaseUrl(): (r: string)
      reads this
      ensures r == concatenatePaths(wwwPath, "/assets/lib/tinymce")
    {
      concatenatePaths(wwwPath, "/assets/lib/tinymce")
    }

    function TinyScript(): Script
      reads this
    {
      Script("tinymce", concatenatePaths(BaseUrl(), "tinymce.min.js"), true, "")
    }

    /**
     * `getTinyMCE`: the cached promise when there is one; otherwise a new promise that settles
     * at once when a TinyMCE script is already in the page and otherwise adds the script.
     * Only a fulfilled promise sets up the QR-scanning plugin, and it still yields `window`.
     */
    method GetTinyMCE(scriptLoads: bool) returns (p: Promise<TinyMce>)
      requires Valid()
      modifies this, head
      ensures Valid()
      ensures tinyPromise == Some(p) && i18nCalls == old(i18nCalls)
      ensures old(tinyPromise).Some? ==>
        && p == old(tinyPromise).value && nextId == old(nextId)
        && head.scripts == old(head.scripts) && scanQrSetups == old(scanQrSetups)
      ensures old(tinyPromise).None? ==>
        && p.id == old(nextId) && nextId == old(nextId) + 1
        && (p.outcome.Fulfilled? ==> p.outcome.value == window && scanQrSetups == old(scanQrSetups) + [window])
        && (p.outcome.Rejected? ==> p.outcome.reason == TinyLoadError && scanQrSetups == old(scanQrSetups))
      ensures old(tinyPromise).None? && old(head.HasScript("tinymce")) ==>
        p.outcome.Fulfilled? && head.scripts == old(head.scripts)
      ensures old(tinyPromise).None? && !old(head.HasScript("tinymce")) ==>
        && head.scripts == old(head.scripts) + [TinyScript()]
        && (p.outcome.Fulfilled? <==> scriptLoads)
    {
      if tinyPromise.Some? {
        return tinyPromise.value;
      }
      var outcome: Settled<TinyMce>;
      if head.HasScript("tinymce") {
        outcome := Fulfilled(window);
      } else {
        head.scripts := head.scripts + [TinyScript()];
        outcome := if scriptLoads then Fulfilled(window) else Rejected(TinyLoadError);
      }
      if outcome.Fulfilled? {
        scanQrSetups := scanQrSetups + [outcome.value];
      }
      p := Promise(nextId, outcome);
      nextId := nextId + 1;
      tinyPromise := Some(p);
    }

    /**
     * `loadLanguageStrings`: once TinyMCE is available, registers the strings table for
     * `lang`; fails, registering nothing, when TinyMCE does not load.
     */
    method LoadLanguageStrings(lang: string, tr: string -> string, entries: seq<StringEntry>, scriptLoads: bool)
      returns (r: Settled<()>)
      requires Valid()
      modifies this, head
      ensures Valid()
      ensures tinyPromise.Some? && (r.Fulfilled? <==> tinyPromise.value.outcome.Fulfilled?)
      ensures r.Fulfilled? ==> i18nCalls == old(i18nCalls) + [I18nCall(lang, StringsTable(tr, entries))]
      ensures r.Rejected? ==> i18nCalls == old(i18nCalls)
      ensures old(tinyPromise).Some? ==>
        && tinyPromise == old(tinyPromise) && nextId == old(nextId)
        && head.scripts == old(head.scripts) && scanQrSetups == old(scanQrSetups)
      ensures old(tinyPromise).None? ==>
        && tinyPromise.value.id == old(nextId) && nextId == old(nextId) + 1
        && (r.Fulfilled? ==> scanQrSetups == old(scanQrSetups) + [window])
        && (r.Rejected? ==> r.reason == TinyLoadError && scanQrSetups == old(scanQrSetups))
      ensures old(tinyPromise).None? && old(head.HasScript("tinymce")) ==>
        r.Fulfilled? && head.scripts == old(head.scripts)
      ensures old(tinyPromise).None? && !old(head.HasScript("tinymce")) ==>
        head.scripts == old(head.scripts) + [TinyScript()] && (r.Fulfilled? <==> scriptLoads)
    {
      var tiny := GetTinyMCE(scriptLoads);
      if tiny.outcome.Rejected? {
        return Rejected(tiny.outcome.reason);
      }
      var strings := BuildStrings(tr, entries);
      i18nCalls := i18nCalls + [I18nCall(lang, strings)];
      r := Fulfilled(());
    }
  }
}
