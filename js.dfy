/**
 * The few JavaScript values and browser objects that the editor code works with:
 * values that may be `null` or `undefined`, the `??`, `===` and `==` operators on them,
 * settled promises, `<script>` elements in the document head, and `String.prototype.trim`.
 */
module Js {

  datatype Option<T> = None | Some(value: T) {
    function GetOr(default: T): T {
      match this
      case Some(v) => v
      case None => default
    }
  }

  /** A value of TypeScript type `string | null | undefined`. */
  datatype JsValue = Undefined | Null | Str(s: string)

  /** `v ?? d`: the string itself, or `d` when `v` is `null` or `undefined`. */
  function Coalesce(v: JsValue, d: string): (r: string)
    ensures v.Str? ==> r == v.s
    ensures !v.Str? ==> r == d
  {
    if v.Str? then v.s else d
  }

  /** `v ?? undefined`: folds `null` into `undefined` and keeps every string. */
  function NullToUndefined(v: JsValue): (r: JsValue)
    ensures v.Str? ==> r == v
    ensures !v.Str? ==> r == Undefined
  {
    if v.Null? then Undefined else v
  }

  /**
   * Loose equality `a == b`: `null` and `undefined` are equal to each other and to nothing
   * else; strings are equal when they hold the same characters. Strict equality `===` is
   * plain datatype equality on JsValue.
   */
  predicate LooseEquals(a: JsValue, b: JsValue) {
    a == b || (!a.Str? && !b.Str?)
  }

  /** How a promise settled. */
  datatype Settled<T> = Fulfilled(value: T) | Rejected(reason: string)

  /**
   * A promise, identified by the allocation that created it; `id` stands for object
   * identity, so two promises are "the same promise" exactly when their ids agree.
   */
  datatype Promise<T> = Promise(id: nat, outcome: Settled<T>)

  /**
   * A `<script>` element: its `data-tinymce` tag, `src`, `async` flag and referrer policy.
   * A script made by `document.createElement` reports `async` as true unless it is set.
   */
  datatype Script = Script(tag: string, src: string, async: bool, referrerPolicy: string)

  /** `document.head`, as far as the loaders use it: the script elements appended to it. */
  class DocumentHead {
    var scripts: seq<Script>

    constructor (scripts: seq<Script>)
      ensures this.scripts == scripts
    {
      this.scripts := scripts;
    }

    /** `document.head.querySelector('script[data-tinymce="' + tag + '"]') !== null`. */
    predicate HasScript(tag: string)
      reads this
    {
      exists i :: 0 <= i < |scripts| && scripts[i].tag == tag
    }
  }

  /** The characters `String.prototype.trim` removes: WhiteSpace and LineTerminator. */
  predicate IsJsWhitespace(c: char) {
    || c == '\t' || c == '\n' || c == '\U{000B}' || c == '\U{000C}' || c == '\r' || c == ' '
    || c == '\U{00A0}' || c == '\U{1680}' || ('\U{2000}' <= c <= '\U{200A}')
    || c == '\U{2028}' || c == '\U{2029}' || c == '\U{202F}' || c == '\U{205F}'
    || c == '\U{3000}' || c == '\U{FEFF}'
  }

  /** `s` with its leading whitespace removed. */
  function TrimStart(s: string): (r: string)
    ensures |r| <= |s| && r == s[|s| - |r|..]
    ensures r == [] || !IsJsWhitespace(r[0])
    ensures forall k :: 0 <= k < |s| - |r| ==> IsJsWhitespace(s[k])
  {
    if s != [] && IsJsWhitespace(s[0]) then TrimStart(s[1..]) else s
  }

  /** `s` with its trailing whitespace removed. */
  function TrimEnd(s: string): (r: string)
    ensures |r| <= |s| && r == s[..|r|]
    ensures r == [] || !IsJsWhitespace(r[|r| - 1])
    ensures forall k :: |r| <= k < |s| ==> IsJsWhitespace(s[k])
  {
    if s != [] && IsJsWhitespace(s[|s| - 1]) then TrimEnd(s[..|s| - 1]) else s
  }

  /** `s` is `r` with only whitespace added before (the first `i` characters) and after. */
  ghost predicate PaddedAt(s: string, r: string, i: int) {
    && 0 <= i <= |s| - |r|
    && s[i..i + |r|] == r
    && (forall k :: 0 <= k < i ==> IsJsWhitespace(s[k]))
    && (forall k :: i + |r| <= k < |s| ==> IsJsWhitespace(s[k]))
  }

  /** A prefix `r` of a suffix `t` of `s` is the slice of `s` where `t` starts. */
  lemma PrefixOfSuffix(s: string, t: string, r: string)
    requires |t| <= |s| && t == s[|s| - |t|..] && |r| <= |t| && r == t[..|r|]
    ensures s[|s| - |t|..|s| - |t| + |r|] == r
  {
    var i := |s| - |t|;
    forall j | 0 <= j < |r|
      ensures s[i..i + |r|][j] == r[j]
    {
      assert r[j] == t[j];
      assert t[j] == s[i + j];
    }
  }

  /** The trimmed text sits in `s` right after the leading whitespace. */
  lemma TrimmedSlice(s: string)
    ensures var i := |s| - |TrimStart(s)|;
      i + |TrimEnd(TrimStart(s))| <= |s| && s[i..i + |TrimEnd(TrimStart(s))|] == TrimEnd(TrimStart(s))
  {
    PrefixOfSuffix(s, TrimStart(s), TrimEnd(TrimStart(s)));
  }

  /** Everything after the trimmed text is whitespace. */
  lemma TrimmedTail(s: string)
    ensures var i := |s| - |TrimStart(s)|;
      forall k :: i + |TrimEnd(TrimStart(s))| <= k < |s| ==> IsJsWhitespace(s[k])
  {
    var t := TrimStart(s);
    var r := TrimEnd(t);
    var i := |s| - |t|;
    forall k | i + |r| <= k < |s|
      ensures IsJsWhitespace(s[k])
    {
      assert s[k] == t[k - i];
    }
  }

  /** `s.trim()`. */
  function Trim(s: string): (r: string)
    ensures r == [] || (!IsJsWhitespace(r[0]) && !IsJsWhitespace(r[|r| - 1]))
    ensures PaddedAt(s, r, |s| - |TrimStart(s)|)
  {
    TrimmedSlice(s);
    TrimmedTail(s);
    TrimEnd(TrimStart(s))
  }
}
