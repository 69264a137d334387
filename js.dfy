/**
  The few JavaScript value semantics the app's logic depends on: optional
  values, truthiness of strings, the `a || b` fallback chains, template-literal
  rendering of `null`/`undefined`, `toLowerCase` and `trim`.
 */
module Js {

  /** A value that may be missing (`undefined` or `null` in the app). */
  datatype Option<+T> = None | Some(value: T)

  /** The result of `Array.prototype.find` or of an explicit `return null`. */
  datatype JsStr = Null | Undefined | Str(s: string)

  /** A string-valued field is truthy when it is present and not empty. */
  predicate Truthy(o: Option<string>) {
    o.Some? && o.value != ""
  }

  predicate TruthyStr(j: JsStr) {
    j.Str? && j.s != ""
  }

  /** `field` holds `param || fallback`. */
  predicate Defaulted(param: Option<string>, fallback: string, field: string) {
    field == if Truthy(param) then param.value else fallback
  }

  /** `o || d` for a string field with a string default. */
  function Or(o: Option<string>, d: string): string {
    if Truthy(o) then o.value else d
  }

  /** `o || null`: an empty string falls back to null as well. */
  function OrNull(o: Option<string>): Option<string> {
    if Truthy(o) then o else None
  }

  /** `o1 || o2 || ... || d`: the first truthy value of the chain, else `d`. */
  function FirstTruthy(opts: seq<Option<string>>, d: string): (r: string)
    ensures (forall i :: 0 <= i < |opts| ==> !Truthy(opts[i])) ==> r == d
    ensures |opts| > 0 && Truthy(opts[0]) ==> r == opts[0].value
    ensures r == d || exists i :: 0 <= i < |opts| && Truthy(opts[i]) && r == opts[i].value
  {
    if |opts| == 0 then d
    else if Truthy(opts[0]) then opts[0].value
    else FirstTruthy(opts[1..], d)
  }

  /** The chain stops at its first truthy value, wherever that is. */
  lemma {:induction false} FirstTruthyIsFirst(opts: seq<Option<string>>, d: string, i: int)
    requires 0 <= i < |opts| && Truthy(opts[i])
    requires forall j :: 0 <= j < i ==> !Truthy(opts[j])
    ensures FirstTruthy(opts, d) == opts[i].value
  {
    if i > 0 {
      FirstTruthyIsFirst(opts[1..], d, i - 1);
    }
  }

  /** How a template literal (`${x}`) renders a find/null result. */
  function Template(j: JsStr): string {
    match j
    case Null => "null"
    case Undefined => "undefined"
    case Str(s) => s
  }

  /** How a template literal renders a possibly-undefined string. */
  function TemplateOpt(o: Option<string>): string {
    match o
    case None => "undefined"
    case Some(s) => s
  }

  // ---------------------------------------------------------------- case

  function LowerChar(c: char): char {
    if 'A' <= c <= 'Z' then (c as int + 32) as char else c
  }

  /** `toLowerCase`, restricted to the ASCII letters. */
  function Lower(s: string): (r: string)
    ensures |r| == |s|
    ensures forall i :: 0 <= i < |s| ==> r[i] == LowerChar(s[i])
  {
    if s == [] then [] else [LowerChar(s[0])] + Lower(s[1..])
  }

  lemma {:induction false} LowerIdempotent(s: string)
    ensures Lower(Lower(s)) == Lower(s)
  {
    var l := Lower(s);
    assert forall i :: 0 <= i < |l| ==> LowerChar(l[i]) == l[i];
  }

  /** Case-insensitive comparison: the strings agree letter by letter once lower-cased. */
  predicate EqualsIgnoreCase(a: string, b: string) {
    |a| == |b| && forall i :: 0 <= i < |a| ==> LowerChar(a[i]) == LowerChar(b[i])
  }

  /** `a.toLowerCase() === b.toLowerCase()` is exactly the letter-by-letter comparison. */
  lemma EqualsIgnoreCaseIsLower(a: string, b: string)
    ensures EqualsIgnoreCase(a, b) <==> Lower(a) == Lower(b)
  {
    if Lower(a) == Lower(b) {
      forall i | 0 <= i < |a| ensures LowerChar(a[i]) == LowerChar(b[i]) {
        assert Lower(a)[i] == Lower(b)[i];
      }
    }
  }

  // ---------------------------------------------------------------- trim

  /** The characters `String.prototype.trim` removes: white space and line terminators. */
  const JsSpaces: set<char> := {
    '\t', '\n', '\U{000B}', '\U{000C}', '\r', ' ', '\U{00A0}', '\U{1680}',
    '\U{2000}', '\U{2001}', '\U{2002}', '\U{2003}', '\U{2004}', '\U{2005}', '\U{2006}',
    '\U{2007}', '\U{2008}', '\U{2009}', '\U{200A}',
    '\U{2028}', '\U{2029}', '\U{202F}', '\U{205F}', '\U{3000}', '\U{FEFF}'
  }

  predicate IsSpace(c: char) {
    c in JsSpaces
  }

  predicate AllSpace(s: string) {
    forall i :: 0 <= i < |s| ==> IsSpace(s[i])
  }

  /** The index of the first non-space character at or after `i`, or `|s|` when there is none. */
  function SkipSpace(s: string, i: nat): (r: nat)
    requires i <= |s|
    ensures i <= r <= |s|
    ensures forall k :: i <= k < r ==> IsSpace(s[k])
    ensures r == |s| || !IsSpace(s[r])
    decreases |s| - i
  {
    if i == |s| || !IsSpace(s[i]) then i else SkipSpace(s, i + 1)
  }

  /** Moving back from `j` to `lo`: the index just after the last non-space character, or `lo`. */
  function SkipSpaceBack(s: string, lo: nat, j: nat): (r: nat)
    requires lo <= j <= |s|
    ensures lo <= r <= j
    ensures forall k :: r <= k < j ==> IsSpace(s[k])
    ensures r == lo || !IsSpace(s[r - 1])
  {
    if j == lo || !IsSpace(s[j - 1]) then j else SkipSpaceBack(s, lo, j - 1)
  }

  /** `s.trim()`: the white space at the start is skipped, then the white space at the end. */
  function Trim(s: string): (r: string) {
    var i := SkipSpace(s, 0);
    s[i..SkipSpaceBack(s, i, |s|)]
  }

  /**
    The trimmed string is the slice of `s` that remains when the white space at
    both ends is cut off: it starts and ends with a non-space character, and
    everything cut off is white space.
   */
  lemma TrimIsCore(s: string)
    ensures exists i, j :: 0 <= i <= j <= |s| && Trim(s) == s[i..j] && AllSpace(s[..i]) && AllSpace(s[j..])
    ensures Trim(s) == [] || (!IsSpace(Trim(s)[0]) && !IsSpace(Trim(s)[|Trim(s)| - 1]))
  {
    var i := SkipSpace(s, 0);
    var j := SkipSpaceBack(s, i, |s|);
    assert AllSpace(s[..i]) by {
      forall k | 0 <= k < i ensures IsSpace(s[..i][k]) {
        assert s[..i][k] == s[k];
      }
    }
    assert AllSpace(s[j..]) by {
      forall k | 0 <= k < |s| - j ensures IsSpace(s[j..][k]) {
        assert s[j..][k] == s[j + k];
      }
    }
    assert Trim(s) == s[i..j];
  }

  /** A string trims to empty exactly when it is all white space. */
  lemma TrimEmptyIffAllSpace(s: string)
    ensures Trim(s) == "" <==> AllSpace(s)
  {
    var i := SkipSpace(s, 0);
    var j := SkipSpaceBack(s, i, |s|);
    if i < |s| {
      assert !IsSpace(s[i]);
    }
  }

  /** Trimming twice is trimming once. */
  lemma TrimIdempotent(s: string)
    ensures Trim(Trim(s)) == Trim(s)
  {
    var t := Trim(s);
    TrimIsCore(s);
    assert SkipSpace(t, 0) == 0;
    assert t[0..|t|] == t;
  }
}
