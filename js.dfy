/// JavaScript and JSON values, and the few built-in string and object
/// operations of the JavaScript runtime that the web application relies on:
/// `String.prototype.trim`, the regular-expression class `\w`, ASCII
/// `toUpperCase`, `Boolean(x)`, property lookup on a parsed JSON object,
/// `Object.keys` and the decimal rendering of a non-negative integer.
module Js {

  datatype Option<+T> = None | Some(value: T)

  /// A value produced by `JSON.parse`.  Numbers are the exact reals written
  /// in the text; the rounding to a double that `JSON.parse` performs is not
  /// modelled.  An object keeps its members in source order; a key may occur
  /// more than once.
  datatype JsonValue =
    | JNull
    | JBool(b: bool)
    | JNumber(n: real)
    | JString(s: string)
    | JArray(items: seq<JsonValue>)
    | JObject(members: seq<(string, JsonValue)>)

  /// `Boolean(v)`: null, false, 0 and "" are falsy, everything else truthy.
  predicate Truthy(v: JsonValue)
  {
    match v
    case JNull => false
    case JBool(b) => b
    case JNumber(n) => n != 0.0
    case JString(s) => s != ""
    case JArray(_) => true
    case JObject(_) => true
  }

  // ---------------------------------------------------------------------------
  // Objects

  predicate HasKey(ms: seq<(string, JsonValue)>, k: string)
  {
    exists i :: 0 <= i < |ms| && ms[i].0 == k
  }

  /// `obj[k]` on an object built by `JSON.parse`: a later duplicate key
  /// overrides an earlier one, so the value is that of the last member named k.
  function Lookup(ms: seq<(string, JsonValue)>, k: string): (r: Option<JsonValue>)
    ensures r.None? <==> !HasKey(ms, k)
    ensures r.Some? ==> exists i :: 0 <= i < |ms| && ms[i] == (k, r.value) &&
                          forall j :: i < j < |ms| ==> ms[j].0 != k
  {
    if ms == [] then None
    else if ms[|ms| - 1].0 == k then Some(ms[|ms| - 1].1)
    else
      var r := Lookup(ms[..|ms| - 1], k);
      assert forall i :: 0 <= i < |ms| - 1 ==> ms[..|ms| - 1][i] == ms[i];
      r
  }

  /// A member with no later namesake is the one `obj[k]` finds.
  lemma LookupLast(ms: seq<(string, JsonValue)>, i: nat, k: string)
    requires i < |ms| && ms[i].0 == k
    requires forall j :: i < j < |ms| ==> ms[j].0 != k
    ensures Lookup(ms, k) == Some(ms[i].1)
  {
    var r := Lookup(ms, k);
    var m :| 0 <= m < |ms| && ms[m] == (k, r.value) && forall j :: m < j < |ms| ==> ms[j].0 != k;
    assert m == i;
  }

  /// The keys of an object in the order of their first occurrence, each once.
  function Keys(ms: seq<(string, JsonValue)>): (r: seq<string>)
    ensures forall k :: k in r <==> HasKey(ms, k)
    ensures forall i, j :: 0 <= i < j < |r| ==> r[i] != r[j]
  {
    if ms == [] then []
    else
      var init := ms[..|ms| - 1];
      assert forall i :: 0 <= i < |init| ==> init[i] == ms[i];
      assert forall k :: HasKey(ms, k) <==> HasKey(init, k) || ms[|ms| - 1].0 == k;
      var ks := Keys(init);
      if ms[|ms| - 1].0 in ks then ks else ks + [ms[|ms| - 1].0]
  }

  /// The position of the first member named k.
  function FirstIndex(ms: seq<(string, JsonValue)>, k: string): (r: nat)
    requires HasKey(ms, k)
    ensures r < |ms| && ms[r].0 == k
    ensures forall j :: 0 <= j < r ==> ms[j].0 != k
  {
    if ms[0].0 == k then 0
    else
      assert HasKey(ms[1..], k) by {
        var i :| 0 <= i < |ms| && ms[i].0 == k;
        assert ms[1..][i - 1] == ms[i];
      }
      var r := 1 + FirstIndex(ms[1..], k);
      assert forall j :: 0 < j < |ms| ==> ms[1..][j - 1] == ms[j];
      r
  }

  /// The keys come in the order in which their names first occur, which fixes
  /// the order of the report's columns.
  lemma {:induction false} KeysInFirstOrder(ms: seq<(string, JsonValue)>)
    ensures forall i, j :: 0 <= i < j < |Keys(ms)| ==>
              FirstIndex(ms, Keys(ms)[i]) < FirstIndex(ms, Keys(ms)[j])
  {
    if ms != [] {
      var init := ms[..|ms| - 1];
      var ks := Keys(init);
      KeysInFirstOrder(init);
      assert forall i :: 0 <= i < |init| ==> init[i] == ms[i];
      forall k | HasKey(init, k)
        ensures FirstIndex(ms, k) == FirstIndex(init, k)
      {
        var f := FirstIndex(init, k);
        assert ms[f].0 == k;
        var g := FirstIndex(ms, k);
        assert g <= f;
      }
    }
  }

  /// `Object.keys(v)` on a parsed JSON value; None when it throws a
  /// TypeError (on null).  An array has its indices as keys, a string the
  /// indices of its UTF-16 code units; numbers and booleans have none.
  function ObjectKeys(v: JsonValue): (r: Option<seq<string>>)
    ensures r.None? <==> v.JNull?
    ensures v.JObject? ==> r == Some(Keys(v.members))
    ensures v.JArray? ==> r == Some(IndexKeys(|v.items|))
    ensures v.JString? ==> r == Some(IndexKeys(Utf16Length(v.s)))
    ensures v.JNumber? || v.JBool? ==> r == Some([])
  {
    match v
    case JNull => None
    case JBool(_) => Some([])
    case JNumber(_) => Some([])
    case JString(s) => Some(IndexKeys(Utf16Length(s)))
    case JArray(items) => Some(IndexKeys(|items|))
    case JObject(ms) => Some(Keys(ms))
  }

  /// The property names "0", "1", ..., of an indexed value of length n: key i
  /// is the decimal rendering of i.
  function IndexKeys(n: nat): (r: seq<string>)
    ensures |r| == n
    ensures forall i :: 0 <= i < n ==> r[i] == NatToDecimal(i) && DecimalValue(r[i]) == i
  {
    var r := seq(n, i requires 0 <= i < n => NatToDecimal(i));
    forall i | 0 <= i < n ensures DecimalValue(r[i]) == i {
      DecimalRoundTrip(i);
    }
    r
  }

  /// JavaScript's `s.length`: a character above U+FFFF is a surrogate pair,
  /// two UTF-16 code units.
  function Utf16Length(s: string): (n: nat)
    ensures |s| <= n <= 2 * |s|
    ensures (forall i :: 0 <= i < |s| ==> s[i] as int <= 0xFFFF) ==> n == |s|
  {
    if s == [] then 0 else (if s[0] as int > 0xFFFF then 2 else 1) + Utf16Length(s[1..])
  }

  // ---------------------------------------------------------------------------
  // Decimal rendering, as `String(n)` and template literals print a
  // non-negative integer.

  predicate IsDigit(c: char) { '0' <= c <= '9' }

  function DigitChar(d: nat): (c: char)
    requires d < 10
    ensures IsDigit(c) && c as int - '0' as int == d
  {
    ('0' as int + d) as char
  }

  function NatToDecimal(n: nat): (r: string)
    ensures |r| > 0
    ensures forall i :: 0 <= i < |r| ==> IsDigit(r[i])
    ensures r[0] == '0' ==> n == 0 && r == "0"
    decreases n
  {
    if n < 10 then [DigitChar(n)] else NatToDecimal(n / 10) + [DigitChar(n % 10)]
  }

  /// The number a string of decimal digits denotes; the partner of NatToDecimal.
  function DecimalValue(s: string): nat
    requires forall i :: 0 <= i < |s| ==> IsDigit(s[i])
  {
    if s == [] then 0
    else
      var c := s[|s| - 1];
      assert IsDigit(c);
      DecimalValue(s[..|s| - 1]) * 10 + (c as int - '0' as int)
  }

  lemma {:induction false} DecimalRoundTrip(n: nat)
    ensures DecimalValue(NatToDecimal(n)) == n
    decreases n
  {
    if n >= 10 {
      var front := NatToDecimal(n / 10);
      var s := front + [DigitChar(n % 10)];
      assert s[..|s| - 1] == front;
      DecimalRoundTrip(n / 10);
    }
  }

  // ---------------------------------------------------------------------------
  // Characters and `trim`

  /// The characters ECMAScript's `trim` removes: WhiteSpace (tab, vertical
  /// tab, form feed, space, no-break space, byte order mark and the Unicode
  /// space separators) and LineTerminator (line feed, carriage return, line
  /// and paragraph separators).
  predicate IsJsWhitespace(c: char)
  {
    var n := c as int;
    n == 0x09 || n == 0x0A || n == 0x0B || n == 0x0C || n == 0x0D || n == 0x20 ||
    n == 0xA0 || n == 0x1680 || (0x2000 <= n <= 0x200A) || n == 0x2028 ||
    n == 0x2029 || n == 0x202F || n == 0x205F || n == 0x3000 || n == 0xFEFF
  }

  predicate AllWhitespace(s: string)
  {
    forall i :: 0 <= i < |s| ==> IsJsWhitespace(s[i])
  }

  /// Drops the leading whitespace: the result is the suffix of s that starts
  /// at its first non-whitespace character.
  function TrimStart(s: string): (r: string)
    ensures |r| <= |s| && r == s[|s| - |r|..]
    ensures AllWhitespace(s[..|s| - |r|])
    ensures r != [] ==> !IsJsWhitespace(r[0])
  {
    if s != [] && IsJsWhitespace(s[0]) then
      var r := TrimStart(s[1..]);
      assert s[..|s| - |r|] == [s[0]] + s[1..][..|s| - 1 - |r|];
      r
    else s
  }

  /// Drops the trailing whitespace: the result is the prefix of s that ends
  /// at its last non-whitespace character.
  function TrimEnd(s: string): (r: string)
    ensures |r| <= |s| && r == s[..|r|]
    ensures AllWhitespace(s[|r|..])
    ensures r != [] ==> !IsJsWhitespace(r[|r| - 1])
  {
    if s != [] && IsJsWhitespace(s[|s| - 1]) then
      var r := TrimEnd(s[..|s| - 1]);
      assert s[|r|..] == s[..|s| - 1][|r|..] + [s[|s| - 1]];
      r
    else s
  }

  /// `s.trim()`: the part of s left between its leading and its trailing
  /// whitespace.
  function Trim(s: string): (r: string)
    ensures exists i :: 0 <= i && i + |r| <= |s| && r == s[i..i + |r|] &&
                        AllWhitespace(s[..i]) && AllWhitespace(s[i + |r|..])
    ensures r != [] ==> !IsJsWhitespace(r[0]) && !IsJsWhitespace(r[|r| - 1])
  {
    var t := TrimStart(s);
    var r := TrimEnd(t);
    var i := |s| - |t|;
    assert r == s[i..i + |r|];
    assert s[i + |r|..] == t[|r|..];
    r
  }

  /// `s.trim().length > 0` holds exactly when s has a character that is not
  /// whitespace.
  lemma {:induction false} TrimNonEmpty(s: string)
    ensures |Trim(s)| > 0 <==> exists i :: 0 <= i < |s| && !IsJsWhitespace(s[i])
  {
    var t := TrimStart(s);
    var k := |s| - |t|;
    if |Trim(s)| > 0 {
      var i := k + |Trim(s)| - 1;
      assert s[i] == Trim(s)[|Trim(s)| - 1];
    } else {
      assert s[..k] == s;
    }
  }

  /// The regular-expression class `\w`: ASCII letters, digits and underscore.
  predicate IsWordChar(c: char)
  {
    ('a' <= c <= 'z') || ('A' <= c <= 'Z') || ('0' <= c <= '9') || c == '_'
  }

  /// `toUpperCase` on a character that `\w` matched: only a-z change.
  function UpperAscii(c: char): (u: char)
    ensures IsWordChar(c) ==> IsWordChar(u)
    ensures 'a' <= c <= 'z' ==> 'A' <= u <= 'Z' && u as int == c as int - 32
    ensures !('a' <= c <= 'z') ==> u == c
  {
    if 'a' <= c <= 'z' then (c as int - 32) as char else c
  }
}
