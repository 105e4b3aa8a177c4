/** The slice of JavaScript semantics that the extension's logic depends on:
    the values carried by cross-context messages and parsed model output,
    truthiness, property access, string coercion, `String.prototype.trim`,
    `String.prototype.includes` and UTF-16 `length`. */
module Js {

  datatype Option<+T> = None | Some(value: T)

  /** The settlement of a promise (or of a call that may throw): the awaited
      value, or the message of the error it was rejected with. */
  datatype Settled<+T> = Resolved(value: T) | Rejected(reason: string)

  /** A JavaScript value as it travels through `JSON.parse`, `sendMessage`
      and `sendResponse`. Numbers are integers; object keys are unordered. */
  datatype Value =
    | Undefined
    | Null
    | Bool(b: bool)
    | Num(n: int)
    | Str(s: string)
    | Arr(items: seq<Value>)
    | Obj(fields: map<string, Value>)

  /** JavaScript's ToBoolean: what `if (v)`, `!v`, `&&` and `||` test. */
  predicate Truthy(v: Value) {
    match v
    case Undefined => false
    case Null => false
    case Bool(b) => b
    case Num(n) => n != 0
    case Str(s) => s != ""
    case Arr(_) => true
    case Obj(_) => true
  }

  /** `v?.key`: the property of an object, `undefined` when it is absent or
      when `v` is not an object. */
  function Get(v: Value, key: string): Value {
    if v.Obj? && key in v.fields then v.fields[key] else Undefined
  }

  /** `v?.[i]` read for a property lookup: an array element, an object's
      property named by the decimal index, otherwise `undefined` (a string's
      character carries none of the properties read after it). */
  function At(v: Value, i: nat): Value {
    if v.Arr? && i < |v.items| then v.items[i] else if v.Obj? then Get(v, Decimal(i)) else Undefined
  }

  /** `a || b` */
  function Or(a: Value, b: Value): (r: Value)
    ensures Truthy(r) <==> Truthy(a) || Truthy(b)
  {
    if Truthy(a) then a else b
  }

  /** `{error: message}`, the sentinel reply every failing handler sends. */
  function ErrorObj(message: string): Value {
    Obj(map["error" := Str(message)])
  }

  /** `{success: true}` */
  function SuccessObj(): Value {
    Obj(map["success" := Bool(true)])
  }

  function DigitChar(d: nat): char
    requires d < 10
  {
    "0123456789"[d]
  }

  /** Decimal digits of a natural number, most significant first. */
  function Decimal(n: nat): (r: string)
    ensures r != []
    ensures forall k :: 0 <= k < |r| ==> '0' <= r[k] <= '9'
    ensures n < 10 <==> |r| == 1
  {
    if n < 10 then [DigitChar(n)] else Decimal(n / 10) + [DigitChar(n % 10)]
  }

  /** `String(v)`, as used by template literals and by `new URL(v)`. */
  function ToString(v: Value): string {
    match v
    case Undefined => "undefined"
    case Null => "null"
    case Bool(b) => if b then "true" else "false"
    case Num(n) => if n < 0 then "-" + Decimal(-n) else Decimal(n)
    case Str(s) => s
    case Arr(items) => Join(items)
    case Obj(_) => "[object Object]"
  }

  /** `Array.prototype.join(",")`: null and undefined elements become empty. */
  function Join(items: seq<Value>): string
    decreases items
  {
    if items == [] then ""
    else
      var first := if items[0].Undefined? || items[0].Null? then "" else ToString(items[0]);
      if |items| == 1 then first else first + "," + Join(items[1..])
  }

  /** The characters `String.prototype.trim` removes: ECMAScript WhiteSpace
      (tab, vertical tab, form feed, no-break space, byte-order mark and every
      Zs space separator) and LineTerminator. */
  predicate IsWhitespace(c: char) {
    c in WhitespaceChars || '\U{2000}' <= c <= '\U{200A}'
  }

  const WhitespaceChars: set<char> := {
    '\t', '\n', '\U{000B}', '\U{000C}', '\r', ' ', '\U{00A0}', '\U{1680}',
    '\U{2028}', '\U{2029}', '\U{202F}', '\U{205F}', '\U{3000}', '\U{FEFF}'}

  /** `s.trimStart()` */
  function TrimStart(s: string): string {
    if s != [] && IsWhitespace(s[0]) then TrimStart(s[1..]) else s
  }

  /** `s.trimEnd()` */
  function TrimEnd(s: string): string {
    if s != [] && IsWhitespace(s[|s| - 1]) then TrimEnd(s[..|s| - 1]) else s
  }

  /** `s.trim()` */
  function Trim(s: string): string {
    TrimEnd(TrimStart(s))
  }

  /** trimStart keeps the longest suffix that does not start with
      whitespace; everything it drops is whitespace. */
  lemma {:induction false} TrimStartDropsLeadingWhitespace(s: string)
    ensures var r := TrimStart(s);
      && |r| <= |s| && r == s[|s| - |r|..]
      && (r != [] ==> !IsWhitespace(r[0]))
      && forall k :: 0 <= k < |s| - |r| ==> IsWhitespace(s[k])
  {
    if s != [] && IsWhitespace(s[0]) {
      TrimStartDropsLeadingWhitespace(s[1..]);
    }
  }

  /** trimEnd keeps the longest prefix that does not end with whitespace;
      everything it drops is whitespace. */
  lemma {:induction false} TrimEndDropsTrailingWhitespace(s: string)
    ensures var r := TrimEnd(s);
      && |r| <= |s| && r == s[..|r|]
      && (r != [] ==> !IsWhitespace(r[|r| - 1]))
      && forall k :: |r| <= k < |s| ==> IsWhitespace(s[k])
  {
    if s != [] && IsWhitespace(s[|s| - 1]) {
      TrimEndDropsTrailingWhitespace(s[..|s| - 1]);
    }
  }

  /** Dropping a whitespace prefix and then a whitespace suffix keeps a
      slice with only whitespace outside it. */
  lemma WhitespaceFramedSlice(s: string, t: string, u: string) returns (i: nat, j: nat)
    requires |t| <= |s| && t == s[|s| - |t|..]
    requires forall k :: 0 <= k < |s| - |t| ==> IsWhitespace(s[k])
    requires |u| <= |t| && u == t[..|u|]
    requires forall k :: |u| <= k < |t| ==> IsWhitespace(t[k])
    requires u != [] ==> !IsWhitespace(u[0]) && !IsWhitespace(u[|u| - 1])
    ensures i <= j <= |s| && u == s[i..j]
    ensures forall k :: 0 <= k < i ==> IsWhitespace(s[k])
    ensures forall k :: j <= k < |s| ==> IsWhitespace(s[k])
    ensures i < j ==> !IsWhitespace(s[i]) && !IsWhitespace(s[j - 1])
  {
    i := |s| - |t|;
    j := i + |u|;
    forall k | j <= k < |s| ensures IsWhitespace(s[k]) {
      assert s[k] == t[k - i];
    }
    if i < j {
      assert s[i] == u[0] && s[j - 1] == u[|u| - 1];
    }
  }

  /** Trimming keeps a contiguous slice `s[i..j]` of the input, drops only
      whitespace, and leaves no whitespace at either end. */
  lemma TrimIsMaximalSlice(s: string) returns (i: nat, j: nat)
    ensures i <= j <= |s| && Trim(s) == s[i..j]
    ensures forall k :: 0 <= k < i ==> IsWhitespace(s[k])
    ensures forall k :: j <= k < |s| ==> IsWhitespace(s[k])
    ensures i < j ==> !IsWhitespace(s[i]) && !IsWhitespace(s[j - 1])
  {
    var t := TrimStart(s);
    var u := TrimEnd(t);
    TrimStartDropsLeadingWhitespace(s);
    TrimEndDropsTrailingWhitespace(t);
    i, j := WhitespaceFramedSlice(s, t, u);
  }

  /** A non-empty trimmed string begins and ends with a non-whitespace
      character. */
  lemma TrimHasNoOuterWhitespace(s: string)
    ensures Trim(s) != "" ==> !IsWhitespace(Trim(s)[0]) && !IsWhitespace(Trim(s)[|Trim(s)| - 1])
  {
    var i, j := TrimIsMaximalSlice(s);
  }

  /** Trimming twice is trimming once. */
  lemma TrimIdempotent(s: string)
    ensures Trim(Trim(s)) == Trim(s)
  {
    var t := Trim(s);
    var i, j := TrimIsMaximalSlice(s);
    if t != [] {
      assert t[0] == s[i] && t[|t| - 1] == s[j - 1];
      assert TrimStart(t) == t;
      assert TrimEnd(t) == t;
    }
  }

  /** `s.length`: the number of UTF-16 code units, two for every character
      outside the Basic Multilingual Plane. */
  function Utf16Length(s: string): (r: nat)
    ensures |s| <= r <= 2 * |s|
  {
    if s == [] then 0
    else (if s[0] as int > 0xFFFF then 2 else 1) + Utf16Length(s[1..])
  }

  /** `p` occurs in `s` at position `i`. */
  ghost predicate OccursAt(s: string, p: string, i: int) {
    0 <= i && i + |p| <= |s| && s[i..i + |p|] == p
  }

  /** `s` begins with `p`, compared character by character. */
  predicate StartsWith(s: string, p: string) {
    p == [] || (s != [] && s[0] == p[0] && StartsWith(s[1..], p[1..]))
  }

  /** `s` begins with `p` exactly when `p` is the prefix of `s` of its length. */
  lemma {:induction false} StartsWithIffPrefix(s: string, p: string)
    ensures StartsWith(s, p) <==> |p| <= |s| && s[..|p|] == p
  {
    if p != [] && s != [] {
      StartsWithIffPrefix(s[1..], p[1..]);
      if |p| <= |s| && s[..|p|] == p {
        assert s[1..][..|p| - 1] == p[1..];
      }
      if StartsWith(s, p) {
        assert s[..|p|] == [s[0]] + s[1..][..|p| - 1];
      }
    }
  }

  /** `s.includes(p)`, searching left to right. */
  function Includes(s: string, p: string): bool
    decreases |s|
  {
    if StartsWith(s, p) then true
    else if s == [] then false
    else Includes(s[1..], p)
  }

  /** `s.includes(p)` holds exactly when `p` occurs somewhere in `s`. */
  lemma {:induction false} IncludesIffOccurs(s: string, p: string)
    ensures Includes(s, p) <==> exists i :: OccursAt(s, p, i)
    decreases |s|
  {
    StartsWithIffPrefix(s, p);
    if StartsWith(s, p) {
      assert OccursAt(s, p, 0);
    } else if s != [] {
      IncludesIffOccurs(s[1..], p);
      if Includes(s[1..], p) {
        var i :| OccursAt(s[1..], p, i);
        assert s[i + 1..i + 1 + |p|] == p by {
          forall k | 0 <= k < |p| ensures s[i + 1 + k] == p[k] {
            assert s[1..][i..i + |p|][k] == p[k];
          }
        }
        assert OccursAt(s, p, i + 1);
      } else {
        forall i | OccursAt(s, p, i) && i > 0 ensures OccursAt(s[1..], p, i - 1) {
          assert s[1..][i - 1..i - 1 + |p|] == s[i..i + |p|];
        }
      }
    }
  }
}
