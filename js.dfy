/**
 * The few JavaScript semantics the application relies on: parsed JSON values
 * and truthiness, property reads, the regular-expression class `\s` and
 * `String.prototype.trim`, string length in UTF-16 code units, and the
 * decimal rendering of a non-negative integer.
 */
module Js {

  /** A value produced by `JSON.parse`, plus `undefined` for a missing property. */
  datatype JsValue =
    | Undefined
    | Null
    | Bool(b: bool)
    | Number(n: real)
    | Str(s: string)
    | Array(items: seq<JsValue>)
    | Object(fields: map<string, JsValue>)

  /** `!!v`: false for undefined, null, false, 0 and the empty string. */
  predicate Truthy(v: JsValue)
  {
    match v
    case Undefined => false
    case Null => false
    case Bool(b) => b
    case Number(n) => n != 0.0
    case Str(s) => s != ""
    case Array(_) => true
    case Object(_) => true
  }

  /** `v[key]` on a value that is not null or undefined: own properties of an object, otherwise undefined. */
  function Get(v: JsValue, key: string): (r: JsValue)
    ensures r != Undefined ==> v.Object? && key in v.fields && r == v.fields[key]
  {
    if v.Object? && key in v.fields then v.fields[key] else Undefined
  }

  /** The characters matched by `\s`, which are also the ones `trim` removes. */
  predicate IsWhitespace(c: char)
  {
    var k := c as int;
    k == 0x09 || k == 0x0A || k == 0x0B || k == 0x0C || k == 0x0D || k == 0x20
    || k == 0xA0 || k == 0x1680 || (0x2000 <= k <= 0x200A)
    || k == 0x2028 || k == 0x2029 || k == 0x202F || k == 0x205F
    || k == 0x3000 || k == 0xFEFF
  }

  function TrimStart(s: string): (r: string)
    ensures |r| <= |s| && r == s[|s| - |r|..]
    ensures r != [] ==> !IsWhitespace(r[0])
  {
    if s != [] && IsWhitespace(s[0]) then TrimStart(s[1..]) else s
  }

  function TrimEnd(s: string): (r: string)
    ensures |r| <= |s| && r == s[..|r|]
    ensures r != [] ==> !IsWhitespace(r[|r| - 1])
  {
    if s != [] && IsWhitespace(s[|s| - 1]) then TrimEnd(s[..|s| - 1]) else s
  }

  /** `s.trim()` */
  function Trim(s: string): string
  {
    TrimEnd(TrimStart(s))
  }

  /** `s.trim()` is empty exactly when every character of `s` is whitespace. */
  lemma TrimEmptyIffAllWhitespace(s: string)
    ensures Trim(s) == "" <==> forall i :: 0 <= i < |s| ==> IsWhitespace(s[i])
  {
    if forall i :: 0 <= i < |s| ==> IsWhitespace(s[i]) {
      TrimStartAllWhitespace(s);
    } else {
      var k :| 0 <= k < |s| && !IsWhitespace(s[k]);
      TrimStartStopsBefore(s, k);
      TrimEndKeepsFirst(TrimStart(s));
    }
  }

  /** A string of whitespace trims to nothing from the start. */
  lemma {:induction false} TrimStartAllWhitespace(s: string)
    requires forall i :: 0 <= i < |s| ==> IsWhitespace(s[i])
    ensures TrimStart(s) == []
  {
    if s != [] {
      assert IsWhitespace(s[0]);
      forall i | 0 <= i < |s[1..]| ensures IsWhitespace(s[1..][i]) {
        assert s[1..][i] == s[i + 1];
      }
      TrimStartAllWhitespace(s[1..]);
    }
  }

  /** Trimming the start stops at or before a character that is not whitespace. */
  lemma {:induction false} TrimStartStopsBefore(s: string, k: nat)
    requires k < |s| && !IsWhitespace(s[k])
    ensures TrimStart(s) != []
  {
    if IsWhitespace(s[0]) {
      assert k > 0 && s[1..][k - 1] == s[k];
      TrimStartStopsBefore(s[1..], k - 1);
    }
  }

  /** Trimming the end of a string whose first character is not whitespace leaves that character. */
  lemma {:induction false} TrimEndKeepsFirst(s: string)
    requires s != [] && !IsWhitespace(s[0])
    ensures TrimEnd(s) != [] && TrimEnd(s)[0] == s[0]
  {
    if IsWhitespace(s[|s| - 1]) {
      TrimEndKeepsFirst(s[..|s| - 1]);
    }
  }

  /** `s.length`: the number of UTF-16 code units, two for a character beyond U+FFFF. */
  function Utf16Length(s: string): (n: nat)
    ensures |s| <= n <= 2 * |s|
  {
    if s == [] then 0 else (if s[0] as int > 0xFFFF then 2 else 1) + Utf16Length(s[1..])
  }

  lemma {:induction false} Utf16LengthAppend(a: string, b: string)
    ensures Utf16Length(a + b) == Utf16Length(a) + Utf16Length(b)
  {
    if a != [] {
      var ab := a + b;
      assert ab != [] && ab[0] == a[0] && ab[1..] == a[1..] + b;
      Utf16LengthAppend(a[1..], b);
    } else {
      assert a + b == b;
    }
  }

  /** On text without characters beyond U+FFFF the UTF-16 length is the character count. */
  lemma {:induction false} Utf16LengthBasic(s: string)
    requires forall i :: 0 <= i < |s| ==> s[i] as int <= 0xFFFF
    ensures Utf16Length(s) == |s|
  {
    if s != [] {
      Utf16LengthBasic(s[1..]);
    }
  }

  predicate IsDigit(c: char)
  {
    '0' <= c <= '9'
  }

  /** The value of a string of decimal digits. */
  function DecimalValue(s: string): nat
    requires forall i :: 0 <= i < |s| ==> IsDigit(s[i])
  {
    if s == [] then 0
    else
      assert IsDigit(s[|s| - 1]);
      10 * DecimalValue(s[..|s| - 1]) + (s[|s| - 1] as int - '0' as int)
  }

  /** `String(n)` for a non-negative integer: its shortest decimal digits. */
  function DecimalString(n: nat): (r: string)
    ensures r != [] && forall i :: 0 <= i < |r| ==> IsDigit(r[i])
    ensures r[0] == '0' ==> n == 0 && r == "0"
    ensures DecimalValue(r) == n
  {
    var last := ['0' + (n % 10) as char];
    if n < 10 then last
    else
      var r := DecimalString(n / 10) + last;
      assert r[..|r| - 1] == DecimalString(n / 10);
      r
  }

  /** The strings in order, concatenated: the text a run of `+=` builds. */
  function Concat(ss: seq<string>): string
  {
    if ss == [] then "" else Concat(ss[..|ss| - 1]) + ss[|ss| - 1]
  }

  lemma {:induction false} ConcatAppend(a: seq<string>, b: seq<string>)
    ensures Concat(a + b) == Concat(a) + Concat(b)
  {
    if b == [] {
      assert a + b == a;
    } else {
      var b' := b[..|b| - 1];
      assert (a + b)[..|a + b| - 1] == a + b';
      ConcatAppend(a, b');
    }
  }

  lemma ConcatCons(h: string, ss: seq<string>)
    ensures Concat([h] + ss) == h + Concat(ss)
  {
    ConcatAppend([h], ss);
    assert [h][..0] == [];
  }

  /** Appending one more string to the list appends it to the text. */
  lemma Extend(ss: seq<string>, t: string)
    ensures Concat(ss + [t]) == Concat(ss) + t
  {
    assert (ss + [t])[..|ss|] == ss;
  }

}
