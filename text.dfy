/**
 * String and sequence helpers shared by the autopilot modules: Python's
 * slice-from-start `s[:n]`, `sep.join(parts)`, `s.replace(' ', '')` and
 * `s.strip()`, each stated by what its result is rather than how it is built.
 */
module Text {

  datatype Option<+T> = None | Some(value: T)

  /** Python's `s[:n]` for a non-negative `n`: the longest prefix of length at most `n`. */
  function Take<T>(s: seq<T>, n: nat): (r: seq<T>)
    ensures |r| == if |s| <= n then |s| else n
    ensures r == s[..|r|]
  {
    if |s| <= n then s else s[..n]
  }

  /** Python's truthiness of an optional string: `None` and `""` are both false. */
  predicate Truthy(s: Option<string>)
  {
    s.Some? && s.value != ""
  }

  /** Python's `d.get(key)`. */
  function Lookup<K, V>(m: map<K, V>, key: K): (r: Option<V>)
    ensures r.Some? <==> key in m
    ensures r.Some? ==> r.value == m[key]
  {
    if key in m then Some(m[key]) else None
  }

  /** Python's `d.get(key, default)`, given the result of `d.get(key)`: the value when there is one. */
  function GetOr<V>(o: Option<V>, default: V): V
  {
    if o.Some? then o.value else default
  }

  /** The decimal digit character of `d`. */
  function Digit(d: nat): char
    requires d < 10
  {
    "0123456789"[d]
  }

  function DigitValue(c: char): nat
  {
    if '0' <= c <= '9' then (c - '0') as nat else 0
  }

  /** Python's `str(n)` for a natural number: its decimal digits, without leading zeros. */
  function Decimal(n: nat): (s: string)
    ensures 1 <= |s| && forall i :: 0 <= i < |s| ==> '0' <= s[i] <= '9'
    ensures n >= 10 ==> s[0] != '0'
  {
    if n < 10 then [Digit(n)] else Decimal(n / 10) + [Digit(n % 10)]
  }

  /** The number a string of decimal digits denotes, most significant digit first. */
  function DigitsValue(s: string): nat
  {
    if s == [] then 0 else DigitsValue(s[..|s| - 1]) * 10 + DigitValue(s[|s| - 1])
  }

  /** `str(n)` reads back as n. */
  lemma {:induction false} DecimalReadsBack(n: nat)
    ensures DigitsValue(Decimal(n)) == n
  {
    var s := Decimal(n);
    var d := n % 10;
    DigitReadsBack(d);
    if n < 10 {
      assert s[..|s| - 1] == [];
    } else {
      assert s[..|s| - 1] == Decimal(n / 10) && s[|s| - 1] == Digit(d);
      DecimalReadsBack(n / 10);
      assert DigitsValue(s) == (n / 10) * 10 + d;
    }
  }

  lemma DigitReadsBack(d: nat)
    requires d < 10
    ensures DigitValue(Digit(d)) == d
  {
    var ds := "0123456789";
    assert ds[0] == '0' && ds[1] == '1' && ds[2] == '2' && ds[3] == '3' && ds[4] == '4';
    assert ds[5] == '5' && ds[6] == '6' && ds[7] == '7' && ds[8] == '8' && ds[9] == '9';
  }

  /** Python's `sep.join(parts)`. */
  function Join(parts: seq<string>, sep: string): string
  {
    if |parts| == 0 then ""
    else if |parts| == 1 then parts[0]
    else parts[0] + sep + Join(parts[1..], sep)
  }

  /** The joined text is the parts laid end to end with one separator between neighbours. */
  lemma {:induction false} JoinLength(parts: seq<string>, sep: string)
    ensures |parts| > 0 ==> |Join(parts, sep)| == SumLengths(parts) + (|parts| - 1) * |sep|
    ensures |parts| == 0 ==> Join(parts, sep) == ""
  {
    if |parts| > 1 {
      JoinLength(parts[1..], sep);
      assert SumLengths(parts) == |parts[0]| + SumLengths(parts[1..]);
    }
  }

  /** Joining starts with the first part and ends with the last one. */
  lemma {:induction false} JoinEnds(parts: seq<string>, sep: string)
    requires |parts| > 0
    ensures Join(parts, sep)[..|parts[0]|] == parts[0]
    ensures |Join(parts, sep)| >= |parts[|parts| - 1]|
    ensures Join(parts, sep)[|Join(parts, sep)| - |parts[|parts| - 1]|..] == parts[|parts| - 1]
  {
    if |parts| > 1 {
      JoinEnds(parts[1..], sep);
      var rest := Join(parts[1..], sep);
      assert Join(parts, sep) == parts[0] + sep + rest;
      assert parts[1..][|parts[1..]| - 1] == parts[|parts| - 1];
    }
  }

  function SumLengths(parts: seq<string>): nat
  {
    if parts == [] then 0 else |parts[0]| + SumLengths(parts[1..])
  }

  /** Python's `s.replace(' ', '')`: drops every ASCII space and keeps every other character, in order. */
  function RemoveSpaces(s: string): (r: string)
    ensures ' ' !in r
    ensures |r| <= |s|
    ensures forall c :: c != ' ' ==> multiset(r)[c] == multiset(s)[c]
  {
    if s == [] then []
    else
      assert s == [s[0]] + s[1..];
      (if s[0] == ' ' then [] else [s[0]]) + RemoveSpaces(s[1..])
  }

  /** One character: a space is dropped, anything else is kept. */
  lemma RemoveSpacesChar(c: char)
    ensures RemoveSpaces([c]) == if c == ' ' then [] else [c]
  {
    assert [c][1..] == [];
  }

  /** Removing spaces works piece by piece, so the kept characters stay in their order. */
  lemma {:induction false} RemoveSpacesAppend(a: string, b: string)
    ensures RemoveSpaces(a + b) == RemoveSpaces(a) + RemoveSpaces(b)
  {
    if a == [] {
      assert a + b == b;
    } else {
      var head := if a[0] == ' ' then [] else [a[0]];
      calc {
        RemoveSpaces(a + b);
      == { assert (a + b)[0] == a[0]; assert (a + b)[1..] == a[1..] + b; }
        head + RemoveSpaces(a[1..] + b);
      == { RemoveSpacesAppend(a[1..], b); }
        head + (RemoveSpaces(a[1..]) + RemoveSpaces(b));
      == { assert head + (RemoveSpaces(a[1..]) + RemoveSpaces(b)) == (head + RemoveSpaces(a[1..])) + RemoveSpaces(b); }
        RemoveSpaces(a) + RemoveSpaces(b);
      }
    }
  }

  /** The characters Python's `str.strip()` removes (those for which `str.isspace()` holds). */
  predicate IsSpace(c: char)
  {
    || '\t' <= c <= '\r'
    || '\U{1C}' <= c <= ' '
    || c == '\U{85}' || c == '\U{A0}' || c == '\U{1680}'
    || '\U{2000}' <= c <= '\U{200A}'
    || c == '\U{2028}' || c == '\U{2029}' || c == '\U{202F}' || c == '\U{205F}' || c == '\U{3000}'
  }

  /** Python's `s.lstrip()`: the suffix left after dropping the leading whitespace. */
  function StripLeft(s: string): (r: string)
    ensures |r| <= |s| && r == s[|s| - |r|..]
    ensures forall i :: 0 <= i < |s| - |r| ==> IsSpace(s[i])
    ensures r == [] || !IsSpace(r[0])
  {
    if s == [] || !IsSpace(s[0]) then s else StripLeft(s[1..])
  }

  /** Python's `s.rstrip()`: the prefix left after dropping the trailing whitespace. */
  function StripRight(s: string): (r: string)
    ensures |r| <= |s| && r == s[..|r|]
    ensures forall i :: |r| <= i < |s| ==> IsSpace(s[i])
    ensures r == [] || !IsSpace(r[|r| - 1])
  {
    if s == [] || !IsSpace(s[|s| - 1]) then s else StripRight(s[..|s| - 1])
  }

  /** Python's `s.strip()`. */
  function Strip(s: string): (r: string)
  {
    StripRight(StripLeft(s))
  }

  /** A stripped text has no whitespace at either end. */
  lemma StripEnds(s: string)
    ensures Strip(s) == [] || (!IsSpace(Strip(s)[0]) && !IsSpace(Strip(s)[|Strip(s)| - 1]))
  {
    var l := StripLeft(s);
    var r := StripRight(l);
    if r != [] {
      assert r[0] == l[0];
    }
  }

  /** A stripped text is the contiguous piece of the input that starts after the leading whitespace. */
  lemma StripSlice(s: string)
    ensures |s| - |StripLeft(s)| + |Strip(s)| <= |s|
    ensures Strip(s) == s[|s| - |StripLeft(s)|..|s| - |StripLeft(s)| + |Strip(s)|]
  {
    var k := |s| - |StripLeft(s)|;
    var l := StripLeft(s);
    var r := StripRight(l);
    assert l == s[k..];
    assert r == l[..|r|];
  }

  /** Stripping a stripped text changes nothing. */
  lemma StripIdempotent(s: string)
    ensures Strip(Strip(s)) == Strip(s)
  {
    var r := Strip(s);
    StripEnds(s);
    if r != [] {
      assert StripLeft(r) == r;
    } else {
      assert StripLeft(r) == r;
    }
    assert StripRight(r) == r;
  }

  /** `t` occurs somewhere inside `s` (Python's `t in s`). */
  predicate Contains(s: string, t: string)
    decreases |s|
  {
    t <= s || (s != [] && Contains(s[1..], t))
  }

  /** A piece placed between two others is found in the whole. */
  lemma {:induction false} ContainsMiddle(a: string, t: string, c: string)
    ensures Contains(a + t + c, t)
  {
    if a != [] {
      ContainsMiddle(a[1..], t, c);
      assert (a + t + c)[1..] == a[1..] + t + c;
    } else {
      assert a + t + c == t + c;
    }
  }

  /** Whatever is appended, a piece found in a text is still found. */
  lemma {:induction false} ContainsAppend(s: string, c: string, t: string)
    requires Contains(s, t)
    ensures Contains(s + c, t)
    decreases |s|
  {
    if !(t <= s) {
      ContainsAppend(s[1..], c, t);
      assert (s + c)[1..] == s[1..] + c;
    }
  }

  /** The text after the last line break (the whole text when there is none). */
  function LastLine(s: string): (r: string)
    ensures '\n' !in r
  {
    if s == [] || s[|s| - 1] == '\n' then [] else LastLine(s[..|s| - 1]) + [s[|s| - 1]]
  }

  /** A text that ends with a line break followed by break-free text `t` has `t` as its last line. */
  lemma {:induction false} LastLineAfterBreak(p: string, t: string)
    requires '\n' !in t
    ensures LastLine(p + "\n" + t) == t
  {
    if t != [] {
      var s := p + "\n" + t;
      var init := t[..|t| - 1];
      LastLineAfterBreak(p, init);
      assert s[..|s| - 1] == p + "\n" + init;
      assert t == init + [t[|t| - 1]];
    } else {
      assert (p + "\n" + t)[|p|] == '\n';
    }
  }
}
