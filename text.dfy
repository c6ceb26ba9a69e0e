/** String operations the source takes from JavaScript's `String` methods. */
module Text {

  /**
   * `toLowerCase` on one character, for ASCII, Latin-1, the Latin-1 lower-case letter whose
   * capital lies beyond it (ÿ/Ÿ) and the Polish letters beyond Latin-1.
   */
  function LowerChar(c: char): (r: char)
  {
    if 'A' <= c <= 'Z' || ('À' <= c <= 'Þ' && c != '×') then (c as int + 32) as char
    else if c == 'Ą' || c == 'Ć' || c == 'Ę' || c == 'Ł'
         || c == 'Ń' || c == 'Ś' || c == 'Ź' || c == 'Ż' then (c as int + 1) as char
    else if c == '\U{0178}' then 'ÿ'
    else c
  }

  /**
   * `toUpperCase` on one character, for the same letters: ÿ goes to Ÿ (U+0178) and the micro
   * sign to the Greek capital mu (U+039C). `ß`, which becomes the two letters `SS`, is left as it is.
   */
  function UpperChar(c: char): (r: char)
  {
    if 'a' <= c <= 'z' || ('à' <= c <= 'þ' && c != '÷') then (c as int - 32) as char
    else if c == 'ą' || c == 'ć' || c == 'ę' || c == 'ł'
         || c == 'ń' || c == 'ś' || c == 'ź' || c == 'ż' then (c as int - 1) as char
    else if c == 'ÿ' then '\U{0178}'
    else if c == '\U{00B5}' then '\U{039C}'
    else c
  }

  function Lower(s: string): (r: string)
    ensures |r| == |s| && forall i :: 0 <= i < |s| ==> r[i] == LowerChar(s[i])
  {
    seq(|s|, i requires 0 <= i < |s| => LowerChar(s[i]))
  }

  function Upper(s: string): (r: string)
    ensures |r| == |s| && forall i :: 0 <= i < |s| ==> r[i] == UpperChar(s[i])
  {
    seq(|s|, i requires 0 <= i < |s| => UpperChar(s[i]))
  }

  /** Lower-casing of the ASCII letters only, as SQLite's `LIKE` compares text. */
  function AsciiLower(s: string): (r: string)
    ensures |r| == |s|
    ensures forall i :: 0 <= i < |s| ==> r[i] == (if 'A' <= s[i] <= 'Z' then (s[i] as int + 32) as char else s[i])
  {
    seq(|s|, i requires 0 <= i < |s| => if 'A' <= s[i] <= 'Z' then (s[i] as int + 32) as char else s[i])
  }

  /** Lower-casing twice is lower-casing once. */
  lemma LowerIdempotent(s: string)
    ensures Lower(Lower(s)) == Lower(s)
  {
    forall i | 0 <= i < |s| ensures LowerChar(LowerChar(s[i])) == LowerChar(s[i]) {
      var c := s[i];
      if 'A' <= c <= 'Z' || ('À' <= c <= 'Þ' && c != '×') {
        assert LowerChar(c) as int == c as int + 32;
      }
    }
  }

  /** `p` occurs in `s` at some position: the meaning of `s.includes(p)`. */
  ghost predicate Occurs(p: string, s: string)
  {
    exists i :: 0 <= i <= |s| && p <= s[i..]
  }

  /** `s.includes(p)`, by scanning left to right. */
  function Includes(s: string, p: string): bool
    decreases |s|
  {
    if p <= s then true
    else if |s| == 0 then false
    else Includes(s[1..], p)
  }

  lemma {:induction false} IncludesIff(s: string, p: string)
    ensures Includes(s, p) <==> Occurs(p, s)
    decreases |s|
  {
    if p <= s {
      assert s[0..] == s;
    } else if |s| == 0 {
      forall i | 0 <= i <= |s| ensures !(p <= s[i..]) {
        assert s[i..] == s;
      }
    } else {
      IncludesIff(s[1..], p);
      if Includes(s[1..], p) {
        var i :| 0 <= i <= |s| - 1 && p <= s[1..][i..];
        assert s[1..][i..] == s[i + 1..];
      } else {
        forall i | 0 <= i <= |s| ensures !(p <= s[i..]) {
          if i == 0 {
            assert s[0..] == s;
          } else {
            assert s[1..][i - 1..] == s[i..];
          }
        }
      }
    }
  }

  /** The empty string occurs everywhere; nothing longer than `s` occurs in `s`. */
  lemma IncludesBounds(s: string, p: string)
    ensures p == [] ==> Includes(s, p)
    ensures |p| > |s| ==> !Includes(s, p)
  {
    IncludesIff(s, p);
    if |p| > |s| {
      forall i | 0 <= i <= |s| ensures !(p <= s[i..]) {
      }
    }
    if p == [] {
      assert p <= s[0..];
    }
  }

  /** `s.substring(0, n)`: the first `n` characters, or all of `s` when it is shorter. */
  function Take(s: string, n: nat): (r: string)
    ensures |r| <= n && r <= s
    ensures |s| <= n ==> r == s
    ensures n <= |s| ==> |r| == n
  {
    if |s| <= n then s else s[..n]
  }

  /** `parts.join(sep)`. */
  function Join(parts: seq<string>, sep: string): (r: string)
    ensures parts == [] ==> r == ""
    ensures |parts| == 1 ==> r == parts[0]
    ensures |parts| > 1 ==> r == parts[0] + sep + Join(parts[1..], sep)
  {
    if parts == [] then ""
    else if |parts| == 1 then parts[0]
    else parts[0] + sep + Join(parts[1..], sep)
  }

  /** Decimal rendering of a natural number, as template literals print it. */
  function NatToString(n: nat): (r: string)
    ensures |r| >= 1 && forall i :: 0 <= i < |r| ==> '0' <= r[i] <= '9'
  {
    var d := ['0' + (n % 10) as char];
    if n < 10 then d else NatToString(n / 10) + d
  }

  /** The value a string of decimal digits denotes. */
  function DigitsValue(s: string): (r: int)
    ensures (forall i :: 0 <= i < |s| ==> '0' <= s[i] <= '9') ==> r >= 0
  {
    if s == [] then 0 else DigitsValue(s[..|s| - 1]) * 10 + (s[|s| - 1] as int - '0' as int)
  }

  /**
   * Reading back a rendered number gives the number: the rendering denotes the value it
   * prints, and an array index written out as a property name names that index again.
   */
  lemma {:induction false} NatToStringRoundTrip(n: nat)
    ensures DigitsValue(NatToString(n)) == n
  {
    var r := NatToString(n);
    if n >= 10 {
      NatToStringRoundTrip(n / 10);
      assert r[..|r| - 1] == NatToString(n / 10);
    }
  }

  /** Decimal rendering of an integer, with a leading minus sign when negative. */
  function IntToString(n: int): (r: string)
    ensures |r| >= 1
    ensures n < 0 <==> r[0] == '-'
  {
    if n < 0 then "-" + NatToString(-n) else NatToString(n)
  }

  /** The characters `String.prototype.trim` removes. */
  predicate IsSpace(c: char)
  {
    c == ' ' || c == '\t' || c == '\n' || c == '\U{B}' || c == '\U{C}' || c == '\r'
    || c == '\U{A0}' || c == '\U{1680}' || ('\U{2000}' <= c <= '\U{200A}')
    || c == '\U{2028}' || c == '\U{2029}' || c == '\U{202F}' || c == '\U{205F}'
    || c == '\U{3000}' || c == '\U{FEFF}'
  }

  function TrimStart(s: string): (r: string)
    ensures r == [] || !IsSpace(r[0])
    ensures exists k :: 0 <= k <= |s| && r == s[k..] && forall j :: 0 <= j < k ==> IsSpace(s[j])
    decreases |s|
  {
    if s != [] && IsSpace(s[0]) then
      var r := TrimStart(s[1..]);
      var k :| 0 <= k <= |s| - 1 && r == s[1..][k..] && forall j :: 0 <= j < k ==> IsSpace(s[1..][j]);
      assert r == s[k + 1..];
      r
    else
      assert s == s[0..];
      s
  }

  function TrimEnd(s: string): (r: string)
    ensures r == [] || !IsSpace(r[|r| - 1])
    ensures exists k :: 0 <= k <= |s| && r == s[..k] && forall j :: k <= j < |s| ==> IsSpace(s[j])
    decreases |s|
  {
    if s != [] && IsSpace(s[|s| - 1]) then
      var r := TrimEnd(s[..|s| - 1]);
      var k :| 0 <= k <= |s| - 1 && r == s[..|s| - 1][..k] && forall j :: k <= j < |s| - 1 ==> IsSpace(s[j]);
      assert r == s[..k];
      r
    else
      assert s == s[..|s|];
      s
  }

  /** `s.trim()`. */
  function Trim(s: string): string
  {
    TrimEnd(TrimStart(s))
  }

  /** The trimmed string neither begins nor ends with white space. */
  lemma TrimHasNoOuterSpace(s: string)
    ensures var r := Trim(s); r == [] || (!IsSpace(r[0]) && !IsSpace(r[|r| - 1]))
  {
    var t := TrimStart(s);
    var r := TrimEnd(t);
    if r != [] {
      var k :| 0 <= k <= |t| && r == t[..k] && forall j :: k <= j < |t| ==> IsSpace(t[j]);
      assert r[0] == t[0];
    }
  }

  /** Code-point lexicographic order on strings, the order the store sorts text columns by. */
  predicate LexLess(a: string, b: string)
    decreases |a|
  {
    if a == [] then b != []
    else if b == [] then false
    else if a[0] != b[0] then a[0] < b[0]
    else LexLess(a[1..], b[1..])
  }

  lemma {:induction false} LexTrichotomy(a: string, b: string)
    ensures LexLess(a, b) || a == b || LexLess(b, a)
    ensures !(LexLess(a, b) && LexLess(b, a))
    decreases |a|
  {
    if a != [] && b != [] && a[0] == b[0] {
      LexTrichotomy(a[1..], b[1..]);
      if a[1..] == b[1..] {
        assert a == [a[0]] + a[1..] && b == [b[0]] + b[1..];
      }
    }
  }

  lemma {:induction false} LexIrreflexive(a: string)
    ensures !LexLess(a, a)
    decreases |a|
  {
    if a != [] {
      LexIrreflexive(a[1..]);
    }
  }

  lemma {:induction false} LexTransitive(a: string, b: string, c: string)
    requires LexLess(a, b) && LexLess(b, c)
    ensures LexLess(a, c)
    decreases |a|
  {
    if a != [] && a[0] == b[0] && b[0] == c[0] {
      LexTransitive(a[1..], b[1..], c[1..]);
    }
  }
}
