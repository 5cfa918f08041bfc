/**
 * The pieces of JavaScript string handling the storefront's form code relies on:
 * the `\s` character class, ASCII digits, `String.prototype.split` with a
 * one-character separator and `parseInt(s, 10)`.
 */
module JsText {
  import opened Wrappers

  /** The characters JavaScript's `\s` matches: WhiteSpace and LineTerminator of ECMA-262. */
  predicate IsSpace(c: char) {
    || c == '\t' || c == '\n' || c == '\U{000B}' || c == '\U{000C}' || c == '\r' || c == ' '
    || c == '\U{00A0}' || c == '\U{1680}' || ('\U{2000}' <= c <= '\U{200A}')
    || c == '\U{2028}' || c == '\U{2029}' || c == '\U{202F}' || c == '\U{205F}'
    || c == '\U{3000}' || c == '\U{FEFF}'
  }

  /** `\d` and `[0-9]`: the ASCII digits only. */
  predicate IsDigit(c: char) {
    '0' <= c <= '9'
  }

  predicate AllDigits(s: string) {
    forall i :: 0 <= i < |s| ==> IsDigit(s[i])
  }

  function DigitValue(c: char): (d: int)
    requires IsDigit(c)
    ensures 0 <= d <= 9
  {
    c as int - '0' as int
  }

  /** `s.replace(/\s/g, "")` (also `/\s+/g`: deleting runs or single characters is the same). */
  function RemoveSpaces(s: string): (r: string)
    ensures |r| <= |s|
    ensures forall i :: 0 <= i < |r| ==> !IsSpace(r[i])
  {
    if s == [] then []
    else if IsSpace(s[0]) then RemoveSpaces(s[1..])
    else [s[0]] + RemoveSpaces(s[1..])
  }

  /** `s.replace(/[^0-9]/gi, "")`. */
  function KeepDigits(s: string): (r: string)
    ensures |r| <= |s|
    ensures AllDigits(r)
  {
    if s == [] then []
    else if IsDigit(s[0]) then [s[0]] + KeepDigits(s[1..])
    else KeepDigits(s[1..])
  }

  /** `s.replace(/\//g, "")`. */
  function RemoveSlashes(s: string): (r: string)
    ensures |r| <= |s|
    ensures '/' !in r
  {
    if s == [] then []
    else if s[0] == '/' then RemoveSlashes(s[1..])
    else [s[0]] + RemoveSlashes(s[1..])
  }

  /** Every character that is not white space is kept, as often as it occurs. */
  lemma {:induction false} RemoveSpacesCounts(s: string)
    ensures forall c :: multiset(RemoveSpaces(s))[c] == if IsSpace(c) then 0 else multiset(s)[c]
  {
    if s != [] {
      RemoveSpacesCounts(s[1..]);
      assert s == [s[0]] + s[1..];
    }
  }

  /** Every digit is kept, as often as it occurs, and nothing else. */
  lemma {:induction false} KeepDigitsCounts(s: string)
    ensures forall c :: multiset(KeepDigits(s))[c] == if IsDigit(c) then multiset(s)[c] else 0
  {
    if s != [] {
      KeepDigitsCounts(s[1..]);
      assert s == [s[0]] + s[1..];
    }
  }

  /** Every character other than `/` is kept, as often as it occurs. */
  lemma {:induction false} RemoveSlashesCounts(s: string)
    ensures forall c :: multiset(RemoveSlashes(s))[c] == if c == '/' then 0 else multiset(s)[c]
  {
    if s != [] {
      RemoveSlashesCounts(s[1..]);
      assert s == [s[0]] + s[1..];
    }
  }

  /** A character that is not a digit does not occur in a digit string. */
  lemma NotInDigits(s: string, c: char)
    requires AllDigits(s) && !IsDigit(c)
    ensures c !in s
  {
    forall j | 0 <= j < |s| ensures s[j] != c {
    }
  }

  lemma {:induction false} KeepDigitsOfDigits(s: string)
    requires AllDigits(s)
    ensures KeepDigits(s) == s
  {
    if s != [] {
      KeepDigitsOfDigits(s[1..]);
    }
  }

  lemma {:induction false} RemoveSpacesOfDigits(s: string)
    requires AllDigits(s)
    ensures RemoveSpaces(s) == s
  {
    if s != [] {
      RemoveSpacesOfDigits(s[1..]);
    }
  }

  lemma {:induction false} RemoveSlashesOfDigits(s: string)
    requires AllDigits(s)
    ensures RemoveSlashes(s) == s
  {
    if s != [] {
      RemoveSlashesOfDigits(s[1..]);
    }
  }

  /** Deleting white space first changes nothing about which digits remain. */
  lemma {:induction false} KeepDigitsAfterRemoveSpaces(s: string)
    ensures KeepDigits(RemoveSpaces(s)) == KeepDigits(s)
  {
    if s != [] {
      KeepDigitsAfterRemoveSpaces(s[1..]);
      if !IsSpace(s[0]) {
        assert ([s[0]] + RemoveSpaces(s[1..]))[1..] == RemoveSpaces(s[1..]);
      }
    }
  }

  lemma {:induction false} RemoveSpacesAppend(a: string, b: string)
    ensures RemoveSpaces(a + b) == RemoveSpaces(a) + RemoveSpaces(b)
  {
    if a == [] {
      assert a + b == b;
    } else {
      assert (a + b)[1..] == a[1..] + b;
      RemoveSpacesAppend(a[1..], b);
    }
  }

  lemma {:induction false} KeepDigitsAppend(a: string, b: string)
    ensures KeepDigits(a + b) == KeepDigits(a) + KeepDigits(b)
  {
    if a == [] {
      assert a + b == b;
    } else {
      assert (a + b)[1..] == a[1..] + b;
      KeepDigitsAppend(a[1..], b);
    }
  }

  lemma {:induction false} RemoveSlashesAppend(a: string, b: string)
    ensures RemoveSlashes(a + b) == RemoveSlashes(a) + RemoveSlashes(b)
  {
    if a == [] {
      assert a + b == b;
    } else {
      assert (a + b)[1..] == a[1..] + b;
      RemoveSlashesAppend(a[1..], b);
    }
  }

  // ---------------------------------------------------------------------------
  // split

  /** Index of the first `sep` in `s`, or `|s|` when there is none. */
  function IndexOf(s: string, sep: char): (i: nat)
    ensures i <= |s|
    ensures i < |s| ==> s[i] == sep
    ensures forall j :: 0 <= j < i ==> s[j] != sep
  {
    if s == [] then 0
    else if s[0] == sep then 0
    else 1 + IndexOf(s[1..], sep)
  }

  /** `s.split(sep)` for a one-character separator: the pieces between separators, at least one. */
  function Split(s: string, sep: char): (parts: seq<string>)
    ensures |parts| >= 1
    ensures forall k :: 0 <= k < |parts| ==> sep !in parts[k]
    decreases |s|
  {
    var i := IndexOf(s, sep);
    if i == |s| then [s]
    else [s[..i]] + Split(s[i + 1..], sep)
  }

  /** `parts.join(sep)`. */
  function Join(parts: seq<string>, sep: char): string
  {
    if parts == [] then []
    else if |parts| == 1 then parts[0]
    else parts[0] + [sep] + Join(parts[1..], sep)
  }

  /** Joining the pieces again gives back the string that was split. */
  lemma {:induction false} JoinSplit(s: string, sep: char)
    ensures Join(Split(s, sep), sep) == s
    decreases |s|
  {
    var i := IndexOf(s, sep);
    if i < |s| {
      var rest := Split(s[i + 1..], sep);
      JoinSplit(s[i + 1..], sep);
      assert Split(s, sep) == [s[..i]] + rest;
      assert ([s[..i]] + rest)[1..] == rest;
      assert s == s[..i] + [sep] + s[i + 1..];
    }
  }

  /** A string without the separator is one piece. */
  lemma SplitWithout(s: string, sep: char)
    requires sep !in s
    ensures Split(s, sep) == [s]
  {
    assert IndexOf(s, sep) == |s|;
  }

  /** `a + [sep] + b` with no separator in `a` splits at that separator first. */
  lemma SplitAt(a: string, b: string, sep: char)
    requires sep !in a
    ensures Split(a + [sep] + b, sep) == [a] + Split(b, sep)
  {
    var s := a + [sep] + b;
    assert s[|a|] == sep;
    assert forall j :: 0 <= j < |a| ==> s[j] == a[j];
    assert IndexOf(s, sep) == |a|;
    assert s[..|a|] == a;
    assert s[|a| + 1..] == b;
  }

  // ---------------------------------------------------------------------------
  // parseInt

  /** `s` without its leading white space. */
  function TrimStart(s: string): (r: string)
    ensures |r| <= |s|
    ensures r == [] || !IsSpace(r[0])
  {
    if s != [] && IsSpace(s[0]) then TrimStart(s[1..]) else s
  }

  /** The longest prefix of `s` made of digits. */
  function LeadingDigits(s: string): (r: string)
    ensures |r| <= |s| && r == s[..|r|]
    ensures AllDigits(r)
    ensures |r| < |s| ==> !IsDigit(s[|r|])
  {
    if s != [] && IsDigit(s[0]) then [s[0]] + LeadingDigits(s[1..]) else []
  }

  /** The decimal value of a digit string. */
  function NumberOf(d: string): (n: nat)
    requires AllDigits(d)
  {
    if d == [] then 0 else 10 * NumberOf(d[..|d| - 1]) + DigitValue(d[|d| - 1])
  }

  /**
   * `parseInt(s, 10)`: skip leading white space, take an optional sign and then
   * the longest run of digits; `None` is NaN, the result when there is no digit.
   */
  function ParseInt(s: string): (r: Option<int>)
    ensures r == None <==> LeadingDigits(Unsigned(TrimStart(s))) == []
  {
    var t := TrimStart(s);
    var d := LeadingDigits(Unsigned(t));
    var n: int := if d == [] then 0 else NumberOf(d);
    if d == [] then None
    else if t[0] == '-' then Some(-n)
    else Some(n)
  }

  /** Leading white space is skipped up to the first other character. */
  lemma {:induction false} TrimStartSpaces(ws: string, x: string)
    requires forall i :: 0 <= i < |ws| ==> IsSpace(ws[i])
    requires x == [] || !IsSpace(x[0])
    ensures TrimStart(ws + x) == x
  {
    if ws == [] {
      assert ws + x == x;
    } else {
      assert (ws + x)[1..] == ws[1..] + x;
      TrimStartSpaces(ws[1..], x);
    }
  }

  /** A run of digits followed by a non-digit (or nothing) is the leading digit run. */
  lemma {:induction false} LeadingDigitsOf(d: string, rest: string)
    requires AllDigits(d)
    requires rest == [] || !IsDigit(rest[0])
    ensures LeadingDigits(d + rest) == d
  {
    if d == [] {
      assert d + rest == rest;
    } else {
      assert (d + rest)[1..] == d[1..] + rest;
      LeadingDigitsOf(d[1..], rest);
      assert [d[0]] + d[1..] == d;
    }
  }

  /**
   * What `parseInt(s, 10)` reads: after white space and an optional sign, a
   * non-empty run of digits followed by anything that does not start with a
   * digit gives the signed value of those digits.
   */
  lemma ParseIntOf(ws: string, sign: string, d: string, rest: string)
    requires forall i :: 0 <= i < |ws| ==> IsSpace(ws[i])
    requires sign == [] || sign == ['+'] || sign == ['-']
    requires d != [] && AllDigits(d)
    requires rest == [] || !IsDigit(rest[0])
    ensures var n: int := NumberOf(d);
            ParseInt(ws + sign + d + rest) == Some(if sign == ['-'] then -n else n)
  {
    var x := sign + d + rest;
    assert ws + sign + d + rest == ws + x;
    SignedRun(sign, d, rest);
    TrimStartSpaces(ws, x);
    LeadingDigitsOf(d, rest);
    ParseIntFrom(ws + x, x, d);
  }

  /** A signed digit run starts with no white space, and dropping its sign leaves the digits. */
  lemma SignedRun(sign: string, d: string, rest: string)
    requires sign == [] || sign == ['+'] || sign == ['-']
    requires d != [] && AllDigits(d)
    ensures var x := sign + d + rest;
            x != [] && !IsSpace(x[0]) && Unsigned(x) == d + rest && (x[0] == '-' <==> sign == ['-'])
  {
    var x := sign + d + rest;
    if sign == [] {
      assert x == d + rest;
      assert IsDigit(x[0]);
    } else {
      assert x == [sign[0]] + (d + rest);
    }
  }

  /** Once the trimmed text and its digit run are known, the result is their signed value. */
  lemma ParseIntFrom(s: string, t: string, d: string)
    requires TrimStart(s) == t && LeadingDigits(Unsigned(t)) == d && d != []
    ensures var n: int := NumberOf(d);
            ParseInt(s) == Some(if t[0] == '-' then -n else n)
  {
  }

  /** `t` without one leading `+` or `-`. */
  function Unsigned(t: string): (u: string)
    ensures u == t || (t != [] && (t[0] == '+' || t[0] == '-') && u == t[1..])
  {
    if t != [] && (t[0] == '+' || t[0] == '-') then t[1..] else t
  }

  /** Two digits parse to their two-digit value. */
  lemma ParseTwoDigits(s: string)
    requires |s| == 2 && AllDigits(s)
    ensures ParseInt(s) == Some(10 * DigitValue(s[0]) + DigitValue(s[1]))
  {
    assert TrimStart(s) == s;
    assert Unsigned(s) == s;
    assert LeadingDigits(s[1..]) == s[1..] by {
      assert LeadingDigits(s[1..][1..]) == [];
    }
    assert LeadingDigits(s) == s;
    assert s[..1] == [s[0]];
    assert NumberOf(s[..1]) == DigitValue(s[0]) by {
      assert s[..1][..0] == [];
    }
  }

  /** `"20" + yy` parses to 2000 plus the two-digit value of `yy`. */
  lemma ParseCentury(yy: string)
    requires |yy| == 2 && AllDigits(yy)
    ensures ParseInt("20" + yy) == Some(2000 + 10 * DigitValue(yy[0]) + DigitValue(yy[1]))
  {
    var s := "20" + yy;
    assert AllDigits(s);
    assert [] + [] + s + [] == s;
    ParseIntOf([], [], s, []);
    assert s[..3][..2] == "20";
    assert s[..2][..1] == "2";
    assert "2"[..0] == [];
    assert NumberOf(s[..2]) == 20;
    assert NumberOf(s[..3]) == 200 + DigitValue(yy[0]);
  }
}
