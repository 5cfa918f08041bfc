/**
 * The card form of the simulated payment screen: the input masks for the card
 * number and the expiry date, the Luhn check digit test, the brand classifier,
 * the expiry test against the current month, and the form state the change and
 * submit handlers update.
 */
module Payment {
  import opened Wrappers
  import opened JsText

  function Min(a: int, b: int): int {
    if a <= b then a else b
  }

  // ---------------------------------------------------------------------------
  // Card number mask

  /** Blocks of four characters, in order; only the last may be shorter. */
  function Groups(s: string): (g: seq<string>)
    decreases |s|
  {
    if s == [] then []
    else if |s| <= 4 then [s]
    else [s[..4]] + Groups(s[4..])
  }

  /** Flattening a list of strings. */
  function Concat(parts: seq<string>): string {
    if parts == [] then [] else parts[0] + Concat(parts[1..])
  }

  /** Groups cut the string into pieces of four (the last one of one to four) that add up to it. */
  lemma {:induction false} GroupsShape(s: string)
    ensures Concat(Groups(s)) == s
    ensures |Groups(s)| == (|s| + 3) / 4
    ensures forall k :: 0 <= k < |Groups(s)| - 1 ==> |Groups(s)[k]| == 4
    ensures s != [] ==> 1 <= |Groups(s)[|Groups(s)| - 1]| <= 4
    decreases |s|
  {
    if |s| > 4 {
      GroupsShape(s[4..]);
      var g := Groups(s);
      assert g[1..] == Groups(s[4..]);
      assert s == s[..4] + s[4..];
    }
  }

  /** The first block and the blocks of the rest. */
  lemma GroupsStep(s: string)
    requires s != []
    ensures Groups(s) == [s[..Min(4, |s|)]] + Groups(s[Min(4, |s|)..])
  {
    if |s| <= 4 {
      assert s[..|s|] == s;
      assert s[|s|..] == [];
    }
  }

  /** The blocks from index `i` on: the block at `i`, then the blocks after it. */
  lemma GroupsAt(s: string, i: nat)
    requires i < |s|
    ensures Groups(s[i..]) == [s[i..Min(i + 4, |s|)]] + Groups(s[Min(i + 4, |s|)..])
  {
    GroupsStep(s[i..]);
    assert s[i..][..Min(4, |s| - i)] == s[i..Min(i + 4, |s|)];
    assert s[i..][Min(4, |s| - i)..] == s[Min(i + 4, |s|)..];
  }

  /** The loop of `formatCardNumber`: `match.substring(i, i + 4)` pushed for `i` = 0, 4, 8, ... */
  method Blocks(run: string) returns (parts: seq<string>)
    ensures parts == Groups(run)
  {
    parts := [];
    var i := 0;
    while i < |run|
      invariant i % 4 == 0
      invariant i <= |run| ==> parts + Groups(run[i..]) == Groups(run)
      invariant i > |run| ==> parts == Groups(run)
      decreases |run| - i
    {
      var next := Min(i + 4, |run|);
      var block := run[i..next];
      var rest := Groups(run[next..]);
      GroupsAt(run, i);
      assert parts + ([block] + rest) == Groups(run);
      assert (parts + [block]) + rest == parts + ([block] + rest);
      parts := parts + [block];
      if next < i + 4 {
        assert next == |run| && run[next..] == [];
        assert rest == [];
        assert parts == Groups(run);
      }
      i := i + 4;
    }
    if i == |run| {
      assert Groups(run[i..]) == [];
    }
  }

  /**
   * The card number mask: the digits of the input; when there are at least four,
   * the first sixteen of them (the match of `/\d{4,16}/`) in blocks of four joined by
   * single spaces; otherwise the input exactly as it was typed.
   */
  function CardNumberMask(value: string): string {
    var v := KeepDigits(value);
    if |v| >= 4 then Join(Groups(v[..Min(|v|, 16)]), ' ') else value
  }

  /** `formatCardNumber`: deletes white space, then non-digits, takes the digit run and pushes its blocks. */
  method FormatCardNumber(value: string) returns (r: string)
    ensures r == CardNumberMask(value)
  {
    var v := KeepDigits(RemoveSpaces(value));
    KeepDigitsAfterRemoveSpaces(value);
    var run := if |v| >= 4 then v[..Min(|v|, 16)] else [];
    var parts := Blocks(run);
    if |parts| > 0 {
      r := Join(parts, ' ');
    } else {
      r := value;
    }
  }

  /** Joining space-free strings with spaces and then deleting the spaces flattens them. */
  lemma {:induction false} RemoveSpacesJoin(parts: seq<string>)
    requires forall k :: 0 <= k < |parts| ==> RemoveSpaces(parts[k]) == parts[k]
    ensures RemoveSpaces(Join(parts, ' ')) == Concat(parts)
  {
    if |parts| == 1 {
      assert Concat(parts[1..]) == [];
      assert parts[0] + [] == parts[0];
    } else if |parts| > 1 {
      RemoveSpacesJoin(parts[1..]);
      RemoveSpacesAppend(parts[0] + [' '], Join(parts[1..], ' '));
      RemoveSpacesAppend(parts[0], [' ']);
      assert RemoveSpaces([' ']) == [];
    }
  }

  /** The blocks of a digit string are digit strings. */
  lemma {:induction false} GroupsOfDigits(s: string)
    requires AllDigits(s)
    ensures forall k :: 0 <= k < |Groups(s)| ==> AllDigits(Groups(s)[k])
    decreases |s|
  {
    if |s| > 4 {
      GroupsOfDigits(s[4..]);
      assert Groups(s)[1..] == Groups(s[4..]);
    }
  }

  /**
   * The mask keeps the digits: with at least four digits typed, deleting the
   * spaces of the mask gives back the first sixteen of them, and splitting it at
   * the spaces gives the blocks of four.
   */
  lemma CardMaskRoundTrip(value: string, r: string)
    requires |KeepDigits(value)| >= 4 && r == CardNumberMask(value)
    ensures var v := KeepDigits(value);
            RemoveSpaces(r) == v[..Min(|v|, 16)] && |RemoveSpaces(r)| <= 16
    ensures var v := KeepDigits(value);
            Split(r, ' ') == Groups(v[..Min(|v|, 16)])
  {
    var v := KeepDigits(value);
    var run := v[..Min(|v|, 16)];
    var g := Groups(run);
    GroupsOfDigits(run);
    GroupsShape(run);
    forall k | 0 <= k < |g| ensures RemoveSpaces(g[k]) == g[k] {
      RemoveSpacesOfDigits(g[k]);
    }
    RemoveSpacesJoin(g);
    SplitJoinDigits(g);
  }

  /** Splitting a space-joined list of non-empty digit strings at the spaces gives the list back. */
  lemma {:induction false} SplitJoinDigits(parts: seq<string>)
    requires parts != []
    requires forall k :: 0 <= k < |parts| ==> AllDigits(parts[k])
    ensures Split(Join(parts, ' '), ' ') == parts
  {
    var head := parts[0];
    assert AllDigits(head);
    NotInDigits(head, ' ');
    if |parts| == 1 {
      SplitWithout(head, ' ');
    } else {
      var tail := parts[1..];
      assert forall k :: 0 <= k < |tail| ==> AllDigits(tail[k]) by {
        forall k | 0 <= k < |tail| ensures AllDigits(tail[k]) {
          assert tail[k] == parts[k + 1];
        }
      }
      SplitJoinDigits(tail);
      JoinStep(parts, ' ');
      SplitAt(head, Join(tail, ' '), ' ');
      assert parts == [head] + tail;
    }
  }

  /** One step of `Join`: the head, the separator, then the rest joined. */
  lemma JoinStep(parts: seq<string>, sep: char)
    requires |parts| >= 2
    ensures Join(parts, sep) == parts[0] + [sep] + Join(parts[1..], sep)
  {
  }

  // ---------------------------------------------------------------------------
  // Luhn check digit test (ISO/IEC 7812-1, Annex B)

  /** What one digit adds to the Luhn sum: itself, or twice itself with 9 taken off when that exceeds 9. */
  function LuhnValue(c: char, doubled: bool): (d: int)
    requires IsDigit(c)
    ensures 0 <= d <= 9
  {
    var x := DigitValue(c);
    if doubled then (if 2 * x > 9 then 2 * x - 9 else 2 * x) else x
  }

  /** Whether the digit at index `i` of a `n`-digit number is doubled: every second one from the right. */
  predicate Doubled(n: int, i: int) {
    (n - 1 - i) % 2 == 1
  }

  /** The Luhn sum of the digits of `d` from index `i` on, each weighted by its place from the right of `d`. */
  function LuhnFrom(d: string, i: nat): int
    requires AllDigits(d) && i <= |d|
    decreases |d| - i
  {
    if i == |d| then 0 else LuhnValue(d[i], Doubled(|d|, i)) + LuhnFrom(d, i + 1)
  }

  function LuhnSum(d: string): int
    requires AllDigits(d)
  {
    LuhnFrom(d, 0)
  }

  /** What `isValidCardNumber` accepts: 13 to 19 digits, white space aside, whose Luhn sum is a multiple of 10. */
  predicate LuhnValid(cardNumber: string) {
    var d := RemoveSpaces(cardNumber);
    AllDigits(d) && 13 <= |d| <= 19 && LuhnSum(d) % 10 == 0
  }

  /** `isValidCardNumber`: the right-to-left loop with its `sum` and `isEven` flag. */
  method IsValidCardNumber(cardNumber: string) returns (ok: bool)
    ensures ok <==> LuhnValid(cardNumber)
  {
    var digits := RemoveSpaces(cardNumber);
    if !(AllDigits(digits) && 13 <= |digits| <= 19) {
      return false;
    }
    var sum := 0;
    var isEven := false;
    var i := |digits| - 1;
    while i >= 0
      invariant -1 <= i < |digits|
      invariant sum == LuhnFrom(digits, i + 1)
      invariant isEven == Doubled(|digits|, i)
    {
      var digit := DigitValue(digits[i]);
      if isEven {
        digit := digit * 2;
        if digit > 9 {
          digit := digit - 9;
        }
      }
      sum := sum + digit;
      isEven := !isEven;
      i := i - 1;
    }
    ok := sum % 10 == 0;
  }

  /** Doubling (with 9 taken off) sends distinct digits to distinct values. */
  lemma LuhnValueInjective(a: char, b: char, doubled: bool)
    requires IsDigit(a) && IsDigit(b) && a != b
    ensures LuhnValue(a, doubled) != LuhnValue(b, doubled)
  {
  }

  /** Replacing the digit at `k` changes the Luhn sum by the change of that digit's weighted value only. */
  lemma {:induction false} LuhnFromUpdate(d: string, i: nat, k: nat, c: char)
    requires AllDigits(d) && i <= |d| && k < |d| && IsDigit(c)
    ensures AllDigits(d[k := c])
    ensures LuhnFrom(d[k := c], i) - LuhnFrom(d, i)
         == if i <= k then LuhnValue(c, Doubled(|d|, k)) - LuhnValue(d[k], Doubled(|d|, k)) else 0
    decreases |d| - i
  {
    if i < |d| {
      LuhnFromUpdate(d, i + 1, k, c);
    }
  }

  /** The Luhn test catches every single mistyped digit: changing one digit of a valid number makes it invalid. */
  lemma LuhnDetectsSingleDigitError(d: string, k: nat, c: char)
    requires AllDigits(d) && k < |d| && IsDigit(c) && c != d[k]
    requires LuhnSum(d) % 10 == 0
    ensures AllDigits(d[k := c]) && LuhnSum(d[k := c]) % 10 != 0
  {
    var doubled := Doubled(|d|, k);
    LuhnFromUpdate(d, 0, k, c);
    LuhnValueInjective(c, d[k], doubled);
    var delta := LuhnValue(c, doubled) - LuhnValue(d[k], doubled);
    assert LuhnSum(d[k := c]) == LuhnSum(d) + delta;
    ShiftOffMultiple(LuhnSum(d), delta);
  }

  /** A multiple of ten moved by a nonzero amount under ten is no longer a multiple of ten. */
  lemma ShiftOffMultiple(x: int, delta: int)
    requires x % 10 == 0 && -10 < delta < 10 && delta != 0
    ensures (x + delta) % 10 != 0
  {
    var q := x / 10;
    assert x == 10 * q;
    if delta > 0 {
      assert (x + delta) % 10 == delta;
    } else {
      assert x + delta == 10 * (q - 1) + (10 + delta);
      assert (x + delta) % 10 == 10 + delta;
    }
  }

  /** Every digit string has exactly one check digit that completes it to a number passing the Luhn test. */
  lemma CheckDigit(p: string) returns (c: char)
    requires AllDigits(p)
    ensures IsDigit(c) && AllDigits(p + [c]) && LuhnSum(p + [c]) % 10 == 0
    ensures forall e :: IsDigit(e) && e != c ==> LuhnSum(p + [e]) % 10 != 0
  {
    var z := p + ['0'];
    assert AllDigits(z);
    var rest := LuhnSum(z);
    c := ((10 - rest % 10) % 10 + '0' as int) as char;
    assert z[|p| := c] == p + [c];
    LuhnFromUpdate(z, 0, |p|, c);
    forall e | IsDigit(e) && e != c
      ensures LuhnSum(p + [e]) % 10 != 0
    {
      assert (p + [c])[|p| := e] == p + [e];
      LuhnDetectsSingleDigitError(p + [c], |p|, e);
    }
  }

  // ---------------------------------------------------------------------------
  // Brand

  datatype CardBrand = Visa | Mastercard | AmericanExpress | Discover | Unknown

  predicate StartsWith(s: string, prefix: string) {
    |prefix| <= |s| && s[..|prefix|] == prefix
  }

  /** `detectCardType`: the first prefix rule that matches the input without its white space. */
  function DetectCardType(cardNumber: string): (r: CardBrand)
    ensures var d := RemoveSpaces(cardNumber);
            && (r == Visa <==> |d| >= 1 && d[0] == '4')
            && (r == Mastercard <==> |d| >= 2 && d[0] == '5' && '1' <= d[1] <= '5')
            && (r == AmericanExpress <==> |d| >= 2 && d[0] == '3' && (d[1] == '4' || d[1] == '7'))
            && (r == Discover <==> |d| >= 2 && d[0] == '6' &&
                                   (d[1] == '5' || (|d| >= 4 && d[1] == '0' && d[2] == '1' && d[3] == '1')))
  {
    var d := RemoveSpaces(cardNumber);
    if StartsWith(d, "4") then Visa
    else if |d| >= 2 && d[0] == '5' && '1' <= d[1] <= '5' then Mastercard
    else if StartsWith(d, "34") || StartsWith(d, "37") then AmericanExpress
    else if StartsWith(d, "6011") || StartsWith(d, "65") then Discover
    else Unknown
  }

  /** Only the first four characters (white space aside) decide the brand. */
  lemma BrandFromFirstFour(cardNumber: string, other: string)
    requires var d, e := RemoveSpaces(cardNumber), RemoveSpaces(other);
             d[..Min(4, |d|)] == e[..Min(4, |e|)]
    ensures DetectCardType(cardNumber) == DetectCardType(other)
  {
    var d, e := RemoveSpaces(cardNumber), RemoveSpaces(other);
    var n := Min(4, |d|);
    assert |d| == |e| || (|d| >= 4 && |e| >= 4);
    assert forall j :: 0 <= j < n ==> d[j] == e[j] by {
      forall j | 0 <= j < n ensures d[j] == e[j] {
        assert d[..n][j] == e[..n][j];
      }
    }
    assert StartsWith(d, "4") == StartsWith(e, "4");
    assert StartsWith(d, "34") == StartsWith(e, "34");
    assert StartsWith(d, "37") == StartsWith(e, "37");
    assert StartsWith(d, "65") == StartsWith(e, "65");
    assert StartsWith(d, "6011") == StartsWith(e, "6011");
  }

  /** Once a brand is recognised, typing more characters never changes it. */
  lemma BrandStableUnderTyping(cardNumber: string, more: string)
    requires DetectCardType(cardNumber) != Unknown
    ensures DetectCardType(cardNumber + more) == DetectCardType(cardNumber)
  {
    var d := RemoveSpaces(cardNumber);
    var e := RemoveSpaces(cardNumber + more);
    RemoveSpacesAppend(cardNumber, more);
    assert e == d + RemoveSpaces(more);
    if |d| >= 4 {
      assert e[..4] == d[..4];
      BrandFromFirstFour(cardNumber, cardNumber + more);
    } else {
      assert d != [];
      assert e[0] == d[0] && e[..1] == d[..1];
      if |d| >= 2 {
        assert e[1] == d[1] && e[..2] == d[..2];
      }
      if |d| >= 3 {
        assert e[..3] == d[..3];
      }
    }
  }

  /** The mask's spaces do not change the brand: it is the brand of the digits typed. */
  lemma BrandOfMask(value: string, r: string)
    requires |KeepDigits(value)| >= 4 && r == CardNumberMask(value)
    ensures DetectCardType(r) == DetectCardType(KeepDigits(value))
  {
    var v := KeepDigits(value);
    CardMaskRoundTrip(value, r);
    RemoveSpacesOfDigits(v);
    var d := RemoveSpaces(r);
    assert d[..4] == v[..4];
    BrandFromFirstFour(r, v);
  }

  // ---------------------------------------------------------------------------
  // Expiry mask and expiry test

  /**
   * `formatExpiryDate`: the digits of the input; from two digits on, the first two,
   * a slash and the next ones up to two more.
   */
  function FormatExpiryDate(value: string): (r: string)
    ensures var v := KeepDigits(value);
            |v| >= 2 ==> Split(r, '/') == [v[..2], v[2..Min(4, |v|)]]
    ensures var v := KeepDigits(value);
            |v| < 2 ==> r == v
    ensures RemoveSlashes(r) == KeepDigits(value)[..Min(4, |KeepDigits(value)|)]
            || |KeepDigits(value)| < 2
  {
    var v := KeepDigits(RemoveSpaces(value));
    KeepDigitsAfterRemoveSpaces(value);
    if |v| >= 2 then
      ExpiryMaskShape(v[..2], v[2..Min(4, |v|)]);
      v[..2] + "/" + v[2..Min(4, |v|)]
    else v
  }

  lemma ExpiryMaskShape(mm: string, yy: string)
    requires AllDigits(mm) && AllDigits(yy)
    ensures Split(mm + "/" + yy, '/') == [mm, yy]
    ensures RemoveSlashes(mm + "/" + yy) == mm + yy
  {
    ExpiryMaskSplit(mm, yy);
    ExpiryMaskDigits(mm, yy);
  }

  lemma ExpiryMaskSplit(mm: string, yy: string)
    requires AllDigits(mm) && AllDigits(yy)
    ensures Split(mm + "/" + yy, '/') == [mm, yy]
  {
    NotInDigits(mm, '/');
    NotInDigits(yy, '/');
    assert mm + "/" + yy == mm + ['/'] + yy;
    SplitAt(mm, yy, '/');
    SplitWithout(yy, '/');
  }

  lemma ExpiryMaskDigits(mm: string, yy: string)
    requires AllDigits(mm) && AllDigits(yy)
    ensures RemoveSlashes(mm + "/" + yy) == mm + yy
  {
    RemoveSlashesAppend(mm + "/", yy);
    RemoveSlashesAppend(mm, "/");
    RemoveSlashesOfDigits(mm);
    RemoveSlashesOfDigits(yy);
    assert RemoveSlashes("/") == [];
  }

  /** `a < b` in JavaScript, where NaN is below nothing. */
  predicate Below(a: Option<int>, b: int) {
    a.Some? && a.value < b
  }

  /** `a > b` in JavaScript, where NaN is above nothing. */
  predicate Above(a: Option<int>, b: int) {
    a.Some? && a.value > b
  }

  /**
   * `isValidExpiryDate` with `new Date()` replaced by the current year and month
   * (1 to 12): the two pieces before and after the first `/` must both have
   * length 2, the month must not lie outside 1..12 and the month must not be past.
   */
  function IsValidExpiryDate(expiryDate: string, currentYear: int, currentMonth: int): (ok: bool)
    ensures ok ==>
              var parts := Split(expiryDate, '/');
              && |parts| >= 2 && |parts[0]| == 2 && |parts[1]| == 2
              && var m, y := ParseInt(parts[0]), ParseInt("20" + parts[1]);
                 && y.Some? && y.value >= currentYear
                 && (m.Some? ==> 1 <= m.value <= 12 && (y.value == currentYear ==> m.value >= currentMonth))
  {
    var parts := Split(expiryDate, '/');
    var month := parts[0];
    if |parts| < 2 || month == [] || parts[1] == [] || |month| != 2 || |parts[1]| != 2 then false
    else
      assert ("20" + parts[1])[0] == '2';
      var monthNum := ParseInt(month);
      var yearNum := ParseInt("20" + parts[1]);
      if Below(monthNum, 1) || Above(monthNum, 12) then false
      else if Below(yearNum, currentYear) then false
      else if yearNum.Some? && yearNum == Some(currentYear) && Below(monthNum, currentMonth) then false
      else true
  }

  /** The value of a two-digit string. */
  function TwoDigitValue(s: string): int
    requires |s| == 2 && AllDigits(s)
  {
    10 * DigitValue(s[0]) + DigitValue(s[1])
  }

  /**
   * On `MM/YY` written with digits the test is exactly: the month is 1 to 12 and
   * (2000 + YY, MM) is not before the current (year, month).
   */
  lemma ExpiryOnDigits(mm: string, yy: string, currentYear: int, currentMonth: int)
    requires |mm| == 2 && |yy| == 2 && AllDigits(mm) && AllDigits(yy)
    ensures IsValidExpiryDate(mm + "/" + yy, currentYear, currentMonth)
        <==> var m, y := TwoDigitValue(mm), 2000 + TwoDigitValue(yy);
             1 <= m <= 12 && (y > currentYear || (y == currentYear && m >= currentMonth))
  {
    ExpiryMaskShape(mm, yy);
    ParseTwoDigits(mm);
    ParseCentury(yy);
  }

  /** Without a slash, or with a first or second piece that is not two characters long, the date is refused. */
  lemma ExpiryMalformed(expiryDate: string, currentYear: int, currentMonth: int)
    requires var parts := Split(expiryDate, '/');
             |parts| < 2 || |parts[0]| != 2 || |parts[1]| != 2
    ensures !IsValidExpiryDate(expiryDate, currentYear, currentMonth)
  {
  }

  /**
   * A month that `parseInt` cannot read is NaN, which is neither below 1 nor
   * above 12 nor below the current month, so it slips through: such a date is
   * accepted exactly when its year is not before the current one. The expiry
   * mask never produces one (see ExpiryOfMask).
   */
  lemma UnreadableMonthAccepted(mm: string, yy: string, currentYear: int, currentMonth: int)
    requires |mm| == 2 && '/' !in mm && ParseInt(mm) == None
    requires |yy| == 2 && AllDigits(yy)
    ensures IsValidExpiryDate(mm + "/" + yy, currentYear, currentMonth) <==> 2000 + TwoDigitValue(yy) >= currentYear
  {
    NotInDigits(yy, '/');
    assert mm + "/" + yy == mm + ['/'] + yy;
    SplitAt(mm, yy, '/');
    SplitWithout(yy, '/');
    ParseCentury(yy);
  }

  /**
   * The two masks meet: what the expiry field holds passes the test exactly when
   * four digits were typed, the first two are a month and it is not past.
   */
  lemma ExpiryOfMask(value: string, currentYear: int, currentMonth: int)
    ensures var v := KeepDigits(value);
            (IsValidExpiryDate(FormatExpiryDate(value), currentYear, currentMonth) <==>
               (|v| >= 4 &&
                var m, y := TwoDigitValue(v[..2]), 2000 + TwoDigitValue(v[2..4]);
                1 <= m <= 12 && (y > currentYear || (y == currentYear && m >= currentMonth))))
  {
    var v := KeepDigits(value);
    var r := FormatExpiryDate(value);
    KeepDigitsAfterRemoveSpaces(value);
    if |v| >= 4 {
      assert r == v[..2] + "/" + v[2..4];
      ExpiryOnDigits(v[..2], v[2..4], currentYear, currentMonth);
    } else if |v| >= 2 {
      assert Min(4, |v|) == |v|;
      assert Split(r, '/') == [v[..2], v[2..|v|]];
      ExpiryMalformed(r, currentYear, currentMonth);
    } else {
      assert r == v;
      NotInDigits(r, '/');
      SplitWithout(r, '/');
      ExpiryMalformed(r, currentYear, currentMonth);
    }
  }

  /** A few characters without four digits among them come back as typed. */
  lemma CardMaskShortInput(value: string)
    requires |KeepDigits(value)| < 4
    ensures CardNumberMask(value) == value
  {
  }

  // ---------------------------------------------------------------------------
  // The form

  /** Which check stopped a submission, or that it went on to the simulated processing. */
  datatype SubmitOutcome = MissingDetails | InvalidCardNumber | InvalidExpiry | InvalidCvv | Accepted

  /** `handleSubmit`'s checks in their order: all fields filled, the Luhn test, the expiry test, a CVV of three. */
  function SubmitCheck(cardNumber: string, cardName: string, expiryDate: string, cvv: string,
                       currentYear: int, currentMonth: int): (r: SubmitOutcome)
    ensures r == MissingDetails <==> cardNumber == [] || cardName == [] || expiryDate == [] || cvv == []
    ensures r == InvalidCardNumber ==> !LuhnValid(cardNumber)
    ensures r == InvalidExpiry ==> LuhnValid(cardNumber) && !IsValidExpiryDate(expiryDate, currentYear, currentMonth)
    ensures r == InvalidCvv ==> LuhnValid(cardNumber) && IsValidExpiryDate(expiryDate, currentYear, currentMonth) && |cvv| != 3
    ensures r == Accepted <==>
              && cardNumber != [] && cardName != [] && expiryDate != [] && cvv != []
              && LuhnValid(cardNumber) && IsValidExpiryDate(expiryDate, currentYear, currentMonth) && |cvv| == 3
  {
    if cardNumber == [] || cardName == [] || expiryDate == [] || cvv == [] then MissingDetails
    else if !LuhnValid(cardNumber) then InvalidCardNumber
    else if !IsValidExpiryDate(expiryDate, currentYear, currentMonth) then InvalidExpiry
    else if |cvv| != 3 then InvalidCvv
    else Accepted
  }

  /** The fields of the payment screen and the state its handlers update. */
  class PaymentForm {
    var cardNumber: string
    var cardName: string
    var expiryDate: string
    var cvv: string
    /** The brand shown next to the number; `None` before anything was typed. */
    var cardType: Option<CardBrand>
    var processing: bool

    /** What the change handlers keep true: at most 16 number characters, at most 4 expiry digits, a CVV of up to three digits. */
    ghost predicate Valid()
      reads this
    {
      && |RemoveSpaces(cardNumber)| <= 16
      && |RemoveSlashes(expiryDate)| <= 4
      && AllDigits(cvv) && |cvv| <= 3
    }

    constructor ()
      ensures Valid()
      ensures cardNumber == [] && cardName == [] && expiryDate == [] && cvv == []
      ensures cardType == None && !processing
    {
      cardNumber, cardName, expiryDate, cvv := [], [], [], [];
      cardType := None;
      processing := false;
    }

    /** `handleCardNumberChange`: the mask is taken, with its brand, only when it has at most 16 characters besides white space. */
    method CardNumberChanged(input: string)
      requires Valid()
      modifies this`cardNumber, this`cardType
      ensures Valid()
      ensures var f := CardNumberMask(input);
              if |RemoveSpaces(f)| <= 16 then cardNumber == f && cardType == Some(DetectCardType(f))
              else cardNumber == old(cardNumber) && cardType == old(cardType)
    {
      var formatted := FormatCardNumber(input);
      if |RemoveSpaces(formatted)| <= 16 {
        cardNumber := formatted;
        cardType := Some(DetectCardType(formatted));
      }
    }

    /** The card holder field keeps what was typed. */
    method CardNameChanged(input: string)
      requires Valid()
      modifies this`cardName
      ensures Valid() && cardName == input
    {
      cardName := input;
    }

    /** `handleExpiryChange`: the mask is taken when it holds at most four digits. */
    method ExpiryChanged(input: string)
      requires Valid()
      modifies this`expiryDate
      ensures Valid()
      ensures var f := FormatExpiryDate(input);
              expiryDate == if |RemoveSlashes(f)| <= 4 then f else old(expiryDate)
    {
      var formatted := FormatExpiryDate(input);
      if |RemoveSlashes(formatted)| <= 4 {
        expiryDate := formatted;
      }
    }

    /** `handleCvvChange`: the digits typed, taken only when there are at most three. */
    method CvvChanged(input: string)
      requires Valid()
      modifies this`cvv
      ensures Valid()
      ensures cvv == if |KeepDigits(input)| <= 3 then KeepDigits(input) else old(cvv)
    {
      var v := KeepDigits(input);
      if |v| <= 3 {
        cvv := v;
      }
    }

    /** `handleSubmit` with the current year and month given: the checks in order, then processing starts. */
    method Submit(currentYear: int, currentMonth: int) returns (outcome: SubmitOutcome)
      modifies this`processing
      ensures outcome == SubmitCheck(cardNumber, cardName, expiryDate, cvv, currentYear, currentMonth)
      ensures processing == (old(processing) || outcome == Accepted)
    {
      if cardNumber == [] || cardName == [] || expiryDate == [] || cvv == [] {
        return MissingDetails;
      }
      var ok := IsValidCardNumber(cardNumber);
      if !ok {
        return InvalidCardNumber;
      }
      if !IsValidExpiryDate(expiryDate, currentYear, currentMonth) {
        return InvalidExpiry;
      }
      if |cvv| != 3 {
        return InvalidCvv;
      }
      processing := true;
      outcome := Accepted;
    }
  }

  /** The expiry guard never refuses a mask: the mask holds at most four digits. */
  lemma ExpiryMaskWithinGuard(input: string)
    ensures |RemoveSlashes(FormatExpiryDate(input))| <= 4
  {
    var v := KeepDigits(input);
    var r := FormatExpiryDate(input);
    if |v| < 2 {
      RemoveSlashesOfDigits(v);
    }
  }

  /** The card number guard refuses only a short, non-numeric entry: with four digits typed the mask always passes. */
  lemma CardMaskWithinGuard(input: string)
    requires |KeepDigits(input)| >= 4
    ensures |RemoveSpaces(CardNumberMask(input))| <= 16
  {
    CardMaskRoundTrip(input, CardNumberMask(input));
  }
}
