/** The card validator shared by the payment router and the monolithic server:
    the Luhn check-digit test, issuer classification by prefix, the `MM/YY`
    expiry rule against the current UTC time, and the inline CVV rule. */
module CardValidation {
  import opened Common

  // ------------------------------------------------------------------
  // Card number (Luhn, ISO/IEC 7812-1 Annex B)
  // ------------------------------------------------------------------

  /** `card_number.replace(" ", "")`: only the space character is removed. */
  function RemoveSpaces(s: string): (r: string)
    ensures |r| <= |s|
  {
    if s == [] then [] else (if s[0] == ' ' then [] else [s[0]]) + RemoveSpaces(s[1..])
  }

  /** What survives is exactly the characters other than the space. */
  lemma {:induction false} RemoveSpacesMembers(s: string, c: char)
    ensures c in RemoveSpaces(s) <==> c in s && c != ' '
  {
    if s != [] {
      RemoveSpacesMembers(s[1..], c);
      assert s == [s[0]] + s[1..];
    }
  }

  lemma {:induction false} RemoveSpacesAppend(a: string, b: string)
    ensures RemoveSpaces(a + b) == RemoveSpaces(a) + RemoveSpaces(b)
  {
    if a != [] {
      assert (a + b)[0] == a[0] && (a + b)[1..] == a[1..] + b;
      RemoveSpacesAppend(a[1..], b);
    } else {
      assert a + b == b;
    }
  }

  lemma {:induction false} RemoveSpacesNone(s: string)
    requires ' ' !in s
    ensures RemoveSpaces(s) == s
  {
    if s != [] {
      assert ' ' !in s[1..] by { assert forall x :: x in s[1..] ==> x in s; }
      RemoveSpacesNone(s[1..]);
      assert s == [s[0]] + s[1..];
    }
  }

  /** Every character other than the space survives. */
  lemma RemoveSpacesKeeps(s: string)
    ensures forall k :: 0 <= k < |s| && s[k] != ' ' ==> s[k] in RemoveSpaces(s)
  {
    forall k | 0 <= k < |s| && s[k] != ' ' {
      RemoveSpacesMembers(s, s[k]);
    }
  }

  function Reverse(s: string): (r: string)
    ensures |r| == |s| && forall i :: 0 <= i < |s| ==> r[i] == s[|s| - 1 - i]
  {
    if s == [] then [] else [s[|s| - 1]] + Reverse(s[..|s| - 1])
  }

  /** What one digit adds to the checksum: a doubled digit above 9 loses 9. */
  function LuhnTerm(d: int, doubled: bool): int {
    if doubled then (if 2 * d > 9 then 2 * d - 9 else 2 * d) else d
  }

  /** The checksum of `rev[i..]`, where `rev` lists the digits from the rightmost
      one and the digit at index `j` is doubled exactly when `j` is odd. */
  function LuhnSumFrom(rev: string, i: nat): int
    requires i <= |rev| && AllDigits(rev)
    decreases |rev| - i
  {
    if i == |rev| then 0
    else LuhnTerm(DigitValue(rev[i]), i % 2 == 1) + LuhnSumFrom(rev, i + 1)
  }

  /** The Luhn checksum of a digit string. */
  function LuhnSum(digits: string): int
    requires AllDigits(digits)
  {
    LuhnSumFrom(Reverse(digits), 0)
  }

  /** What `validate_card_number` decides: after removing spaces, a non-empty
      string of digits whose checksum is a multiple of 10. */
  predicate IsLuhnValid(cardNumber: string)
    ensures IsLuhnValid(cardNumber) ==> exists k :: 0 <= k < |cardNumber| && IsDigit(cardNumber[k])
    ensures IsLuhnValid(cardNumber) ==> forall k :: 0 <= k < |cardNumber| ==> cardNumber[k] == ' ' || IsDigit(cardNumber[k])
  {
    var digits := RemoveSpaces(cardNumber);
    RemoveSpacesKeeps(cardNumber);
    if digits != [] then RemoveSpacesMembers(cardNumber, digits[0]);
      IsDigitString(digits) && LuhnSum(digits) % 10 == 0
    else false
  }

  /** `validate_card_number`: the right-to-left accumulator loop. */
  method ValidateCardNumber(cardNumber: string) returns (valid: bool)
    ensures valid <==> IsLuhnValid(cardNumber)
  {
    var digits := RemoveSpaces(cardNumber);
    if !IsDigitString(digits) {
      return false;
    }
    var total := 0;
    var reverseDigits := Reverse(digits);
    var i := 0;
    while i < |reverseDigits|
      invariant 0 <= i <= |reverseDigits|
      invariant total + LuhnSumFrom(reverseDigits, i) == LuhnSum(digits)
    {
      var n := DigitValue(reverseDigits[i]);
      if i % 2 == 1 {
        n := n * 2;
        if n > 9 {
          n := n - 9;
        }
      }
      total := total + n;
      i := i + 1;
    }
    return total % 10 == 0;
  }

  /** The checksum of a suffix depends on that suffix only. */
  lemma {:induction false} LuhnSumFromAgree(a: string, b: string, i: nat)
    requires |a| == |b| && i <= |a| && AllDigits(a) && AllDigits(b)
    requires forall j :: i <= j < |a| ==> a[j] == b[j]
    ensures LuhnSumFrom(a, i) == LuhnSumFrom(b, i)
    decreases |a| - i
  {
    if i < |a| {
      LuhnSumFromAgree(a, b, i + 1);
    }
  }

  /** Replacing the digit at index `k` changes the checksum by the difference of
      the two digits' terms, and by nothing else. */
  lemma {:induction false} LuhnSumFromUpdate(rev: string, i: nat, k: nat, c: char)
    requires i <= k < |rev| && AllDigits(rev) && IsDigit(c)
    ensures AllDigits(rev[k := c])
    ensures LuhnSumFrom(rev[k := c], i)
         == LuhnSumFrom(rev, i) - LuhnTerm(DigitValue(rev[k]), k % 2 == 1)
                                + LuhnTerm(DigitValue(c), k % 2 == 1)
    decreases k - i
  {
    var rev' := rev[k := c];
    if i < k {
      LuhnSumFromUpdate(rev, i + 1, k, c);
    } else {
      LuhnSumFromAgree(rev, rev', k + 1);
    }
  }

  /** On digits, a term is a value 0..9 that determines its digit. */
  lemma LuhnTermInjective(a: int, b: int, doubled: bool)
    requires 0 <= a <= 9 && 0 <= b <= 9
    ensures 0 <= LuhnTerm(a, doubled) <= 9
    ensures LuhnTerm(a, doubled) == LuhnTerm(b, doubled) ==> a == b
  {
  }

  /** The Luhn test catches every single-digit error: changing one digit of a
      digit string whose checksum is a multiple of 10 gives one whose checksum is not. */
  lemma LuhnDetectsSingleDigitChange(s: string, k: nat, c: char)
    requires AllDigits(s) && k < |s| && IsDigit(c) && c != s[k]
    requires LuhnSum(s) % 10 == 0
    ensures AllDigits(s[k := c])
    ensures LuhnSum(s[k := c]) % 10 != 0
  {
    var pos := |s| - 1 - k;
    ReverseUpdate(s, k, c);
    LuhnSumFromUpdate(Reverse(s), 0, pos, c);
    var d, d' := DigitValue(s[k]), DigitValue(c);
    LuhnTermInjective(d, d', pos % 2 == 1);
    OffMultipleOfTen(LuhnSum(s), LuhnTerm(d', pos % 2 == 1) - LuhnTerm(d, pos % 2 == 1));
  }

  /** Reversing after changing the digit at `k` changes the digit at the
      mirrored index. */
  lemma ReverseUpdate(s: string, k: nat, c: char)
    requires k < |s|
    ensures Reverse(s[k := c]) == Reverse(s)[|s| - 1 - k := c]
  {
  }

  /** Moving a multiple of 10 by 1..9 in either direction leaves one that is not. */
  lemma OffMultipleOfTen(x: int, delta: int)
    requires x % 10 == 0 && -9 <= delta <= 9 && delta != 0
    ensures (x + delta) % 10 != 0
  {
    var q := x / 10;
    assert x + delta == 10 * q + delta;
  }

  /** On a card number as typed, spaces included: changing any one digit of a
      number that passes `validate_card_number` into another digit makes it fail. */
  lemma SingleDigitChangeInvalidates(cardNumber: string, k: nat, c: char)
    requires IsLuhnValid(cardNumber)
    requires k < |cardNumber| && IsDigit(cardNumber[k]) && IsDigit(c) && c != cardNumber[k]
    ensures !IsLuhnValid(cardNumber[k := c])
  {
    var before, after := cardNumber[..k], cardNumber[k + 1..];
    assert cardNumber == before + [cardNumber[k]] + after;
    assert cardNumber[k := c] == before + [c] + after;
    RemoveSpacesAround(before, cardNumber[k], after);
    RemoveSpacesAround(before, c, after);
    var b, a := RemoveSpaces(before), RemoveSpaces(after);
    var digits := b + [cardNumber[k]] + a;
    assert b + [c] + a == digits[|b| := c];
    LuhnDetectsSingleDigitChange(digits, |b|, c);
  }

  /** A character other than a space survives between what is left of the
      text on either side of it. */
  lemma RemoveSpacesAround(before: string, x: char, after: string)
    requires x != ' '
    ensures RemoveSpaces(before + [x] + after) == RemoveSpaces(before) + [x] + RemoveSpaces(after)
  {
    RemoveSpacesAppend(before + [x], after);
    RemoveSpacesAppend(before, [x]);
  }

  /** A number typed without spaces is judged on its own digits: one whose
      checksum is a multiple of 10 passes. */
  lemma DigitStringAccepted(cardNumber: string)
    requires IsDigitString(cardNumber) && LuhnSum(cardNumber) % 10 == 0
    ensures IsLuhnValid(cardNumber)
  {
    RemoveSpacesNone(cardNumber);
  }

  /** The empty number and a number of spaces only are rejected. */
  lemma EmptyRejected()
    ensures !IsLuhnValid("") && !IsLuhnValid("   ")
  {
    assert RemoveSpaces("   ") == [];
  }

  lemma TestCardChecksum()
    ensures AllDigits("4532015112830366") && LuhnSum("4532015112830366") == 50
  {
    var rev := Reverse("4532015112830366");
    assert rev == "6630382115102354";
    assert LuhnSumFrom(rev, 12) == 21;
    assert LuhnSumFrom(rev, 8) == 24;
    assert LuhnSumFrom(rev, 4) == 38;
  }

  /** The test card of the payment flow passes. */
  lemma TestCardValid()
    ensures IsLuhnValid("4532015112830366")
  {
    TestCardChecksum();
    DigitStringAccepted("4532015112830366");
  }

  /** Altering the test card's check digit is caught. */
  lemma TestCardTypoRejected()
    ensures !IsLuhnValid("4532015112830367")
  {
    TestCardChecksum();
    LuhnDetectsSingleDigitChange("4532015112830366", 15, '7');
    assert "4532015112830366"[15 := '7'] == "4532015112830367";
    RemoveSpacesNone("4532015112830367");
  }

  // ------------------------------------------------------------------
  // Issuer classification
  // ------------------------------------------------------------------

  datatype CardBrand = Visa | Mastercard | Amex | DinersClub | Discover | UnknownBrand

  /** The string `get_card_type` returns for each brand. */
  function BrandName(b: CardBrand): string {
    match b
    case Visa => "Visa"
    case Mastercard => "Mastercard"
    case Amex => "Amex"
    case DinersClub => "Diners Club"
    case Discover => "Discover"
    case UnknownBrand => "Unknown"
  }

  /** `s.startswith(tuple)`: some prefix in the tuple is a prefix of `s`. */
  predicate StartsWithAny(s: string, prefixes: seq<string>) {
    exists i :: 0 <= i < |prefixes| && prefixes[i] <= s
  }

  /** `get_card_type`: the first matching prefix rule decides the brand. The
      result is read off the leading characters of the space-stripped number:
      each brand's prefix tuple described digit by digit. These sets are
      disjoint, so the outcome does not depend on the order the rules are tried
      in, and anything else (an empty number included) is Unknown. */
  function CardType(cardNumber: string): (r: CardBrand)
    ensures var n := RemoveSpaces(cardNumber);
      && (r == Visa <==> |n| >= 1 && n[0] == '4')
      && (r == Mastercard <==> |n| >= 2 && n[0] == '5' && '1' <= n[1] <= '5')
      && (r == Amex <==> |n| >= 2 && n[0] == '3' && (n[1] == '4' || n[1] == '7'))
      && (r == DinersClub <==>
            |n| >= 2 && n[0] == '3' &&
            ((n[1] == '0' && |n| >= 3 && '0' <= n[2] <= '5') || n[1] == '6' || n[1] == '8'))
      && (r == Discover <==>
            (|n| >= 4 && n[..4] == "6011") || (|n| >= 2 && n[0] == '6' && n[1] == '5'))
      && (n == [] || !(n[0] in "3456") ==> r == UnknownBrand)
  {
    var n := RemoveSpaces(cardNumber);
    MastercardPrefixes(n);
    AmexPrefixes(n);
    DinersPrefixes(n);
    DiscoverPrefixes(n);
    if "4" <= n then Visa
    else if StartsWithAny(n, ["51", "52", "53", "54", "55"]) then Mastercard
    else if StartsWithAny(n, ["34", "37"]) then Amex
    else if StartsWithAny(n, ["300", "301", "302", "303", "304", "305", "36", "38"]) then DinersClub
    else if StartsWithAny(n, ["6011", "65"]) then Discover
    else UnknownBrand
  }

  lemma MastercardPrefixes(n: string)
    ensures StartsWithAny(n, ["51", "52", "53", "54", "55"]) <==> |n| >= 2 && n[0] == '5' && '1' <= n[1] <= '5'
  {
    var ps := ["51", "52", "53", "54", "55"];
    assert forall i :: 0 <= i < |ps| ==> ps[i] == ['5', ps[i][1]] && '1' <= ps[i][1] <= '5';
    if |n| >= 2 && n[0] == '5' && '1' <= n[1] <= '5' {
      var i := n[1] as int - '1' as int;
      assert ps[i][1] == n[1];
      assert ps[i] <= n;
    }
  }

  lemma AmexPrefixes(n: string)
    ensures StartsWithAny(n, ["34", "37"]) <==> |n| >= 2 && n[0] == '3' && (n[1] == '4' || n[1] == '7')
  {
    var ps := ["34", "37"];
    assert forall i :: 0 <= i < |ps| ==> ps[i] == ['3', ps[i][1]];
    if |n| >= 2 && n[0] == '3' && n[1] == '4' {
      assert ps[0] <= n;
    } else if |n| >= 2 && n[0] == '3' && n[1] == '7' {
      assert ps[1] <= n;
    }
  }

  lemma DinersPrefixes(n: string)
    ensures StartsWithAny(n, ["300", "301", "302", "303", "304", "305", "36", "38"])
       <==> |n| >= 2 && n[0] == '3' && ((n[1] == '0' && |n| >= 3 && '0' <= n[2] <= '5') || n[1] == '6' || n[1] == '8')
  {
    var ps := ["300", "301", "302", "303", "304", "305", "36", "38"];
    assert forall i :: 0 <= i < 6 ==> ps[i] == ['3', '0', ps[i][2]] && '0' <= ps[i][2] <= '5';
    assert ps[6] == ['3', '6'] && ps[7] == ['3', '8'];
    if |n| >= 3 && n[0] == '3' && n[1] == '0' && '0' <= n[2] <= '5' {
      var i := n[2] as int - '0' as int;
      assert ps[i][2] == n[2];
      assert ps[i] <= n;
    } else if |n| >= 2 && n[0] == '3' && n[1] == '6' {
      assert ps[6] <= n;
    } else if |n| >= 2 && n[0] == '3' && n[1] == '8' {
      assert ps[7] <= n;
    }
  }

  lemma DiscoverPrefixes(n: string)
    ensures StartsWithAny(n, ["6011", "65"]) <==> (|n| >= 4 && n[..4] == "6011") || (|n| >= 2 && n[0] == '6' && n[1] == '5')
  {
    var ps := ["6011", "65"];
    if |n| >= 4 && n[..4] == "6011" {
      assert ps[0] <= n;
    } else if |n| >= 2 && n[0] == '6' && n[1] == '5' {
      assert ps[1] == ['6', '5'];
      assert ps[1] <= n;
    }
    if StartsWithAny(n, ps) {
      var i :| 0 <= i < |ps| && ps[i] <= n;
      assert i == 0 ==> n[..4] == ps[0];
    }
  }

  /** Classification looks at prefixes only: it needs neither digits throughout
      nor a valid checksum. */
  lemma NonDigitClassified()
    ensures CardType("4abc") == Visa && !IsLuhnValid("4abc")
  {
    assert !IsDigit("4abc"[1]);
  }

  lemma DiscoverExample()
    ensures CardType("6011000000000004") == Discover
  {
    SpacelessDiscover("6011000000000004");
  }

  lemma SpacelessDiscover(n: string)
    requires ' ' !in n && |n| >= 4 && n[..4] == "6011"
    ensures CardType(n) == Discover
  {
    RemoveSpacesNone(n);
  }

  lemma UnknownExample()
    ensures CardType("9999999999999999") == UnknownBrand
  {
    SpacelessUnknown("9999999999999999");
  }

  lemma SpacelessUnknown(n: string)
    requires ' ' !in n && |n| > 0 && n[0] == '9'
    ensures CardType(n) == UnknownBrand
  {
    RemoveSpacesNone(n);
  }

  // ------------------------------------------------------------------
  // Expiry date
  // ------------------------------------------------------------------

  /** `s.split(sep)`: the pieces between separators, "" included. */
  function Split(s: string, sep: char): (parts: seq<string>)
    ensures |parts| >= 1
  {
    if s == [] then [[]]
    else
      var rest := Split(s[1..], sep);
      if s[0] == sep then [[]] + rest else [[s[0]] + rest[0]] + rest[1..]
  }

  /** `sep.join(parts)`. */
  function Join(parts: seq<string>, sep: char): string
    requires |parts| >= 1
  {
    if |parts| == 1 then parts[0] else parts[0] + [sep] + Join(parts[1..], sep)
  }

  lemma SplitAtSeparator(x: string, sep: char)
    ensures Split([sep] + x, sep) == [[]] + Split(x, sep)
  {
    assert ([sep] + x)[1..] == x;
  }

  lemma SplitAtOther(c: char, x: string, sep: char)
    requires c != sep
    ensures Split([c] + x, sep) == [[c] + Split(x, sep)[0]] + Split(x, sep)[1..]
  {
    assert ([c] + x)[1..] == x;
  }

  lemma JoinEmptyHead(rest: seq<string>, sep: char)
    requires |rest| >= 1
    ensures Join([[]] + rest, sep) == [sep] + Join(rest, sep)
  {
    assert ([[]] + rest)[1..] == rest;
  }

  lemma JoinExtendHead(c: char, rest: seq<string>, sep: char)
    requires |rest| >= 1
    ensures Join([[c] + rest[0]] + rest[1..], sep) == [c] + Join(rest, sep)
  {
    var parts := [[c] + rest[0]] + rest[1..];
    if |rest| > 1 {
      assert parts[1..] == rest[1..];
      assert Join(parts, sep) == ([c] + rest[0]) + [sep] + Join(rest[1..], sep);
    }
  }

  /** Splitting loses nothing: joining the pieces back gives the string. */
  lemma {:induction false} JoinSplit(s: string, sep: char)
    ensures Join(Split(s, sep), sep) == s
  {
    if s != [] {
      var x := s[1..];
      JoinSplit(x, sep);
      assert s == [s[0]] + x;
      if s[0] == sep {
        SplitAtSeparator(x, sep);
        JoinEmptyHead(Split(x, sep), sep);
      } else {
        SplitAtOther(s[0], x, sep);
        JoinExtendHead(s[0], Split(x, sep), sep);
      }
    }
  }

  /** Pieces free of the separator come back unchanged from a split of their join. */
  lemma {:induction false} SplitJoin(parts: seq<string>, sep: char)
    requires |parts| >= 1 && forall i :: 0 <= i < |parts| ==> sep !in parts[i]
    ensures Split(Join(parts, sep), sep) == parts
    decreases |parts|, |parts[0]|
  {
    if |parts| == 1 {
      SplitNoSeparator(parts[0], sep);
    } else {
      var p, tail := parts[0], parts[1..];
      assert parts == [p] + tail;
      if p == [] {
        SplitJoin(tail, sep);
        JoinEmptyHead(tail, sep);
        SplitAtSeparator(Join(tail, sep), sep);
      } else {
        var parts' := [p[1..]] + tail;
        assert sep !in p[1..] by {
          assert forall x :: x in p[1..] ==> x in p;
        }
        assert forall i :: 1 <= i < |parts'| ==> parts'[i] == parts[i];
        SplitJoin(parts', sep);
        assert parts'[0] == p[1..] && parts'[1..] == tail;
        assert p == [p[0]] + p[1..];
        JoinExtendHead(p[0], parts', sep);
        assert [[p[0]] + parts'[0]] + parts'[1..] == parts;
        SplitAtOther(p[0], Join(parts', sep), sep);
      }
    }
  }

  lemma {:induction false} SplitNoSeparator(s: string, sep: char)
    requires sep !in s
    ensures Split(s, sep) == [s]
  {
    if s != [] {
      assert sep !in s[1..] by { assert forall x :: x in s[1..] ==> x in s; }
      SplitNoSeparator(s[1..], sep);
      assert s == [s[0]] + s[1..];
    }
  }

  /** `int(part.strip())` for an unsigned decimal numeral between optional whitespace. */
  function ParseInt(part: string): (r: Option<nat>)
    ensures r.Some? <==> IsDigitString(Strip(part))
  {
    var t := Strip(part);
    if IsDigitString(t) then Some(DecimalValue(t)) else None
  }

  /** A two-digit piece such as "07" reads as its value. */
  lemma ParseTwoDigits(s: string)
    requires |s| == 2 && AllDigits(s)
    ensures ParseInt(s) == Some(10 * DigitValue(s[0]) + DigitValue(s[1]))
  {
    StripUnpadded(s);
    TwoDigitValue(s);
  }

  /** Midnight UTC on the first day of `month` of `year`. */
  function FirstOfMonth(year: int, month: int): DateTime {
    DateTime(year, month, 1, 0, 0, 0, 0)
  }

  /** `validate_expiry_date(expiry, now)`. The `except:` branch covers a piece count
      other than two, a piece that is not a numeral, and `datetime` rejecting a
      year above 9999; each of these yields false. */
  function ValidateExpiryDate(expiry: string, now: DateTime): (r: bool)
    ensures r ==> var parts := Split(expiry, '/');
      && |parts| == 2 && expiry == parts[0] + "/" + parts[1]
      && ParseInt(parts[0]).Some? && ParseInt(parts[1]).Some?
      && 1 <= ParseInt(parts[0]).value <= 12
      && 2000 + ParseInt(parts[1]).value <= 9999
  {
    var parts := Split(expiry, '/');
    JoinSplit(expiry, '/');
    assert |parts| == 2 ==> Join(parts, '/') == parts[0] + "/" + parts[1];
    if |parts| != 2 then false
    else match (ParseInt(parts[0]), ParseInt(parts[1]))
      case (Some(month), Some(year)) =>
        var fullYear := 2000 + year;
        if month < 1 || month > 12 then false
        else if fullYear > 9999 then false
        else Before(now, FirstOfMonth(fullYear, month))
      case _ => false
  }

  /** The first of a month is after a valid instant exactly when that month is
      later than the instant's month: the card's own final month is already too late. */
  lemma FirstOfMonthAfter(now: DateTime, year: int, month: int)
    requires ValidDateTime(now)
    ensures Before(now, FirstOfMonth(year, month)) <==>
      year > now.year || (year == now.year && month > now.month)
  {
    var a, b := Fields(now), Fields(FirstOfMonth(year, month));
    // From the day onward `now` is never earlier than midnight on the first.
    assert a[6..][1..] == [] && !LexLess(a[6..], b[6..]);
    assert a[5..][1..] == a[6..] && b[5..][1..] == b[6..] && !LexLess(a[5..], b[5..]);
    assert a[4..][1..] == a[5..] && b[4..][1..] == b[5..] && !LexLess(a[4..], b[4..]);
    assert a[3..][1..] == a[4..] && b[3..][1..] == b[4..] && !LexLess(a[3..], b[3..]);
    assert a[2..][1..] == a[3..] && b[2..][1..] == b[3..] && !LexLess(a[2..], b[2..]);
    assert a[1..][1..] == a[2..] && b[1..][1..] == b[2..];
    assert LexLess(a[1..], b[1..]) <==> month > now.month;
    assert Before(now, FirstOfMonth(year, month)) == LexLess(a, b);
  }

  /** The expiry rule on its intended input `MM/YY`: valid exactly when both
      pieces are numerals, the month is 1..12, 2000+YY is a year `datetime`
      accepts, and (2000+YY, MM) comes strictly after the current (year, month). */
  lemma ExpiryValidIff(mm: string, yy: string, now: DateTime)
    requires '/' !in mm && '/' !in yy
    requires ValidDateTime(now)
    ensures ValidateExpiryDate(mm + "/" + yy, now) <==>
      && ParseInt(mm).Some? && ParseInt(yy).Some?
      && 1 <= ParseInt(mm).value <= 12
      && 2000 + ParseInt(yy).value <= 9999
      && (2000 + ParseInt(yy).value > now.year ||
          (2000 + ParseInt(yy).value == now.year && ParseInt(mm).value > now.month))
  {
    SplitJoin([mm, yy], '/');
    assert Join([mm, yy], '/') == mm + "/" + yy;
    if ParseInt(mm).Some? && ParseInt(yy).Some? {
      FirstOfMonthAfter(now, 2000 + ParseInt(yy).value, ParseInt(mm).value);
    }
  }

  /** A card stops passing at midnight on the first day of the month it names:
      it is already rejected during that month. */
  lemma RejectedDuringStatedMonth(mm: string, yy: string, now: DateTime)
    requires '/' !in mm && '/' !in yy && ValidDateTime(now)
    requires ParseInt(mm) == Some(now.month)
    requires ParseInt(yy).Some? && 2000 + ParseInt(yy).value == now.year
    ensures !ValidateExpiryDate(mm + "/" + yy, now)
  {
    ExpiryValidIff(mm, yy, now);
  }

  /** A month outside 1..12 is rejected whatever the clock says. */
  lemma MonthOutOfRangeRejected(mm: string, yy: string, now: DateTime)
    requires '/' !in mm && '/' !in yy
    requires ParseInt(mm).Some? && !(1 <= ParseInt(mm).value <= 12)
    ensures !ValidateExpiryDate(mm + "/" + yy, now)
  {
    SplitJoin([mm, yy], '/');
    assert Join([mm, yy], '/') == mm + "/" + yy;
  }

  /** Without a "/" there is one piece, and the date is rejected. */
  lemma NoSlashRejected(expiry: string, now: DateTime)
    requires '/' !in expiry
    ensures !ValidateExpiryDate(expiry, now)
  {
    SplitNoSeparator(expiry, '/');
  }

  lemma ThreePiecesRejected(now: DateTime)
    ensures !ValidateExpiryDate("12/25/01", now)
  {
    SplitJoin(["12", "25", "01"], '/');
    assert Join(["12", "25", "01"], '/') == "12/25/01";
  }

  // ------------------------------------------------------------------
  // CVV
  // ------------------------------------------------------------------

  /** The inline rule `3 <= len(cvv) <= 4 and cvv.isdigit()`: exactly the
      strings of three or four decimal digits, so no sign, space or separator. */
  predicate ValidCvv(cvv: string)
    ensures ValidCvv(cvv) <==> (|cvv| == 3 || |cvv| == 4) && forall i :: 0 <= i < |cvv| ==> cvv[i] in "0123456789"
  {
    3 <= |cvv| <= 4 && IsDigitString(cvv)
  }

  lemma CvvExamples()
    ensures !ValidCvv("12") && ValidCvv("123") && ValidCvv("1234")
    ensures !ValidCvv("12345") && !ValidCvv("12a") && !ValidCvv(" 123")
  {
    assert !IsDigit('a') && !IsDigit(' ');
    assert "12a"[2] == 'a' && " 123"[0] == ' ';
  }
}
