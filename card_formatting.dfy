/** The payment form's input formatters (`setupCardFormatting`), identical in
    both copies of the payment page. Each runs on every keystroke and
    replaces the field's text with its own output. */
module CardFormatting {
  import opened Common
  import opened CardValidation

  /** `.replace(/[^0-9]/g, "")`: the ASCII digits, in order. The card
      formatter first strips whitespace with `/\s/g`; whitespace is not a
      digit, so that step changes nothing this keeps. */
  function KeepDigits(s: string): (r: string)
    ensures AllDigits(r) && |r| <= |s|
  {
    if s == [] then []
    else KeepDigits(s[..|s| - 1]) + (if IsDigit(s[|s| - 1]) then [s[|s| - 1]] else [])
  }

  /** It is the order-preserving selection of the digits. */
  lemma {:induction false} KeepDigitsSelects(s: string)
    ensures KeepDigits(s) == Filter(s, IsDigit) && IsSubsequence(KeepDigits(s), s)
  {
    if s != [] {
      KeepDigitsSelects(s[..|s| - 1]);
    }
    FilterIsSubsequence(s, IsDigit);
  }

  lemma {:induction false} KeepDigitsAppend(a: string, b: string)
    ensures KeepDigits(a + b) == KeepDigits(a) + KeepDigits(b)
    decreases |b|
  {
    if b != [] {
      KeepDigitsAppend(a, b[..|b| - 1]);
      assert (a + b)[..|a + b| - 1] == a + b[..|b| - 1];
    } else {
      assert a + b == a;
    }
  }

  lemma {:induction false} KeepDigitsOfDigits(s: string)
    requires AllDigits(s)
    ensures KeepDigits(s) == s
  {
    if s != [] {
      KeepDigitsOfDigits(s[..|s| - 1]);
    }
  }

  // ------------------------------------------------------------------
  // Card number
  // ------------------------------------------------------------------

  /** `value.match(/.{1,4}/g)`: consecutive pieces of four, the last one
      holding the remaining one to four characters. */
  function Groups(d: string): (r: seq<string>)
    requires d != []
    ensures |r| >= 1
    ensures forall i :: 0 <= i < |r| - 1 ==> |r[i]| == 4
    ensures 1 <= |r[|r| - 1]| <= 4
    ensures |r| == (|d| + 3) / 4
    decreases |d|
  {
    if |d| <= 4 then [d] else [d[..4]] + Groups(d[4..])
  }

  /** The card number formatter: the digits typed, in groups of four joined
      by single spaces. With no digits `match` yields null and `|| value`
      falls back to the empty string. The result holds only digits and
      spaces, and removing the spaces, as the server does, gives back exactly
      the digits typed, in order. */
  function FormatCardNumber(input: string): (r: string)
    ensures KeepDigits(input) == [] ==> r == ""
    ensures KeepDigits(input) != [] ==> GroupedByFour(r, KeepDigits(input))
    ensures DigitsAndSpaces(r)
    ensures RemoveSpaces(r) == KeepDigits(input)
  {
    var value := KeepDigits(input);
    if value == [] then value
    else
      JoinGroupsCharacters(value);
      JoinGroupsRemoveSpaces(value);
      JoinGroupsLayout(value);
      Join(Groups(value), ' ')
  }

  /** `s` is `d` written in blocks of four with one space between blocks:
      every fifth character is a space, and the others are the characters
      of `d` in order. */
  predicate GroupedByFour(s: string, d: string) {
    && |s| == |d| + (|d| - 1) / 4
    && forall i :: 0 <= i < |s| ==>
         if i % 5 == 4 then s[i] == ' ' else i - i / 5 < |d| && s[i] == d[i - i / 5]
  }

  /** One block further along keeps the position inside the block. */
  lemma FiveShift(j: int)
    requires j >= 0
    ensures (j + 5) % 5 == j % 5 && (j + 5) / 5 == j / 5 + 1
  {
    var q, r := j / 5, j % 5;
    assert j + 5 == 5 * (q + 1) + r;
  }

  lemma FourShift(k: int)
    requires k >= 0
    ensures (k + 4) / 4 == k / 4 + 1
  {
    var q, r := k / 4, k % 4;
    assert k + 4 == 4 * (q + 1) + r;
  }

  lemma {:induction false} JoinGroupsLayout(d: string)
    requires d != []
    ensures GroupedByFour(Join(Groups(d), ' '), d)
    decreases |d|
  {
    if |d| <= 4 {
      assert Groups(d) == [d];
      assert Join(Groups(d), ' ') == d;
      ShortLayout(d);
    } else {
      JoinGroupsLayout(d[4..]);
      JoinGroupsUnfold(d);
      LayoutStep(d, Join(Groups(d[4..]), ' '));
    }
  }

  /** One to four characters form a single block. */
  lemma ShortLayout(d: string)
    requires 1 <= |d| <= 4
    ensures GroupedByFour(d, d)
  {
    forall i | 0 <= i < |d|
      ensures i % 5 == i && i / 5 == 0
    {
    }
  }

  /** A block of four, a space, then the layout of the rest. */
  lemma LayoutStep(d: string, t: string)
    requires |d| > 4 && GroupedByFour(t, d[4..])
    ensures GroupedByFour(d[..4] + " " + t, d)
  {
    var s := d[..4] + " " + t;
    FourShift(|d| - 5);
    forall i | 0 <= i < |s|
      ensures if i % 5 == 4 then s[i] == ' ' else i - i / 5 < |d| && s[i] == d[i - i / 5]
    {
      if i < 5 {
        assert i % 5 == i && i / 5 == 0;
      } else {
        LayoutShift(s, t, d, i);
      }
    }
  }

  /** A position past the first block reads from the rest of the layout. */
  lemma LayoutShift(s: string, t: string, d: string, i: int)
    requires |d| > 4 && s == d[..4] + " " + t && GroupedByFour(t, d[4..])
    requires 5 <= i < |s|
    ensures if i % 5 == 4 then s[i] == ' ' else i - i / 5 < |d| && s[i] == d[i - i / 5]
  {
    var j := i - 5;
    var q, r := j / 5, j % 5;
    FiveShift(j);
    assert s[i] == t[j];
    assert if r == 4 then t[j] == ' ' else j - q < |d| - 4 && t[j] == d[4..][j - q];
  }

  lemma JoinGroupsUnfold(d: string)
    requires |d| > 4
    ensures Join(Groups(d), ' ') == d[..4] + " " + Join(Groups(d[4..]), ' ')
  {
    assert Groups(d)[1..] == Groups(d[4..]);
  }

  /** Text made of digits and spaces only. */
  predicate DigitsAndSpaces(s: string) {
    forall i :: 0 <= i < |s| ==> IsDigit(s[i]) || s[i] == ' '
  }

  lemma DigitsAndSpacesAppend(a: string, b: string)
    requires DigitsAndSpaces(a) && DigitsAndSpaces(b)
    ensures DigitsAndSpaces(a + b)
  {
    forall i | 0 <= i < |a + b| ensures IsDigit((a + b)[i]) || (a + b)[i] == ' ' {
      if i >= |a| {
        assert (a + b)[i] == b[i - |a|];
      }
    }
  }

  lemma {:induction false} JoinGroupsCharacters(d: string)
    requires d != [] && AllDigits(d)
    ensures DigitsAndSpaces(Join(Groups(d), ' '))
    decreases |d|
  {
    if |d| > 4 {
      var head, rest := d[..4], Join(Groups(d[4..]), ' ');
      JoinGroupsCharacters(d[4..]);
      JoinGroupsUnfold(d);
      assert DigitsAndSpaces(head);
      DigitsAndSpacesAppend(head, " ");
      DigitsAndSpacesAppend(head + " ", rest);
    }
  }

  lemma {:induction false} JoinGroupsRemoveSpaces(d: string)
    requires d != [] && AllDigits(d)
    ensures RemoveSpaces(Join(Groups(d), ' ')) == d
    decreases |d|
  {
    if |d| <= 4 {
      RemoveSpacesNone(d);
    } else {
      var head, rest := d[..4], Join(Groups(d[4..]), ' ');
      JoinGroupsRemoveSpaces(d[4..]);
      JoinGroupsUnfold(d);
      RemoveSpacesNone(head);
      RemoveSpacesAppend(head + " ", rest);
      RemoveSpacesAppend(head, " ");
      assert head + d[4..] == d;
    }
  }

  lemma {:induction false} JoinGroupsKeepDigits(d: string)
    requires d != [] && AllDigits(d)
    ensures KeepDigits(Join(Groups(d), ' ')) == d
    decreases |d|
  {
    if |d| <= 4 {
      KeepDigitsOfDigits(d);
    } else {
      var head, rest := d[..4], Join(Groups(d[4..]), ' ');
      JoinGroupsKeepDigits(d[4..]);
      JoinGroupsUnfold(d);
      KeepDigitsOfDigits(head);
      KeepDigitsAppend(head + " ", rest);
      KeepDigitsAppend(head, " ");
      assert head + d[4..] == d;
    }
  }

  /** Formatting the formatted text changes nothing, so the handler is stable
      under repeated input events. */
  lemma CardNumberIdempotent(input: string)
    ensures FormatCardNumber(FormatCardNumber(input)) == FormatCardNumber(input)
  {
    if KeepDigits(input) != [] {
      JoinGroupsKeepDigits(KeepDigits(input));
    }
  }

  // ------------------------------------------------------------------
  // Expiry date
  // ------------------------------------------------------------------

  /** The expiry formatter: at most four digits, with "/" after the first two
      once a third is typed. The output never exceeds `MM/YY`: with fewer than
      three digits typed it is those digits, otherwise digits with a slash in
      third position and nothing else. */
  function FormatExpiry(input: string): (r: string)
    ensures |r| <= 5
    ensures |KeepDigits(input)| < 3 ==> r == KeepDigits(input)
    ensures |KeepDigits(input)| >= 3 ==> 4 <= |r| && r[2] == '/' && '/' !in r[..2] && '/' !in r[3..]
  {
    var digits := KeepDigits(input);
    var value := if |digits| > 4 then digits[..4] else digits;
    if |value| >= 3 then value[..2] + "/" + value[2..] else value
  }

  /** The digits the formatter keeps: the first four typed. */
  function ExpiryDigits(input: string): (r: string)
    ensures AllDigits(r) && |r| <= 4
  {
    var digits := KeepDigits(input);
    if |digits| > 4 then digits[..4] else digits
  }

  lemma ExpirySlashed(input: string)
    requires |ExpiryDigits(input)| >= 3
    ensures var kept := ExpiryDigits(input);
      FormatExpiry(input) == kept[..2] + "/" + kept[2..]
  {
  }

  /** Reading the digits back out of the field gives the ones kept. */
  lemma ExpiryKeepsDigits(input: string)
    ensures KeepDigits(FormatExpiry(input)) == ExpiryDigits(input)
  {
    var kept := ExpiryDigits(input);
    KeepDigitsOfDigits(kept);
    if |kept| >= 3 {
      ExpirySlashed(input);
      KeepDigitsAppend(kept[..2] + "/", kept[2..]);
      KeepDigitsAppend(kept[..2], "/");
      KeepDigitsOfDigits(kept[..2]);
      KeepDigitsOfDigits(kept[2..]);
      assert kept[..2] + kept[2..] == kept;
    }
  }

  lemma ExpiryIdempotent(input: string)
    ensures FormatExpiry(FormatExpiry(input)) == FormatExpiry(input)
  {
    ExpiryKeepsDigits(input);
    var kept := ExpiryDigits(input);
    assert ExpiryDigits(FormatExpiry(input)) == kept;
  }

  /** Once four digits are typed the field reads `MM/YY`, which the server's
      expiry rule splits into exactly those two numerals: it accepts the card
      exactly when MM is a month and (20YY, MM) lies after the current month. */
  lemma FormattedExpiryAccepted(input: string, now: DateTime)
    requires |KeepDigits(input)| >= 4 && ValidDateTime(now)
    ensures var d := KeepDigits(input);
      var month := 10 * DigitValue(d[0]) + DigitValue(d[1]);
      var year := 2000 + 10 * DigitValue(d[2]) + DigitValue(d[3]);
      && FormatExpiry(input) == d[..2] + "/" + d[2..4]
      && (ValidateExpiryDate(FormatExpiry(input), now) <==>
            1 <= month <= 12 && (year > now.year || (year == now.year && month > now.month)))
  {
    var d := KeepDigits(input);
    FormattedExpiryPieces(input);
    ParseTwoDigits(d[..2]);
    ParseTwoDigits(d[2..4]);
    ExpiryValidIff(d[..2], d[2..4], now);
  }

  /** With four digits typed, the field is the two numerals around "/". */
  lemma FormattedExpiryPieces(input: string)
    requires |KeepDigits(input)| >= 4
    ensures var d := KeepDigits(input);
      var mm, yy := d[..2], d[2..4];
      && FormatExpiry(input) == mm + "/" + yy
      && '/' !in mm && '/' !in yy
      && AllDigits(mm) && AllDigits(yy)
  {
    var d := KeepDigits(input);
    var mm, yy := d[..2], d[2..4];
    ExpirySlashed(input);
    assert ExpiryDigits(input)[..2] == mm && ExpiryDigits(input)[2..] == yy;
    assert AllDigits(mm) && AllDigits(yy);
    assert '/' !in mm && '/' !in yy;
  }

  // ------------------------------------------------------------------
  // CVV
  // ------------------------------------------------------------------

  /** The CVV formatter keeps only the digits. */
  function FormatCvv(input: string): (r: string)
    ensures AllDigits(r) && |r| <= |input|
  {
    KeepDigits(input)
  }

  /** Formatting is idempotent, and the server then accepts the field exactly
      when three or four digits were typed. */
  lemma CvvFormatted(input: string)
    ensures FormatCvv(FormatCvv(input)) == FormatCvv(input)
    ensures ValidCvv(FormatCvv(input)) <==> 3 <= |KeepDigits(input)| <= 4
    ensures IsSubsequence(FormatCvv(input), input)
  {
    KeepDigitsOfDigits(KeepDigits(input));
    KeepDigitsSelects(input);
  }
}
