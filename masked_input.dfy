/** The two masked inputs of the dashboard. Both drop every non-digit,
    insert dashes at fixed positions and truncate: the Pakistani mobile
    number `03XX-XXXXXXX` (12 characters) and the national identity card
    number (CNIC) `#####-#######-#` (15 characters). The same two
    formatters are written out in the order wizard, the customer forms and
    both employee forms; they are defined once here. */
module MaskedInput {
  import opened Base
  import opened Text

  /** formatPhoneNumber: digits only; with more than four digits a dash
      after the fourth; then at most 12 characters. */
  function FormatPhone(raw: string): (r: string)
    ensures |r| <= 12
    ensures var d := Digits(raw);
            if |d| <= 4 then r == d else r == d[..4] + "-" + d[4..Min(|d|, 11)]
    ensures |r| == 12 <==> |Digits(raw)| >= 11
    ensures forall i :: 0 <= i < |r| ==> (r[i] == '-' <==> i == 4)
    ensures forall i :: 0 <= i < |r| && i != 4 ==> IsDigit(r[i])
  {
    var digits := Digits(raw);
    var dashed := if |digits| > 4 then digits[..4] + "-" + digits[4..] else digits;
    if |dashed| > 11 then dashed[..12] else dashed
  }

  /** The full `03XX-XXXXXXX` shape: eleven digits with a dash after the
      fourth. */
  predicate IsPhoneShape(s: string)
  {
    |s| == 12 && s[4] == '-' && forall i :: 0 <= i < 12 && i != 4 ==> IsDigit(s[i])
  }

  /** A formatted phone number of the length the validators demand is in
      the full mask shape, and that happens exactly when the input held at
      least eleven digits. */
  lemma FullPhoneHasShape(raw: string)
    ensures |FormatPhone(raw)| == 12 <==> IsPhoneShape(FormatPhone(raw))
    ensures IsPhoneShape(FormatPhone(raw)) <==> |Digits(raw)| >= 11
  {
  }

  /** Dropping a dash in front of a digit run keeps the run. */
  lemma DigitsDropDash(x: string, y: string)
    requires AllDigits(y)
    ensures Digits(x + "-" + y) == Digits(x) + y
  {
    var dash: string := "-";
    assert !IsDigit(dash[0]) && dash[1..] == [];
    assert Digits(dash) == [];
    DigitsAppend(x, dash);
    assert Digits(x + dash) == Digits(x);
    DigitsAppend(x + dash, y);
    DigitsOfDigits(y);
  }

  /** Dropping the dash between two digit runs gives back the runs. */
  lemma DigitsAcrossDash(a: string, b: string)
    requires AllDigits(a) && AllDigits(b)
    ensures Digits(a + "-" + b) == a + b
  {
    DigitsDropDash(a, b);
    DigitsOfDigits(a);
  }

  /** Re-formatting a formatted number changes nothing: the input event
      that fires on the stored value leaves it as it is. */
  lemma {:induction false} PhoneIdempotent(raw: string)
    ensures FormatPhone(FormatPhone(raw)) == FormatPhone(raw)
  {
    var d := Digits(raw);
    var k := Min(|d|, 11);
    if |d| <= 4 {
      DigitsOfDigits(d);
    } else {
      DigitsAcrossDash(d[..4], d[4..k]);
      var d2 := d[..k];
      assert d[..4] + d[4..k] == d2;
      assert d2[..4] == d[..4];
      assert d2[4..Min(|d2|, 11)] == d[4..k];
    }
  }

  /** formatCNIC: digits only; with more than five digits a dash after the
      fifth; if that is longer than 13 characters, the first 13 followed
      by a dash and the next digit. */
  function FormatCnic(raw: string): (r: string)
    ensures |r| <= 15
    ensures var d := Digits(raw);
            if |d| <= 5 then r == d
            else if |d| <= 12 then r == d[..5] + "-" + d[5..]
            else r == d[..5] + "-" + d[5..12] + "-" + d[12..13]
    ensures |r| == 15 <==> |Digits(raw)| >= 13
    ensures forall i :: 0 <= i < |r| ==> (r[i] == '-' <==> i == 5 || i == 13)
    ensures forall i :: 0 <= i < |r| && i != 5 && i != 13 ==> IsDigit(r[i])
  {
    var digits := Digits(raw);
    var dashed := if |digits| > 5 then digits[..5] + "-" + digits[5..] else digits;
    if |dashed| > 13 then dashed[..13] + "-" + dashed[13..14] else dashed
  }

  /** The full `#####-#######-#` shape. */
  predicate IsCnicShape(s: string)
  {
    && |s| == 15 && s[5] == '-' && s[13] == '-'
    && forall i :: 0 <= i < 15 && i != 5 && i != 13 ==> IsDigit(s[i])
  }

  lemma FullCnicHasShape(raw: string)
    ensures |FormatCnic(raw)| == 15 <==> IsCnicShape(FormatCnic(raw))
    ensures IsCnicShape(FormatCnic(raw)) <==> |Digits(raw)| >= 13
  {
  }

  /** Re-formatting a formatted CNIC changes nothing. */
  lemma {:induction false} CnicIdempotent(raw: string)
    ensures FormatCnic(FormatCnic(raw)) == FormatCnic(raw)
  {
    var d := Digits(raw);
    if |d| <= 5 {
      DigitsOfDigits(d);
    } else if |d| <= 12 {
      DigitsAcrossDash(d[..5], d[5..]);
      assert d[..5] + d[5..] == d;
    } else {
      CnicIdempotentLong(raw, d);
    }
  }

  lemma CnicIdempotentLong(raw: string, d: string)
    requires d == Digits(raw) && |d| >= 13
    ensures FormatCnic(FormatCnic(raw)) == FormatCnic(raw)
  {
    var x, y, z := d[..5], d[5..12], d[12..13];
    var r := x + "-" + y + "-" + z;
    assert FormatCnic(raw) == r;
    assert AllDigits(y) && AllDigits(z);
    DigitsAcrossDash(x, y);
    DigitsDropDash(x + "-" + y, z);
    var d2 := x + y + z;
    assert Digits(r) == d2;
    assert |d2| == 13;
    assert d2[..5] == x && d2[5..12] == y && d2[12..13] == z;
  }
}
