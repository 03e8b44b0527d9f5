/**
 * The Rupiah amount field of the transaction dialogs: typed text is reduced
 * to its digits and regrouped with a dot every three digits from the right
 * ("1500000" shows as "1.500.000"); before submitting, the dots are removed
 * again. Also the decimal text of a stored amount, which seeds the field when
 * a transaction is edited.
 */
module RupiahInput {

  predicate IsDigit(c: char)
  {
    '0' <= c <= '9'
  }

  predicate AllDigits(s: string)
  {
    forall i :: 0 <= i < |s| ==> IsDigit(s[i])
  }

  /** The field's alphabet after formatting. */
  predicate DigitsAndDots(s: string)
  {
    forall i :: 0 <= i < |s| ==> IsDigit(s[i]) || s[i] == '.'
  }

  /** The digit characters of `s`, in order (`replace(/\D/g, '')`). */
  function DigitsOf(s: string): (d: string)
    ensures AllDigits(d)
    ensures |d| <= |s|
  {
    if s == [] then []
    else (if IsDigit(s[0]) then [s[0]] else []) + DigitsOf(s[1..])
  }

  /**
   * Inserts a dot at every position inside a digit string that is followed
   * by a positive multiple of three digits: the regular expression
   * `\B(?=(\d{3})+(?!\d))` replaced by `.`, which on a digit-only string
   * matches exactly those positions.
   */
  function InsertSeparators(d: string): (r: string)
    ensures |r| >= |d|
    ensures d == [] <==> r == []
  {
    if d == [] then []
    else [d[0]] + (if |d| - 1 > 0 && (|d| - 1) % 3 == 0 then "." else "") + InsertSeparators(d[1..])
  }

  /** `formatRupiahInput`: the field is empty exactly when the typed text holds no digit, and never shorter than its digits. */
  function Format(s: string): (r: string)
    ensures r == "" <==> DigitsOf(s) == ""
    ensures |r| >= |DigitsOf(s)|
  {
    InsertSeparators(DigitsOf(s))
  }

  /** `parseRupiahInput`: every dot removed, nothing else touched. */
  function Parse(s: string): (r: string)
    ensures forall i :: 0 <= i < |r| ==> r[i] != '.'
    ensures |r| <= |s|
  {
    if s == [] then []
    else (if s[0] == '.' then [] else [s[0]]) + Parse(s[1..])
  }

  // ---------------------------------------------------------------------------
  // Distribution over concatenation
  // ---------------------------------------------------------------------------

  lemma {:induction false} DigitsOfAppend(a: string, b: string)
    ensures DigitsOf(a + b) == DigitsOf(a) + DigitsOf(b)
  {
    if a == [] {
      assert a + b == b;
    } else {
      assert (a + b)[0] == a[0];
      assert (a + b)[1..] == a[1..] + b;
      DigitsOfAppend(a[1..], b);
      var h := if IsDigit(a[0]) then [a[0]] else [];
      assert DigitsOf(a + b) == h + DigitsOf(a[1..] + b);
      assert DigitsOf(a) == h + DigitsOf(a[1..]);
    }
  }

  lemma {:induction false} ParseAppend(a: string, b: string)
    ensures Parse(a + b) == Parse(a) + Parse(b)
  {
    if a == [] {
      assert a + b == b;
    } else {
      assert (a + b)[0] == a[0];
      assert (a + b)[1..] == a[1..] + b;
      ParseAppend(a[1..], b);
      var h := if a[0] == '.' then [] else [a[0]];
      assert Parse(a + b) == h + Parse(a[1..] + b);
      assert Parse(a) == h + Parse(a[1..]);
    }
  }

  /** Text that is all digits passes the digit filter unchanged. */
  lemma {:induction false} DigitsOfDigits(d: string)
    requires AllDigits(d)
    ensures DigitsOf(d) == d
  {
    if d != [] {
      DigitsOfDigits(d[1..]);
    }
  }

  // ---------------------------------------------------------------------------
  // Alphabet, round trip and idempotence
  // ---------------------------------------------------------------------------

  lemma {:induction false} SeparatorsAlphabet(d: string)
    requires AllDigits(d)
    ensures DigitsAndDots(InsertSeparators(d))
  {
    if d != [] {
      SeparatorsAlphabet(d[1..]);
    }
  }

  /** The formatted field holds nothing but digits and dots. */
  lemma FormatAlphabet(s: string)
    ensures DigitsAndDots(Format(s))
  {
    SeparatorsAlphabet(DigitsOf(s));
  }

  /** Removing the dots again gives back the digits the separators were put between. */
  lemma {:induction false} ParseSeparators(d: string)
    requires AllDigits(d)
    ensures Parse(InsertSeparators(d)) == d
  {
    if d != [] {
      var sep := if |d| - 1 > 0 && (|d| - 1) % 3 == 0 then "." else "";
      assert InsertSeparators(d) == [d[0]] + sep + InsertSeparators(d[1..]);
      ParseAppend([d[0]] + sep, InsertSeparators(d[1..]));
      ParseAppend([d[0]], sep);
      ParseSeparators(d[1..]);
      assert Parse([d[0]]) == [d[0]];
      assert d == [d[0]] + d[1..];
    }
  }

  lemma {:induction false} DigitsOfSeparators(d: string)
    requires AllDigits(d)
    ensures DigitsOf(InsertSeparators(d)) == d
  {
    if d != [] {
      var sep := if |d| - 1 > 0 && (|d| - 1) % 3 == 0 then "." else "";
      assert InsertSeparators(d) == [d[0]] + sep + InsertSeparators(d[1..]);
      DigitsOfAppend([d[0]] + sep, InsertSeparators(d[1..]));
      DigitsOfAppend([d[0]], sep);
      DigitsOfSeparators(d[1..]);
      assert DigitsOf([d[0]]) == [d[0]];
      assert d == [d[0]] + d[1..];
    }
  }

  /** The submitted amount is exactly the digits the user typed, in order. */
  lemma ParseFormat(s: string)
    ensures Parse(Format(s)) == DigitsOf(s)
  {
    ParseSeparators(DigitsOf(s));
  }

  /** Re-formatting a formatted field changes nothing. */
  lemma FormatIdempotent(s: string)
    ensures Format(Format(s)) == Format(s)
  {
    DigitsOfSeparators(DigitsOf(s));
  }

  // ---------------------------------------------------------------------------
  // Grouping
  // ---------------------------------------------------------------------------

  /** Reference grouping: peel three digits off the right until at most three remain. */
  function GroupFromRight(d: string): (r: string)
    ensures |r| >= |d|
    decreases |d|
  {
    if |d| <= 3 then d
    else GroupFromRight(d[..|d| - 3]) + "." + d[|d| - 3..]
  }

  /**
   * A first group of one to three digits followed by groups of exactly three,
   * each after a single dot.
   */
  predicate WellGrouped(r: string)
    decreases |r|
  {
    if |r| <= 3 then 1 <= |r| && AllDigits(r)
    else |r| >= 5 && r[|r| - 4] == '.' && AllDigits(r[|r| - 3..]) && WellGrouped(r[..|r| - 4])
  }

  lemma {:induction false} ShortHasNoSeparator(d: string)
    requires |d| <= 3
    ensures InsertSeparators(d) == d
  {
    if d != [] {
      ShortHasNoSeparator(d[1..]);
      assert d == [d[0]] + d[1..];
    }
  }

  /** One step of the separator insertion: the first digit, then a dot when a multiple of three digits follows. */
  lemma SeparatorsStep(d: string, sep: string)
    requires d != []
    requires sep == if |d| - 1 > 0 && (|d| - 1) % 3 == 0 then "." else ""
    ensures InsertSeparators(d) == [d[0]] + sep + InsertSeparators(d[1..])
  {
  }

  lemma ShiftByThrees(a: int, b: int)
    requires b % 3 == 0
    ensures (a + b) % 3 == a % 3
  {
    var k := b / 3;
    assert b == 3 * k;
    assert a + b == a + 3 * k;
  }

  lemma Regroup(a: string, b: string, c: string, d: string, e: string)
    ensures a + b + (c + d + e) == (a + b + c) + d + e
  {
  }

  /** Splitting the digits before a multiple of three digits splits the output at a dot. */
  lemma {:induction false} SeparatorsSplit(x: string, y: string)
    requires |x| > 0 && |y| > 0 && |y| % 3 == 0
    ensures InsertSeparators(x + y) == InsertSeparators(x) + "." + InsertSeparators(y)
  {
    var xy := x + y;
    assert xy[0] == x[0];
    assert xy[1..] == x[1..] + y;
    if |x| == 1 {
      assert x[1..] + y == y;
      SeparatorsStep(xy, ".");
      SeparatorsStep(x, "");
    } else {
      var sep := if (|x| - 1) % 3 == 0 then "." else "";
      ShiftByThrees(|x| - 1, |y|);
      SeparatorsStep(xy, sep);
      SeparatorsStep(x, sep);
      SeparatorsSplit(x[1..], y);
      Regroup([x[0]], sep, InsertSeparators(x[1..]), ".", InsertSeparators(y));
    }
  }

  /** The separators group the digits exactly as the right-to-left reference does. */
  lemma {:induction false} SeparatorsAreGroups(d: string)
    ensures InsertSeparators(d) == GroupFromRight(d)
    decreases |d|
  {
    if |d| <= 3 {
      ShortHasNoSeparator(d);
    } else {
      var head, tail := d[..|d| - 3], d[|d| - 3..];
      assert d == head + tail;
      SeparatorsSplit(head, tail);
      SeparatorsAreGroups(head);
      ShortHasNoSeparator(tail);
    }
  }

  lemma {:induction false} GroupsAreWellGrouped(d: string)
    requires AllDigits(d) && d != []
    ensures WellGrouped(GroupFromRight(d))
    decreases |d|
  {
    if |d| > 3 {
      var head, tail := d[..|d| - 3], d[|d| - 3..];
      GroupsAreWellGrouped(head);
      var r := GroupFromRight(d);
      var g := GroupFromRight(head);
      assert r == g + "." + tail;
      assert r[..|r| - 4] == g;
      assert r[|r| - 3..] == tail;
    }
  }

  lemma {:induction false} WellGroupedEnds(r: string)
    requires WellGrouped(r)
    ensures IsDigit(r[0]) && IsDigit(r[|r| - 1])
    decreases |r|
  {
    if |r| > 3 {
      WellGroupedEnds(r[..|r| - 4]);
    }
  }

  /**
   * The formatted field is empty or well grouped: no leading or trailing dot,
   * a first group of one to three digits, and every later group of three.
   */
  lemma FormatIsGrouped(s: string)
    ensures Format(s) == "" || WellGrouped(Format(s))
    ensures Format(s) != "" ==> IsDigit(Format(s)[0]) && IsDigit(Format(s)[|Format(s)| - 1])
  {
    var d := DigitsOf(s);
    SeparatorsAreGroups(d);
    if d != [] {
      GroupsAreWellGrouped(d);
      WellGroupedEnds(Format(s));
    }
  }

  /** Conversely, any well-grouped text is already in formatted form. */
  lemma {:induction false} WellGroupedIsFormatted(r: string)
    requires WellGrouped(r)
    ensures Format(r) == r
    decreases |r|
  {
    if |r| <= 3 {
      DigitsOfDigits(r);
      ShortHasNoSeparator(r);
    } else {
      var prefix, group := r[..|r| - 4], r[|r| - 3..];
      assert r == prefix + "." + group;
      WellGroupedIsFormatted(prefix);
      DigitsOfAppend(prefix + ".", group);
      DigitsOfAppend(prefix, ".");
      DigitsOfDigits(group);
      assert DigitsOf(".") == "";
      assert DigitsOf(r) == DigitsOf(prefix) + group;
      assert DigitsOf(prefix) != [];
      SeparatorsSplit(DigitsOf(prefix), group);
      ShortHasNoSeparator(group);
    }
  }

  // ---------------------------------------------------------------------------
  // Decimal text of an amount
  // ---------------------------------------------------------------------------

  function DigitChar(n: nat): (c: char)
    requires n < 10
    ensures IsDigit(c)
  {
    ('0' as int + n) as char
  }

  function DigitValue(c: char): (n: nat)
    requires IsDigit(c)
    ensures n < 10
  {
    (c as int - '0' as int)
  }

  /** `n.toString()` for a natural number: decimal digits, no leading zero. */
  function NatToString(n: nat): (s: string)
    ensures AllDigits(s) && s != []
    ensures |s| > 1 ==> s[0] != '0'
  {
    if n < 10 then [DigitChar(n)] else NatToString(n / 10) + [DigitChar(n % 10)]
  }

  /** `toString()` of an integer amount: a minus sign before negative ones. */
  function IntToString(i: int): (s: string)
    ensures i >= 0 ==> s == NatToString(i)
    ensures i < 0 ==> s == "-" + NatToString(-i)
  {
    if i < 0 then "-" + NatToString(-i) else NatToString(i)
  }

  /** The number a digit string denotes (`parseFloat` on digit-only text). */
  function DecimalValue(d: string): nat
    requires AllDigits(d)
  {
    if d == [] then 0 else DecimalValue(d[..|d| - 1]) * 10 + DigitValue(d[|d| - 1])
  }

  lemma {:induction false} DecimalOfNatToString(n: nat)
    ensures DecimalValue(NatToString(n)) == n
  {
    if n >= 10 {
      var s := NatToString(n);
      assert s[..|s| - 1] == NatToString(n / 10);
      DecimalOfNatToString(n / 10);
    }
  }

  /**
   * Seeding the field with a stored amount and submitting it unchanged sends
   * back its magnitude: the sign of a negative amount is dropped by the
   * digit filter.
   */
  lemma AmountRoundTrip(amount: int)
    ensures AllDigits(Parse(Format(IntToString(amount))))
    ensures DecimalValue(Parse(Format(IntToString(amount)))) == if amount < 0 then -amount else amount
  {
    var digits := NatToString(if amount < 0 then -amount else amount);
    ParseFormat(IntToString(amount));
    DigitsOfDigits(digits);
    if amount < 0 {
      DigitsOfAppend("-", digits);
      assert DigitsOf("-") == "";
    }
    assert DigitsOf(IntToString(amount)) == digits;
    assert Parse(Format(IntToString(amount))) == digits;
    DecimalOfNatToString(if amount < 0 then -amount else amount);
  }
}
