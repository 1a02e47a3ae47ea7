/**
 * The card-number field of the card payment form
 * (src/components/pos/payments/CardPayment.tsx): whatever is typed is reduced
 * to its digits, cut to 16 of them and shown in groups of four joined by `-`.
 */
module CardPayment {
  import opened StringUtil
  import opened ClientTypes
  import opened Seqs

  /** `value.replace(/\D/g, '')`: the ASCII digits of `s`, in order. */
  function DigitsOf(s: string): (r: string)
    ensures |r| <= |s|
    ensures forall i :: 0 <= i < |r| ==> IsDigit(r[i])
  {
    if s == [] then [] else (if IsDigit(s[0]) then [s[0]] else []) + DigitsOf(s[1..])
  }

  /** Each digit comes out as often as it occurs in the input. */
  lemma {:induction false} DigitsOfKeepsEveryDigit(s: string)
    ensures forall c :: IsDigit(c) ==> multiset(DigitsOf(s))[c] == multiset(s)[c]
    decreases |s|
  {
    if s != [] {
      DigitsOfKeepsEveryDigit(s[1..]);
      assert s == [s[0]] + s[1..];
    }
  }

  /** Removing the non-digits is filtering by `IsDigit`, so the digits keep their order. */
  lemma {:induction false} DigitsOfIsFilter(s: string)
    ensures DigitsOf(s) == Filter(s, IsDigit)
    ensures SubsequenceOf(DigitsOf(s), s)
    decreases |s|
  {
    if s != [] {
      DigitsOfIsFilter(s[1..]);
    }
    FilterIsSubsequence(s, IsDigit);
  }

  predicate AllDigits(s: string) {
    forall i :: 0 <= i < |s| ==> IsDigit(s[i])
  }

  /** `digits.slice(0, 16)`. */
  function FirstSixteen(d: string): (r: string)
    ensures |r| == if |d| <= 16 then |d| else 16
    ensures r == d[..|r|]
  {
    if |d| <= 16 then d else d[..16]
  }

  /**
   * `truncated.replace(/(\d{4})(?=\d)/g, '$1-')` on a string of digits: a dash
   * after every complete group of four that another digit follows.
   */
  function GroupDigits(d: string): string
    decreases |d|
  {
    if |d| > 4 then d[..4] + "-" + GroupDigits(d[4..]) else d
  }

  /** `formatCardNumber`. */
  function FormatCardNumber(value: string): (r: string)
    ensures forall i :: 0 <= i < |r| ==> IsDigit(r[i]) || r[i] == '-'
    ensures |DigitsOf(r)| <= 16 && |r| <= 19
    ensures DigitsOf(r) == FirstSixteen(DigitsOf(value))
    ensures forall i :: 0 <= i < |r| ==> (r[i] == '-' <==> i % 5 == 4)
    ensures r == [] || (r[0] != '-' && r[|r| - 1] != '-')
  {
    var truncated := FirstSixteen(DigitsOf(value));
    GroupedShape(truncated);
    GroupDigits(truncated)
  }

  lemma {:induction false} DigitsOfAppend(a: string, b: string)
    ensures DigitsOf(a + b) == DigitsOf(a) + DigitsOf(b)
    decreases |a|
  {
    if a != [] {
      assert (a + b)[1..] == a[1..] + b;
      DigitsOfAppend(a[1..], b);
    } else {
      assert a + b == b;
    }
  }

  lemma {:induction false} DigitsOfDigits(d: string)
    requires AllDigits(d)
    ensures DigitsOf(d) == d
    decreases |d|
  {
    if d != [] {
      DigitsOfDigits(d[1..]);
      assert [d[0]] + d[1..] == d;
    }
  }

  /**
   * What grouping does to a string of digits: only digits and dashes come out,
   * the dashes stand exactly at the positions 4, 9, 14, ..., never first or
   * last, and deleting them gives the digits back.
   */
  lemma GroupedShape(d: string)
    requires AllDigits(d)
    ensures var r := GroupDigits(d);
      && (forall i :: 0 <= i < |r| ==> IsDigit(r[i]) || r[i] == '-')
      && DigitsOf(r) == d
      && |r| == (if |d| == 0 then 0 else |d| + (|d| - 1) / 4)
      && (forall i :: 0 <= i < |r| ==> (r[i] == '-' <==> i % 5 == 4))
      && (r == [] || (r[0] != '-' && r[|r| - 1] != '-'))
  {
    GroupedDashes(d);
    GroupedDigits(d);
  }

  lemma {:induction false} GroupedDashes(d: string)
    requires AllDigits(d)
    ensures var r := GroupDigits(d);
      && |r| == (if |d| == 0 then 0 else |d| + (|d| - 1) / 4)
      && (forall i :: 0 <= i < |r| ==> (r[i] == '-' <==> i % 5 == 4))
      && (forall i :: 0 <= i < |r| && r[i] != '-' ==> IsDigit(r[i]))
    decreases |d|
  {
    var r := GroupDigits(d);
    if |d| > 4 {
      var rest := GroupDigits(d[4..]);
      GroupedDashes(d[4..]);
      assert r == d[..4] + "-" + rest;
      forall i | 0 <= i < |r|
        ensures (r[i] == '-' <==> i % 5 == 4) && (r[i] != '-' ==> IsDigit(r[i]))
      {
        if i >= 5 {
          assert r[i] == rest[i - 5];
          assert (i - 5) % 5 == i % 5;
        }
      }
    }
  }

  lemma {:induction false} GroupedDigits(d: string)
    requires AllDigits(d)
    ensures DigitsOf(GroupDigits(d)) == d
    decreases |d|
  {
    if |d| > 4 {
      var rest := GroupDigits(d[4..]);
      GroupedDigits(d[4..]);
      assert GroupDigits(d) == d[..4] + ("-" + rest);
      DigitsOfAppend(d[..4], "-" + rest);
      DigitsOfAppend("-", rest);
      DigitsOfDigits(d[..4]);
      assert DigitsOf("-") == [] by {
        assert "-"[1..] == [];
      }
      assert d[..4] + d[4..] == d;
    } else {
      DigitsOfDigits(d);
    }
  }

  /** Formatting an already formatted number changes nothing. */
  lemma FormatIdempotent(value: string)
    ensures FormatCardNumber(FormatCardNumber(value)) == FormatCardNumber(value)
  {
    var r := FormatCardNumber(value);
    var truncated := FirstSixteen(DigitsOf(value));
    assert FirstSixteen(DigitsOf(r)) == truncated;
  }

  /** `handleCardNumberChange`: the typed text replaces only the card number, formatted. */
  function OnCardNumberChange(details: CardDetails, typed: string): (r: CardDetails)
    ensures r.expiryDate == details.expiryDate && r.cvv == details.cvv
    ensures r.cardNumber == FormatCardNumber(typed)
  {
    details.(cardNumber := FormatCardNumber(typed))
  }
}
