/**
 * The price range dropdown (src/components/PriceRangeDropdown.tsx): a label
 * computed from the committed prices, and a draft (min, max) pair edited in
 * two number inputs and handed to `onChange` by Apply. 999999999 stands for
 * "no maximum".
 */
module PriceRange {
  import opened Wrappers
  import opened Listing

  // -----------------------------------------------------------------------
  // Rendering integers in a template string

  function DigitChar(d: nat): (c: char)
    requires d < 10
    ensures '0' <= c <= '9' && c as int - '0' as int == d
  {
    ('0' as int + d) as char
  }

  /** Every character is a decimal digit. */
  predicate AllDigits(s: string)
  {
    forall i :: 0 <= i < |s| ==> '0' <= s[i] <= '9'
  }

  /** The decimal digits of `n`, most significant first, with no leading
      zero. */
  function Digits(n: nat): (r: string)
    ensures |r| >= 1 && AllDigits(r)
    ensures r[0] == '0' <==> n == 0
  {
    if n < 10 then [DigitChar(n)] else Digits(n / 10) + [DigitChar(n % 10)]
  }

  /** The value of a string of decimal digits. */
  function DigitsValue(s: string): nat
    requires AllDigits(s)
  {
    if s == [] then 0
    else DigitsValue(s[..|s| - 1]) * 10 + (s[|s| - 1] as int - '0' as int)
  }

  /** Reading the digits back gives the number: the label shows the price. */
  lemma {:induction false} DigitsRoundTrip(n: nat)
    ensures DigitsValue(Digits(n)) == n
  {
    if n >= 10 {
      DigitsRoundTrip(n / 10);
      var d := Digits(n / 10);
      assert (d + [DigitChar(n % 10)])[..|d|] == d;
    }
  }

  /** An integer numeral: digits with no leading zero, after an optional
      minus sign that is never followed by zero alone. */
  predicate IsNumeral(s: string)
  {
    if |s| >= 2 && s[0] == '-' then AllDigits(s[1..]) && s[1] != '0'
    else |s| >= 1 && AllDigits(s) && (|s| == 1 || s[0] != '0')
  }

  /** The integer a numeral denotes. */
  function NumeralValue(s: string): int
    requires IsNumeral(s)
  {
    if |s| >= 2 && s[0] == '-' then -(DigitsValue(s[1..]) as int) else DigitsValue(s)
  }

  /** How a template string shows an integer price: a numeral that reads
      back as the price. */
  function NumberText(n: int): (r: string)
    ensures IsNumeral(r) && NumeralValue(r) == n
    ensures r[0] == '-' <==> n < 0
  {
    if n < 0 then
      var r := "-" + Digits(-n);
      DigitsRoundTrip(-n);
      assert r[1..] == Digits(-n);
      r
    else
      DigitsRoundTrip(n);
      Digits(n)
  }

  // -----------------------------------------------------------------------
  // The button label

  /** The lower half of the label: "No min" for 0, otherwise '$' and the
      price. */
  function MinLabel(minPrice: int): (r: string)
    ensures r == "No min" <==> minPrice == 0
    ensures r != [] && (r[0] == '$' <==> minPrice != 0)
    ensures minPrice != 0 ==> IsNumeral(r[1..]) && NumeralValue(r[1..]) == minPrice
    ensures minPrice > 0 ==> r[1..] == Digits(minPrice)
    ensures minPrice < 0 ==> r[1] == '-' && r[2..] == Digits(-minPrice)
  {
    if minPrice == 0 then "No min"
    else
      var r := "$" + NumberText(minPrice);
      assert r[0] != "No min"[0];
      assert r[1..] == NumberText(minPrice);
      r
  }

  /** The upper half of the label: "No max" at or above the sentinel,
      otherwise '$' and the price. */
  function MaxLabel(maxPrice: int): (r: string)
    ensures r == "No max" <==> maxPrice >= NoMaxPrice
    ensures r != [] && (r[0] == '$' <==> maxPrice < NoMaxPrice)
    ensures maxPrice < NoMaxPrice ==> IsNumeral(r[1..]) && NumeralValue(r[1..]) == maxPrice
    ensures 0 <= maxPrice < NoMaxPrice ==> r[1..] == Digits(maxPrice)
    ensures maxPrice < 0 ==> r[1] == '-' && r[2..] == Digits(-maxPrice)
  {
    if maxPrice >= NoMaxPrice then "No max"
    else
      var r := "$" + NumberText(maxPrice);
      assert r[0] != "No max"[0];
      assert r[1..] == NumberText(maxPrice);
      r
  }

  lemma RangeLabelIsNotAnyPrice(lo: string, hi: string)
    requires lo != [] && hi != []
    ensures lo + " - " + hi != "Any price"
  {
    var r := lo + " - " + hi;
    assert r[|lo| + 1] == '-';
    assert forall i :: 0 <= i < |"Any price"| ==> "Any price"[i] != '-';
  }

  /** The button's label: "Any price" exactly when no bound is set,
      otherwise both halves joined by " - ". */
  function Label(minPrice: int, maxPrice: int): (r: string)
    ensures r == "Any price" <==> minPrice <= 0 && maxPrice >= NoMaxPrice
    ensures !(minPrice <= 0 && maxPrice >= NoMaxPrice) ==>
              r == MinLabel(minPrice) + " - " + MaxLabel(maxPrice)
  {
    if minPrice <= 0 && maxPrice >= NoMaxPrice then "Any price"
    else
      RangeLabelIsNotAnyPrice(MinLabel(minPrice), MaxLabel(maxPrice));
      MinLabel(minPrice) + " - " + MaxLabel(maxPrice)
  }

  /** A negative minimum with no maximum is labelled "Any price", while a
      negative minimum with a maximum is shown as an amount. */
  lemma NegativeMinimumLabels(minPrice: int, maxPrice: int)
    requires minPrice < 0
    ensures maxPrice >= NoMaxPrice ==> Label(minPrice, maxPrice) == "Any price"
    ensures maxPrice < NoMaxPrice ==> Label(minPrice, maxPrice)[0] == '$'
  {
  }

  // -----------------------------------------------------------------------
  // The two number inputs. An input's value is `None` when it is empty; a
  // number input reports an empty value for text that is not a number.

  /** The min input's change handler: `Number(value) || 0`. */
  function ParseMin(input: Option<int>): (r: int)
    ensures input.None? ==> r == 0
    ensures input.Some? ==> r == input.value
  {
    match input
    case None => 0
    case Some(n) => if n != 0 then n else 0
  }

  /** The max input's change handler: empty means no maximum. */
  function ParseMax(input: Option<int>): (r: int)
    ensures input.None? ==> r == NoMaxPrice
    ensures input.Some? ==> r == input.value
  {
    match input
    case None => NoMaxPrice
    case Some(n) => n
  }

  /** What the min input shows: empty for 0. Editing nothing keeps the draft. */
  function MinFieldValue(tempMin: int): (r: Option<int>)
    ensures r.None? <==> tempMin == 0
    ensures ParseMin(r) == tempMin
  {
    if tempMin != 0 then Some(tempMin) else None
  }

  /** What the max input shows: empty for no maximum. A draft at or above
      the sentinel reads back as the sentinel itself. */
  function MaxFieldValue(tempMax: int): (r: Option<int>)
    ensures r.None? <==> tempMax >= NoMaxPrice
    ensures ParseMax(r) == if tempMax >= NoMaxPrice then NoMaxPrice else tempMax
  {
    if tempMax >= NoMaxPrice then None else Some(tempMax)
  }

  class PriceRangeDropdown {
    // Props
    var minPrice: int
    var maxPrice: int
    // Local state
    var open: bool
    var tempMin: int
    var tempMax: int

    /** First render: drafts from the props, `|| 0` and `|| 999999999`. */
    constructor (minPrice: int, maxPrice: int)
      ensures this.minPrice == minPrice && this.maxPrice == maxPrice && !open
      ensures tempMin == minPrice
      ensures tempMax == if maxPrice == 0 then NoMaxPrice else maxPrice
    {
      this.minPrice := minPrice;
      this.maxPrice := maxPrice;
      open := false;
      tempMin := if minPrice != 0 then minPrice else 0;
      tempMax := if maxPrice != 0 then maxPrice else NoMaxPrice;
    }

    /** New props from the parent: the drafts are not refreshed. */
    method ReceiveProps(minPrice: int, maxPrice: int)
      modifies this`minPrice, this`maxPrice
      ensures this.minPrice == minPrice && this.maxPrice == maxPrice
    {
      this.minPrice := minPrice;
      this.maxPrice := maxPrice;
    }

    /** The label button opens or closes the panel. */
    method Toggle()
      modifies this`open
      ensures open == !old(open)
    {
      open := !open;
    }

    method EditMin(input: Option<int>)
      requires open
      modifies this`tempMin
      ensures tempMin == ParseMin(input)
    {
      tempMin := ParseMin(input);
    }

    method EditMax(input: Option<int>)
      requires open
      modifies this`tempMax
      ensures tempMax == ParseMax(input)
    {
      tempMax := ParseMax(input);
    }

    /** Reset clears the drafts only; nothing is reported to the parent. */
    method Reset()
      requires open
      modifies this`tempMin, this`tempMax
      ensures tempMin == 0 && tempMax == NoMaxPrice
      ensures MinFieldValue(tempMin) == None && MaxFieldValue(tempMax) == None
    {
      tempMin := 0;
      tempMax := NoMaxPrice;
    }

    /** Apply reports the drafts, as they are and in no particular order,
        to `onChange` and closes the panel. */
    method Apply() returns (min: int, max: int)
      requires open
      modifies this`open
      ensures min == tempMin && max == tempMax && !open
    {
      min, max := tempMin, tempMax;
      open := false;
    }
  }
}
