/** Entity ids: the number an id ends in, and the fresh ids that the merger generates. */
module Ids {
  import opened Wrappers
  import opened Digits

  /** The longest run of digits that s ends with. */
  function TrailingDigits(s: string): (r: string)
    ensures AllDigits(r)
  {
    if s == [] || !IsDigit(s[|s| - 1]) then [] else TrailingDigits(s[..|s| - 1]) + [s[|s| - 1]]
  }

  /** The part of s that the pattern's end may be matched against: a final newline does not count. */
  function WithoutNewline(s: string): string {
    if s != [] && s[|s| - 1] == '\n' then s[..|s| - 1] else s
  }

  /** extract_postfix_number: the integer an id ends in, or zero. */
  function PostfixNumber(id: string): nat {
    ToNat(TrailingDigits(WithoutNewline(id)))
  }

  /** "%d". */
  function Decimal(n: nat): (r: string)
    ensures r != [] && AllDigits(r)
  {
    var last := ['0' + (n % 10) as char];
    if n < 10 then last else Decimal(n / 10) + last
  }

  function GeneratedId(base: string, n: nat): string {
    (if base == "" then "merged_" else base + "_merged_") + Decimal(n)
  }

  lemma {:induction false} DecimalValue(n: nat)
    ensures ToNat(Decimal(n)) == n
    decreases n
  {
    var r := Decimal(n);
    if n >= 10 {
      DecimalValue(n / 10);
      assert r[..|r| - 1] == Decimal(n / 10);
    } else {
      assert r[..|r| - 1] == [];
    }
  }

  lemma {:induction false} TrailingAfter(p: string, digits: string)
    requires AllDigits(digits) && p != [] && !IsDigit(p[|p| - 1])
    ensures TrailingDigits(p + digits) == digits
    decreases |digits|
  {
    if digits == [] {
      assert p + digits == p;
    } else {
      var n := |digits| - 1;
      TrailingAfter(p, digits[..n]);
      assert (p + digits)[..|p + digits| - 1] == p + digits[..n];
    }
  }

  lemma {:induction false} AllTrailing(digits: string)
    requires AllDigits(digits)
    ensures TrailingDigits(digits) == digits
    decreases |digits|
  {
    if digits != [] {
      AllTrailing(digits[..|digits| - 1]);
    }
  }

  lemma TrailingOf(p: string, digits: string)
    requires AllDigits(digits) && (p != "" ==> !IsDigit(p[|p| - 1]))
    ensures TrailingDigits(p + digits) == digits
  {
    if p == "" {
      assert p + digits == digits;
      AllTrailing(digits);
    } else {
      TrailingAfter(p, digits);
    }
  }

  /** The number an id ends in is that of all the digits at its end, with or without a newline; without digits it is zero. */
  lemma PostfixIs(p: string, digits: string)
    requires AllDigits(digits) && (p != "" ==> !IsDigit(p[|p| - 1]))
    ensures PostfixNumber(p + digits + "\n") == ToNat(digits)
    ensures digits != "" || p == "" || p[|p| - 1] != '\n' ==> PostfixNumber(p + digits) == ToNat(digits)
  {
    TrailingOf(p, digits);
    assert WithoutNewline(p + digits + "\n") == p + digits;
    if digits != "" || p == "" || p[|p| - 1] != '\n' {
      assert WithoutNewline(p + digits) == p + digits;
    }
  }

  lemma {:induction false} DecimalIsShort(n: nat)
    ensures Decimal(n)[0] == '0' ==> n == 0 && Decimal(n) == "0"
    decreases n
  {
    if n >= 10 {
      DecimalIsShort(n / 10);
    }
  }

  /** A generated id is the base, the mark of the merger and the decimal digits of the number, without leading zeros. */
  lemma GeneratedText(base: string, n: nat) returns (digits: string)
    ensures GeneratedId(base, n) == (if base == "" then "merged_" else base + "_merged_") + digits
    ensures digits != "" && AllDigits(digits) && ToNat(digits) == n && (digits[0] == '0' ==> digits == "0")
  {
    digits := Decimal(n);
    DecimalValue(n);
    DecimalIsShort(n);
  }

  /** A generated id ends in exactly the number it was given. */
  lemma GeneratedPostfix(base: string, n: nat)
    ensures PostfixNumber(GeneratedId(base, n)) == n
  {
    var p := if base == "" then "merged_" else base + "_merged_";
    var id := GeneratedId(base, n);
    assert p[|p| - 1] == '_';
    assert id[|id| - 1] == Decimal(n)[|Decimal(n)| - 1];
    assert WithoutNewline(id) == id;
    TrailingAfter(p, Decimal(n));
    DecimalValue(n);
  }

  function Max(a: nat, b: nat): nat {
    if a < b then b else a
  }

  /** The largest number that one of the ids ends in. */
  function LargestPostfix(ids: seq<string>): nat {
    if ids == [] then 0 else Max(LargestPostfix(ids[..|ids| - 1]), PostfixNumber(ids[|ids| - 1]))
  }

  ghost predicate Bounded(ids: seq<string>, n: nat) {
    forall id :: id in ids ==> PostfixNumber(id) <= n
  }

  lemma {:induction false} LargestPostfixBounds(ids: seq<string>)
    ensures Bounded(ids, LargestPostfix(ids))
    ensures ids != [] ==> exists id :: id in ids && PostfixNumber(id) == LargestPostfix(ids)
    decreases |ids|
  {
    if ids != [] {
      var init, last := ids[..|ids| - 1], ids[|ids| - 1];
      assert ids == init + [last];
      LargestPostfixBounds(init);
    }
  }
}
