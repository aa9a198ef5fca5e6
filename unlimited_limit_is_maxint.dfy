/**
 * The mixin that gives a dialect `unlimitedLimit()`: the largest unsigned
 * 64-bit integer, as decimal text, for dialects that need an explicit LIMIT.
 */
module UnlimitedLimitIsMaxint {
  import opened Wrappers
  import opened Text
  import opened Classes

  /** 2^64 - 1. */
  const MaxUint64: nat := 0x1_0000_0000_0000_0000 - 1

  /** `unlimitedLimit()`: a constant; it reads no argument and no state. */
  function UnlimitedLimit(): (r: string)
    ensures AllDigits(r) && |r| == 20
  {
    "18446744073709551615"
  }

  /** The decimal text of the first five digits of 2^64 - 1, one digit at a time. */
  lemma MaxUint64Digits5()
    ensures NatToString(18446) == "18446"
  {
    assert NatToString(1) == "1";
    assert NatToString(18) == "18";
    assert NatToString(184) == "184";
    assert NatToString(1844) == "1844";
  }

  /** ... and of the first ten. */
  lemma MaxUint64Digits10()
    ensures NatToString(1844674407) == "1844674407"
  {
    MaxUint64Digits5();
    assert NatToString(184467) == "184467";
    assert NatToString(1844674) == "1844674";
    assert NatToString(18446744) == "18446744";
    assert NatToString(184467440) == "184467440";
  }

  /** ... and of the first fifteen. */
  lemma MaxUint64Digits15()
    ensures NatToString(184467440737095) == "184467440737095"
  {
    MaxUint64Digits10();
    assert NatToString(18446744073) == "18446744073";
    assert NatToString(184467440737) == "184467440737";
    assert NatToString(1844674407370) == "1844674407370";
    assert NatToString(18446744073709) == "18446744073709";
  }

  /** The literal is the canonical decimal text of 2^64 - 1: no leading zero. */
  lemma MaxUint64Text()
    ensures NatToString(MaxUint64) == UnlimitedLimit()
  {
    MaxUint64Digits15();
    assert NatToString(1844674407370955) == "1844674407370955";
    assert NatToString(18446744073709551) == "18446744073709551";
    assert NatToString(184467440737095516) == "184467440737095516";
    assert NatToString(1844674407370955161) == "1844674407370955161";
    assert NatToString(18446744073709551615) == "18446744073709551615";
  }

  /** The literal denotes 2^64 - 1. */
  lemma UnlimitedLimitDenotesMaxUint64()
    ensures DecimalValue(UnlimitedLimit()) == MaxUint64
  {
    MaxUint64Text();
    DecimalRoundTrip(MaxUint64);
  }

  /** `UnlimitedLimitIsMaxint(superclass)`: a class over the superclass whose body is `unlimitedLimit`. */
  function Apply(super: Proto): Proto {
    Extend(super, map[Member.UnlimitedLimit := MaxIntLiteral])
  }

  /** The mixin adds `unlimitedLimit` and changes nothing else. */
  lemma AddsOnlyUnlimitedLimit(super: Proto, m: Member)
    ensures Members(Apply(super)) == Members(super) + {Member.UnlimitedLimit}
    ensures Lookup(Apply(super), m) ==
            if m == Member.UnlimitedLimit then Some(MaxIntLiteral) else Lookup(super, m)
  {
  }
}
