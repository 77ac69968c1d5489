/**
  The `flags` field of a webhook message: a nullable Java `Integer` to which
  the builder's two flag setters OR a single bit each.
 */
module MessageFlags {
  /** `1 << 12`: SUPPRESS_NOTIFICATIONS. */
  const SUPPRESS_NOTIFICATIONS: bv32 := 0x1000
  /** `1 << 15`: IS_COMPONENTS_V2. */
  const IS_COMPONENTS_V2: bv32 := 0x8000

  /** The nullable `Integer flags` field: null, or its 32 bits. */
  datatype IntegerFlags = Unset | Bits(value: bv32)

  /** The bits the field holds; a null field holds none. */
  function Held(f: IntegerFlags): bv32 {
    if f.Bits? then f.value else 0
  }

  /**
    What a flag setter does to the field: a null field becomes the bit alone,
    otherwise the bit is or-ed into the old value (a null field or-ed with the
    bit is the bit alone). Either way the field is set.
   */
  function SetFlag(f: IntegerFlags, bit: bv32): (r: IntegerFlags)
    ensures r.Bits?
  {
    Bits(Held(f) | bit)
  }

  /** After a flag setter the field has the bit. */
  lemma SetFlagSetsBit(f: IntegerFlags, bit: bv32)
    ensures SetFlag(f, bit).value & bit == bit
  {
  }

  /** A flag setter keeps every other bit the field held; a null field held none. */
  lemma SetFlagKeepsOtherBits(f: IntegerFlags, bit: bv32)
    ensures SetFlag(f, bit).value & !bit == Held(f) & !bit
  {
  }

  /** Setting a bit twice is setting it once, whether the field was null or not. */
  lemma SetFlagIdempotent(f: IntegerFlags, bit: bv32)
    ensures SetFlag(SetFlag(f, bit), bit) == SetFlag(f, bit)
  {
    var once := SetFlag(f, bit);
    assert Held(once) == Held(f) | bit;
    OrIdempotent(Held(f), bit);
  }

  /** Two bits can be set in either order, whether the field was null or not. */
  lemma SetFlagCommutes(f: IntegerFlags, a: bv32, b: bv32)
    ensures SetFlag(SetFlag(f, a), b) == SetFlag(SetFlag(f, b), a)
  {
    SetFlagTwice(f, a, b);
    SetFlagTwice(f, b, a);
    OrCommutes(Held(f), a, b);
  }

  /** Both flag setters on a fresh builder, in either order, give 36864. */
  lemma BothFlagsExample()
    ensures SetFlag(SetFlag(Unset, SUPPRESS_NOTIFICATIONS), IS_COMPONENTS_V2) == Bits(36864)
    ensures SetFlag(SetFlag(Unset, IS_COMPONENTS_V2), SUPPRESS_NOTIFICATIONS) == Bits(36864)
  {
  }

  /** Two setters in a row or both bits into what the field held. */
  lemma SetFlagTwice(f: IntegerFlags, a: bv32, b: bv32)
    ensures SetFlag(SetFlag(f, a), b) == Bits((Held(f) | a) | b)
  {
    var first := SetFlag(f, a);
    assert Held(first) == Held(f) | a;
  }

  lemma OrIdempotent(x: bv32, bit: bv32)
    ensures (x | bit) | bit == x | bit
  {
  }

  lemma OrCommutes(x: bv32, a: bv32, b: bv32)
    ensures Bits((x | a) | b) == Bits((x | b) | a)
  {
  }
}
