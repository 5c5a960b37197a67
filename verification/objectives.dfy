/** Decoding of a team's objectives bitmask into sixteen named structure flags (tools.py). */
module Objectives {
  import opened Bits

  /** The structure that each bit of the mask stands for, lowest bit first. */
  const StructureNames: seq<string> := [
    "core",
    "tier1_lane1", "tier1_lane2", "tier1_lane3", "tier1_lane4",
    "tier2_lane1", "tier2_lane2", "tier2_lane3", "tier2_lane4",
    "titan",
    "titan_shield_generator_1", "titan_shield_generator_2",
    "barrack_boss_lane1", "barrack_boss_lane2", "barrack_boss_lane3", "barrack_boss_lane4"
  ]

  const StructureCount: nat := 16

  /** `extract_objectives(mask)`: the ordered dictionary mapping each structure's name to
      `bool(mask & (1 << b))`, where `b` is the structure's bit. */
  function ExtractObjectives(mask: int): (flags: seq<(string, bool)>)
    ensures |flags| == StructureCount
    ensures forall b :: 0 <= b < StructureCount ==> flags[b].0 == StructureNames[b]
  {
    seq(StructureCount, b requires 0 <= b < StructureCount =>
      (StructureNames[b], BitAnd(mask, Pow2(b)) != 0))
  }

  /** The flag values of a decoded mask, in bit order. */
  function FlagValues(flags: seq<(string, bool)>): (values: seq<bool>)
    ensures |values| == |flags|
    ensures forall b :: 0 <= b < |flags| ==> values[b] == flags[b].1
  {
    seq(|flags|, b requires 0 <= b < |flags| => flags[b].1)
  }

  /** The structure names are sixteen distinct names, the first of which is the core. */
  lemma StructureNamesDistinct()
    ensures |StructureNames| == StructureCount && StructureNames[0] == "core"
    ensures forall a, b :: 0 <= a < b < StructureCount ==> StructureNames[a] != StructureNames[b]
  {
  }

  lemma MaskWidth()
    ensures Pow2(StructureCount) == 65536
  {
    assert Pow2(2) == 4;
    assert Pow2(4) == 16;
    assert Pow2(6) == 64;
    assert Pow2(8) == 256;
    assert Pow2(10) == 1024;
    assert Pow2(12) == 4096;
    assert Pow2(14) == 16384;
  }

  /** The flag for bit `b` is set exactly when bit `b` of the mask is set. */
  lemma ExtractObjectivesBits(mask: int)
    ensures FlagValues(ExtractObjectives(mask)) == LowBits(mask, StructureCount)
  {
    forall b | 0 <= b < StructureCount
      ensures ExtractObjectives(mask)[b].1 == Bit(mask, b)
    {
      BitAndPow2(mask, b);
    }
  }

  /** Bits at position 16 and above never change the decoded flags. */
  lemma ExtractObjectivesHighBits(mask: int)
    ensures ExtractObjectives(mask) == ExtractObjectives(mask % 65536)
  {
    MaskWidth();
    forall b | 0 <= b < StructureCount
      ensures ExtractObjectives(mask)[b] == ExtractObjectives(mask % 65536)[b]
    {
      BitAndPow2(mask, b);
      BitAndPow2(mask % 65536, b);
      BitOfMod(mask, StructureCount, b);
    }
  }

  /** Any sixteen flags are the decoding of exactly one 16-bit mask: packing them and
      decoding gives them back, and packing a decoding gives the mask's low sixteen bits. */
  lemma ExtractObjectivesRoundTrip(flags: seq<bool>, mask: int)
    requires |flags| == StructureCount
    ensures FlagValues(ExtractObjectives(MaskOf(flags))) == flags
    ensures MaskOf(FlagValues(ExtractObjectives(mask))) == mask % 65536
  {
    ExtractObjectivesBits(MaskOf(flags));
    LowBitsMaskOf(flags);
    ExtractObjectivesBits(mask);
    MaskOfLowBits(mask, StructureCount);
    MaskWidth();
  }
}
