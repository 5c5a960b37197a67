/** The fixed, ordered column lists of the pipeline (tools.py). The classifier was trained on
    `PredictFeatures` in exactly this order, so the order is part of the contract. The lists are
    built here from the names they are made of; the `...Text` lemmas show they spell out the
    literal lists of tools.py. */
module Columns {
  import opened Decimal
  import opened Objectives
  import opened Players

  const PlayerCount: nat := 12

  /** The match-level columns `preprocess_active` keeps. */
  const MatchColumns: seq<string> := ["match_id", "net_worth_team_0", "net_worth_team_1", "match_score"]

  /** The player field behind entry `j` of the player columns: the account, then the hero. */
  function PlayerKey(j: nat): string {
    if j % 2 == 0 then "account_id" else "hero_id"
  }

  /** `account_id_i`, `hero_id_i` for each player `i` from 1 to `count`. */
  function PlayerColumnsUpTo(count: nat): seq<string> {
    seq(2 * count, j requires 0 <= j < 2 * count => SuffixedName(PlayerKey(j), j / 2 + 1))
  }

  const PlayerColumns: seq<string> := PlayerColumnsUpTo(PlayerCount)

  /** The sixteen objective flags of team `t`, as `add_suffix('_<t>')` names them. */
  function TeamFlagColumns(t: nat): seq<string> {
    seq(StructureCount, b requires 0 <= b < StructureCount => SuffixedName(StructureNames[b], t))
  }

  /** `hero_id_i` for each player `i` from 1 to `count`. */
  function HeroColumnsUpTo(count: nat): seq<string> {
    seq(count, j requires 0 <= j < count => SuffixedName("hero_id", j + 1))
  }

  const HeroColumns: seq<string> := HeroColumnsUpTo(PlayerCount)

  /** The columns `preprocess_active` keeps, in order (tools.py lines 70-87). */
  const PreprocessFeatures: seq<string> :=
    MatchColumns + PlayerColumns + TeamFlagColumns(0) + TeamFlagColumns(1)

  /** The columns `transform_to_predict` passes to the classifier, in order (tools.py lines
      12-23): the net-worth difference, the heroes, and every flag except the two core flags. */
  const PredictFeatures: seq<string> :=
    ["net_worth_diff"] + HeroColumns + TeamFlagColumns(0)[1..] + TeamFlagColumns(1)[1..]

  lemma SmallNumerals()
    ensures NatToString(0) == "0" && NatToString(1) == "1" && NatToString(2) == "2"
    ensures NatToString(3) == "3" && NatToString(4) == "4" && NatToString(5) == "5"
    ensures NatToString(6) == "6" && NatToString(7) == "7" && NatToString(8) == "8"
    ensures NatToString(9) == "9"
  {
  }

  lemma TwoDigitNumerals()
    ensures NatToString(10) == "10" && NatToString(11) == "11" && NatToString(12) == "12"
  {
    assert NatToString(10) == NatToString(1) + "0";
    assert NatToString(11) == NatToString(1) + "1";
    assert NatToString(12) == NatToString(1) + "2";
  }

  lemma PlayerColumnNamesA()
    ensures PlayerColumns[0] == "account_id_1" && PlayerColumns[1] == "hero_id_1"
    ensures PlayerColumns[2] == "account_id_2" && PlayerColumns[3] == "hero_id_2"
    ensures PlayerColumns[4] == "account_id_3" && PlayerColumns[5] == "hero_id_3"
    ensures PlayerColumns[6] == "account_id_4" && PlayerColumns[7] == "hero_id_4"
  {
    SmallNumerals();
  }

  lemma PlayerColumnNamesB()
    ensures PlayerColumns[8] == "account_id_5" && PlayerColumns[9] == "hero_id_5"
    ensures PlayerColumns[10] == "account_id_6" && PlayerColumns[11] == "hero_id_6"
    ensures PlayerColumns[12] == "account_id_7" && PlayerColumns[13] == "hero_id_7"
    ensures PlayerColumns[14] == "account_id_8" && PlayerColumns[15] == "hero_id_8"
  {
    SmallNumerals();
  }

  lemma PlayerColumnNamesC()
    ensures PlayerColumns[16] == "account_id_9" && PlayerColumns[17] == "hero_id_9"
    ensures PlayerColumns[18] == "account_id_10" && PlayerColumns[19] == "hero_id_10"
    ensures PlayerColumns[20] == "account_id_11" && PlayerColumns[21] == "hero_id_11"
    ensures PlayerColumns[22] == "account_id_12" && PlayerColumns[23] == "hero_id_12"
  {
    SmallNumerals();
    TwoDigitNumerals();
  }

  /** The player columns spell out the list written in tools.py. */
  lemma PlayerColumnsText()
    ensures PlayerColumns == [
      "account_id_1", "hero_id_1", "account_id_2", "hero_id_2",
      "account_id_3", "hero_id_3", "account_id_4", "hero_id_4",
      "account_id_5", "hero_id_5", "account_id_6", "hero_id_6",
      "account_id_7", "hero_id_7", "account_id_8", "hero_id_8",
      "account_id_9", "hero_id_9", "account_id_10", "hero_id_10",
      "account_id_11", "hero_id_11", "account_id_12", "hero_id_12"]
  {
    PlayerColumnNamesA();
    PlayerColumnNamesB();
    PlayerColumnNamesC();
  }

  /** The hero columns spell out the list written in tools.py. */
  lemma HeroColumnsText()
    ensures HeroColumns == [
      "hero_id_1", "hero_id_2", "hero_id_3", "hero_id_4", "hero_id_5", "hero_id_6",
      "hero_id_7", "hero_id_8", "hero_id_9", "hero_id_10", "hero_id_11", "hero_id_12"]
  {
    SmallNumerals();
    TwoDigitNumerals();
    assert HeroColumns[0] == "hero_id_1";
    assert HeroColumns[1] == "hero_id_2";
    assert HeroColumns[2] == "hero_id_3";
    assert HeroColumns[3] == "hero_id_4";
    assert HeroColumns[4] == "hero_id_5";
    assert HeroColumns[5] == "hero_id_6";
    assert HeroColumns[6] == "hero_id_7";
    assert HeroColumns[7] == "hero_id_8";
    assert HeroColumns[8] == "hero_id_9";
    assert HeroColumns[9] == "hero_id_10";
    assert HeroColumns[10] == "hero_id_11";
    assert HeroColumns[11] == "hero_id_12";
  }

  lemma TeamFlagNames0A()
    ensures TeamFlagColumns(0)[0] == "core_0"
    ensures TeamFlagColumns(0)[1] == "tier1_lane1_0"
    ensures TeamFlagColumns(0)[2] == "tier1_lane2_0"
    ensures TeamFlagColumns(0)[3] == "tier1_lane3_0"
  {
    SmallNumerals();
  }

  lemma TeamFlagNames0B()
    ensures TeamFlagColumns(0)[4] == "tier1_lane4_0"
    ensures TeamFlagColumns(0)[5] == "tier2_lane1_0"
    ensures TeamFlagColumns(0)[6] == "tier2_lane2_0"
    ensures TeamFlagColumns(0)[7] == "tier2_lane3_0"
  {
    SmallNumerals();
  }

  lemma TeamFlagNames0C()
    ensures TeamFlagColumns(0)[8] == "tier2_lane4_0"
    ensures TeamFlagColumns(0)[9] == "titan_0"
    ensures TeamFlagColumns(0)[10] == "titan_shield_generator_1_0"
    ensures TeamFlagColumns(0)[11] == "titan_shield_generator_2_0"
  {
    SmallNumerals();
  }

  lemma TeamFlagNames0D()
    ensures TeamFlagColumns(0)[12] == "barrack_boss_lane1_0"
    ensures TeamFlagColumns(0)[13] == "barrack_boss_lane2_0"
    ensures TeamFlagColumns(0)[14] == "barrack_boss_lane3_0"
    ensures TeamFlagColumns(0)[15] == "barrack_boss_lane4_0"
  {
    SmallNumerals();
  }

  /** The team-0 flag columns spell out the list written in tools.py. */
  lemma TeamFlagColumnsText0()
    ensures TeamFlagColumns(0) == [
      "core_0", "tier1_lane1_0", "tier1_lane2_0", "tier1_lane3_0",
      "tier1_lane4_0", "tier2_lane1_0", "tier2_lane2_0", "tier2_lane3_0",
      "tier2_lane4_0", "titan_0", "titan_shield_generator_1_0", "titan_shield_generator_2_0",
      "barrack_boss_lane1_0", "barrack_boss_lane2_0", "barrack_boss_lane3_0", "barrack_boss_lane4_0"]
  {
    SmallNumerals();
    TeamFlagNames0A();
    TeamFlagNames0B();
    TeamFlagNames0C();
    TeamFlagNames0D();
  }

  lemma TeamFlagNames1A()
    ensures TeamFlagColumns(1)[0] == "core_1"
    ensures TeamFlagColumns(1)[1] == "tier1_lane1_1"
    ensures TeamFlagColumns(1)[2] == "tier1_lane2_1"
    ensures TeamFlagColumns(1)[3] == "tier1_lane3_1"
  {
    SmallNumerals();
  }

  lemma TeamFlagNames1B()
    ensures TeamFlagColumns(1)[4] == "tier1_lane4_1"
    ensures TeamFlagColumns(1)[5] == "tier2_lane1_1"
    ensures TeamFlagColumns(1)[6] == "tier2_lane2_1"
    ensures TeamFlagColumns(1)[7] == "tier2_lane3_1"
  {
    SmallNumerals();
  }

  lemma TeamFlagNames1C()
    ensures TeamFlagColumns(1)[8] == "tier2_lane4_1"
    ensures TeamFlagColumns(1)[9] == "titan_1"
    ensures TeamFlagColumns(1)[10] == "titan_shield_generator_1_1"
    ensures TeamFlagColumns(1)[11] == "titan_shield_generator_2_1"
  {
    SmallNumerals();
  }

  lemma TeamFlagNames1D()
    ensures TeamFlagColumns(1)[12] == "barrack_boss_lane1_1"
    ensures TeamFlagColumns(1)[13] == "barrack_boss_lane2_1"
    ensures TeamFlagColumns(1)[14] == "barrack_boss_lane3_1"
    ensures TeamFlagColumns(1)[15] == "barrack_boss_lane4_1"
  {
    SmallNumerals();
  }

  /** The team-1 flag columns spell out the list written in tools.py. */
  lemma TeamFlagColumnsText1()
    ensures TeamFlagColumns(1) == [
      "core_1", "tier1_lane1_1", "tier1_lane2_1", "tier1_lane3_1",
      "tier1_lane4_1", "tier2_lane1_1", "tier2_lane2_1", "tier2_lane3_1",
      "tier2_lane4_1", "titan_1", "titan_shield_generator_1_1", "titan_shield_generator_2_1",
      "barrack_boss_lane1_1", "barrack_boss_lane2_1", "barrack_boss_lane3_1", "barrack_boss_lane4_1"]
  {
    SmallNumerals();
    TeamFlagNames1A();
    TeamFlagNames1B();
    TeamFlagNames1C();
    TeamFlagNames1D();
  }

  lemma PreprocessFeaturesLength()
    ensures |PreprocessFeatures| == 60
  {
  }

  /** Columns 0 to 3 of the 60 are the match columns. */
  lemma PreprocessMatchColumn(k: nat)
    requires k < 4
    ensures PreprocessFeatures[k] == MatchColumns[k]
  {
    var head := MatchColumns + PlayerColumns;
    assert PreprocessFeatures == head + TeamFlagColumns(0) + TeamFlagColumns(1);
    assert PreprocessFeatures[k] == head[k];
  }

  /** Column `4 + j` of the 60 is entry `j` of the player columns. */
  lemma PreprocessPlayerColumn(j: nat)
    requires j < 2 * PlayerCount
    ensures PreprocessFeatures[4 + j] == SuffixedName(PlayerKey(j), j / 2 + 1)
  {
    var head := MatchColumns + PlayerColumns;
    assert PreprocessFeatures == head + TeamFlagColumns(0) + TeamFlagColumns(1);
    assert PreprocessFeatures[4 + j] == head[4 + j] == PlayerColumns[j];
  }

  /** Columns `28 + b` and `44 + b` of the 60 are the flags of bit `b` for teams 0 and 1. */
  lemma PreprocessFlagColumn(b: nat)
    requires b < StructureCount
    ensures PreprocessFeatures[28 + b] == SuffixedName(StructureNames[b], 0)
    ensures PreprocessFeatures[44 + b] == SuffixedName(StructureNames[b], 1)
  {
    var head := MatchColumns + PlayerColumns;
    var flags0 := TeamFlagColumns(0);
    var flags1 := TeamFlagColumns(1);
    assert PreprocessFeatures == head + flags0 + flags1;
    assert PreprocessFeatures[28 + b] == flags0[b];
    assert PreprocessFeatures[44 + b] == flags1[b];
  }

  /** The 60 kept columns: the four match fields, then `account_id_i`, `hero_id_i` for each of
      the twelve players, then the sixteen team-0 flags and the sixteen team-1 flags in bit
      order, both core flags included. */
  lemma PreprocessFeaturesLayout()
    ensures |PreprocessFeatures| == 60
    ensures PreprocessFeatures[..4] == MatchColumns
    ensures forall j :: 0 <= j < 2 * PlayerCount ==>
              PreprocessFeatures[4 + j] == SuffixedName(PlayerKey(j), j / 2 + 1)
    ensures forall b :: 0 <= b < StructureCount ==>
              PreprocessFeatures[28 + b] == SuffixedName(StructureNames[b], 0)
              && PreprocessFeatures[44 + b] == SuffixedName(StructureNames[b], 1)
  {
    forall k | 0 <= k < 4 ensures PreprocessFeatures[..4][k] == MatchColumns[k] {
      PreprocessMatchColumn(k);
    }
    forall j | 0 <= j < 2 * PlayerCount
      ensures PreprocessFeatures[4 + j] == SuffixedName(PlayerKey(j), j / 2 + 1)
    {
      PreprocessPlayerColumn(j);
    }
    forall b | 0 <= b < StructureCount
      ensures PreprocessFeatures[28 + b] == SuffixedName(StructureNames[b], 0)
      ensures PreprocessFeatures[44 + b] == SuffixedName(StructureNames[b], 1)
    {
      PreprocessFlagColumn(b);
    }
  }

  lemma PredictFeaturesLength()
    ensures |PredictFeatures| == 43 && PredictFeatures[0] == "net_worth_diff"
  {
  }

  /** Column `i` of the 43, for `i` from 1 to 12, is the hero of player `i`. */
  lemma PredictHeroColumn(i: nat)
    requires 1 <= i <= PlayerCount
    ensures PredictFeatures[i] == SuffixedName("hero_id", i)
  {
    var heads := ["net_worth_diff"] + HeroColumns;
    assert PredictFeatures == heads + TeamFlagColumns(0)[1..] + TeamFlagColumns(1)[1..];
    assert PredictFeatures[i] == heads[i] == HeroColumns[i - 1];
  }

  /** Columns `12 + b` and `27 + b` of the 43, for `b` from 1 to 15, are the flags of bit `b` for
      teams 0 and 1. */
  lemma PredictFlagColumn(b: nat)
    requires 1 <= b < StructureCount
    ensures PredictFeatures[12 + b] == SuffixedName(StructureNames[b], 0)
    ensures PredictFeatures[27 + b] == SuffixedName(StructureNames[b], 1)
  {
    var heads := ["net_worth_diff"] + HeroColumns;
    var flags0 := TeamFlagColumns(0)[1..];
    var flags1 := TeamFlagColumns(1)[1..];
    assert PredictFeatures == heads + flags0 + flags1;
    assert PredictFeatures[12 + b] == flags0[b - 1];
    assert PredictFeatures[27 + b] == flags1[b - 1];
  }

  /** The 43 classifier columns: `net_worth_diff`, the twelve `hero_id_i`, then the fifteen
      non-core flags of team 0 and of team 1 in bit order. */
  lemma PredictFeaturesLayout()
    ensures |PredictFeatures| == 43
    ensures PredictFeatures[0] == "net_worth_diff"
    ensures forall i :: 1 <= i <= PlayerCount ==> PredictFeatures[i] == SuffixedName("hero_id", i)
    ensures forall b :: 1 <= b < StructureCount ==>
              PredictFeatures[12 + b] == SuffixedName(StructureNames[b], 0)
              && PredictFeatures[27 + b] == SuffixedName(StructureNames[b], 1)
  {
    PredictFeaturesLength();
    forall i | 1 <= i <= PlayerCount ensures PredictFeatures[i] == SuffixedName("hero_id", i) {
      PredictHeroColumn(i);
    }
    forall b | 1 <= b < StructureCount
      ensures PredictFeatures[12 + b] == SuffixedName(StructureNames[b], 0)
      ensures PredictFeatures[27 + b] == SuffixedName(StructureNames[b], 1)
    {
      PredictFlagColumn(b);
    }
  }

  /** Where column `k` of the 43 sits among the 60: hero `k` after the first four columns and
      the account and hero of the players before it, and the flags of bit `b` at `28 + b` and
      `44 + b`. */
  function PredictSource(k: nat): (j: nat)
    requires 1 <= k < 43
    ensures j < 60
  {
    if k <= PlayerCount then 3 + 2 * k else if k < 28 then 16 + k else 17 + k
  }

  /** The hero of player `i` sits at position `i` of the classifier columns and at position
      `3 + 2 * i` of the 60 kept columns. */
  lemma PredictHeroSource(i: nat)
    requires 1 <= i <= PlayerCount
    ensures PredictFeatures[i] == PreprocessFeatures[3 + 2 * i]
  {
    PredictHeroColumn(i);
    PreprocessPlayerColumn(2 * i - 1);
    assert (2 * i - 1) / 2 + 1 == i && (2 * i - 1) % 2 == 1;
  }

  /** Every classifier column after `net_worth_diff` is one of the 60 kept columns. */
  lemma PredictColumnSource(k: nat)
    requires 1 <= k < 43
    ensures k < |PredictFeatures| && PredictSource(k) < |PreprocessFeatures|
    ensures PredictFeatures[k] == PreprocessFeatures[PredictSource(k)]
  {
    PredictFeaturesLength();
    PreprocessFeaturesLength();
    if k <= PlayerCount {
      PredictHeroSource(k);
    } else if k < 28 {
      PredictFlagColumn(k - 12);
      PreprocessFlagColumn(k - 12);
    } else {
      PredictFlagColumn(k - 27);
      PreprocessFlagColumn(k - 27);
    }
  }

  /** A name that ends in something other than a digit is never a renamed field. */
  lemma SuffixedNotPlain(k: string, i: nat, name: string)
    requires |name| > 0 && !IsDigit(name[|name| - 1])
    ensures SuffixedName(k, i) != name
  {
    SuffixedNameLast(k, i);
  }

  /** Column `k` of the 60-column row is not a name that is neither a match column nor ends in a
      digit. */
  lemma PreprocessColumnNot(k: nat, name: string)
    requires k < |PreprocessFeatures|
    requires |name| > 0 && !IsDigit(name[|name| - 1]) && name !in MatchColumns
    ensures PreprocessFeatures[k] != name
  {
    if k < 4 {
      PreprocessMatchColumn(k);
    } else if k < 28 {
      PreprocessPlayerColumn(k - 4);
      SuffixedNotPlain(PlayerKey(k - 4), (k - 4) / 2 + 1, name);
    } else if k < 44 {
      PreprocessFlagColumn(k - 28);
      SuffixedNotPlain(StructureNames[k - 28], 0, name);
    } else {
      PreprocessFlagColumn(k - 44);
      SuffixedNotPlain(StructureNames[k - 44], 1, name);
    }
  }

  /** Only the match columns and renamed fields are kept: a name that is neither a match column
      nor ends in a digit is not among the 60. */
  lemma NotPreprocessed(name: string)
    requires |name| > 0 && !IsDigit(name[|name| - 1]) && name !in MatchColumns
    ensures name !in PreprocessFeatures
  {
    forall k | 0 <= k < |PreprocessFeatures| ensures PreprocessFeatures[k] != name {
      PreprocessColumnNot(k, name);
    }
  }

  /** Neither the computed `net_worth_diff` nor the training label `winning_team` is among the
      60 kept columns. */
  lemma PreprocessFeaturesNoDiff()
    ensures "net_worth_diff" !in PreprocessFeatures
    ensures "winning_team" !in PreprocessFeatures
  {
    NotPreprocessed("net_worth_diff");
    NotPreprocessed("winning_team");
  }

  /** Different positions of a run of player columns carry different names. */
  lemma PlayerNamesDistinct(c: nat, i: nat, j: nat)
    requires i < j
    ensures SuffixedName(PlayerKey(i), c + i / 2) != SuffixedName(PlayerKey(j), c + j / 2)
  {
    if SuffixedName(PlayerKey(i), c + i / 2) == SuffixedName(PlayerKey(j), c + j / 2) {
      SuffixedNameInjective(PlayerKey(i), c + i / 2, PlayerKey(j), c + j / 2);
    }
  }

  /** Both core flags are kept in the 60-column row. */
  lemma PreprocessFeaturesKeepsCore()
    ensures PreprocessFeatures[28] == "core_0" && PreprocessFeatures[44] == "core_1"
  {
    PreprocessFlagColumn(0);
    TeamFlagNames0A();
    TeamFlagNames1A();
  }

  /** The account column of player `m + 1` sits right after the columns of the first `m` players. */
  lemma AccountColumn(m: nat)
    requires m < PlayerCount
    ensures PreprocessFeatures[4 + 2 * m] == SuffixedName("account_id", m + 1)
  {
    PreprocessPlayerColumn(2 * m);
    assert (2 * m) / 2 == m && (2 * m) % 2 == 0;
  }

  /** A hero column is not a core flag. */
  lemma HeroNotCore(i: nat, t: nat)
    ensures SuffixedName("hero_id", i) != SuffixedName("core", t)
  {
    if SuffixedName("hero_id", i) == SuffixedName("core", t) {
      SuffixedNameInjective("hero_id", i, "core", t);
    }
  }

  /** The flag of any structure but the core is not a core flag. */
  lemma FlagNotCore(b: nat, u: nat, t: nat)
    requires 1 <= b < StructureCount
    ensures SuffixedName(StructureNames[b], u) != SuffixedName("core", t)
  {
    StructureNamesDistinct();
    if SuffixedName(StructureNames[b], u) == SuffixedName("core", t) {
      SuffixedNameInjective(StructureNames[b], u, "core", t);
    }
  }

  /** Column `k` of the classifier row is not a core flag. */
  lemma PredictColumnNotCore(k: nat, t: nat)
    requires k < |PredictFeatures|
    ensures PredictFeatures[k] != SuffixedName("core", t)
  {
    if k == 0 {
      PredictFeaturesLength();
      SuffixedNameLast("core", t);
    } else if k <= PlayerCount {
      PredictHeroColumn(k);
      HeroNotCore(k, t);
    } else if k < 28 {
      PredictFlagColumn(k - 12);
      FlagNotCore(k - 12, 0, t);
    } else {
      PredictFlagColumn(k - 27);
      FlagNotCore(k - 27, 1, t);
    }
  }

  /** The classifier never sees a core flag. */
  lemma PredictFeaturesNoCore()
    ensures "core_0" !in PredictFeatures && "core_1" !in PredictFeatures
  {
    forall k, t | 0 <= k < |PredictFeatures| && 0 <= t <= 1
      ensures PredictFeatures[k] != SuffixedName("core", t)
    {
      PredictColumnNotCore(k, t);
    }
    SmallNumerals();
    assert SuffixedName("core", 0) == "core_0" && SuffixedName("core", 1) == "core_1";
  }

  /** Column `k` of the classifier row is not a name that ends in something other than a digit,
      unless it is the leading `net_worth_diff`. */
  lemma PredictColumnNot(k: nat, name: string)
    requires k < |PredictFeatures|
    requires |name| > 0 && !IsDigit(name[|name| - 1]) && name != "net_worth_diff"
    ensures PredictFeatures[k] != name
  {
    if k == 0 {
      PredictFeaturesLength();
    } else if k <= PlayerCount {
      PredictHeroColumn(k);
      SuffixedNotPlain("hero_id", k, name);
    } else if k < 28 {
      PredictFlagColumn(k - 12);
      SuffixedNotPlain(StructureNames[k - 12], 0, name);
    } else {
      PredictFlagColumn(k - 27);
      SuffixedNotPlain(StructureNames[k - 27], 1, name);
    }
  }

  /** The training label `winning_team` is not one of the classifier's 43 inputs. */
  lemma PredictFeaturesNoLabel()
    ensures "winning_team" !in PredictFeatures
  {
    forall k | 0 <= k < |PredictFeatures| ensures PredictFeatures[k] != "winning_team" {
      PredictColumnNot(k, "winning_team");
    }
  }
}
