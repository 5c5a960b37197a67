/** The 60-column row of `preprocess_active` (tools.py lines 56-90) and the 43-column classifier
    row of `transform_to_predict` (tools.py lines 10-27), column by column. */
module Rows {
  import opened Wrappers
  import opened Bits
  import opened Records
  import opened Objectives
  import opened Players
  import opened Columns
  import opened Preprocess
  import opened Frame

  /** Column `k` of the 60-column row is backed by the snapshot: a match column, a column of a
      listed player, or a flag. */
  predicate Covers(s: Snapshot, k: nat) {
    k < 4 || k >= 28 || (k - 4) / 2 < |s.players|
  }

  /** The cell that column `k` of the 60-column row is meant to hold: the match id, the two net
      worths and the score, then the account and hero of each player in turn, then bit `b` of
      team 0's mask, then bit `b` of team 1's. */
  function ExpectedCell(s: Snapshot, n: Reading, k: nat): Value
    requires Shaped(s) && k < 60 && Covers(s, k)
  {
    if k == 0 then Lookup(s.fields, "match_id").value
    else if k == 1 then IntV(n.worth0)
    else if k == 2 then IntV(n.worth1)
    else if k == 3 then Lookup(s.fields, "match_score").value
    else if k < 28 then Lookup(s.players[(k - 4) / 2], PlayerKey(k - 4)).value
    else if k < 44 then BoolV(Bit(n.mask0, k - 28))
    else BoolV(Bit(n.mask1, k - 44))
  }

  lemma ExpectedPlayerCell(s: Snapshot, n: Reading, j: nat)
    requires Shaped(s) && j < 2 * PlayerCount && j / 2 < |s.players|
    ensures ExpectedCell(s, n, 4 + j) == Lookup(s.players[j / 2], PlayerKey(j)).value
  {
  }

  lemma ExpectedFlagCells(s: Snapshot, n: Reading, b: nat)
    requires Shaped(s) && b < StructureCount
    ensures ExpectedCell(s, n, 28 + b) == BoolV(Bit(n.mask0, b))
    ensures ExpectedCell(s, n, 44 + b) == BoolV(Bit(n.mask1, b))
  {
  }

  /** The four match columns hold the expected cells. */
  lemma FrameMatchColumns(s: Snapshot, n: Reading, k: nat)
    requires Shaped(s) && Reads(s, n) && k < 4
    ensures ActiveFrame(s).Success?
    ensures Lookup(ActiveFrame(s).value, PreprocessFeatures[k]) == Some(ExpectedCell(s, n, k))
  {
    PreprocessMatchColumn(k);
    FrameField(s, n, MatchColumns[k]);
  }

  /** Entry `j` of the player columns holds the expected cell when its player is listed. */
  lemma FramePlayerColumn(s: Snapshot, n: Reading, j: nat)
    requires Shaped(s) && Reads(s, n) && j < 2 * PlayerCount && j / 2 < |s.players|
    ensures ActiveFrame(s).Success?
    ensures Lookup(ActiveFrame(s).value, PreprocessFeatures[4 + j]) == Some(ExpectedCell(s, n, 4 + j))
  {
    PreprocessPlayerColumn(j);
    FramePlayer(s, n, PlayerKey(j), j / 2 + 1);
    ExpectedPlayerCell(s, n, j);
  }

  /** The two flag columns of bit `b` hold the expected cells. */
  lemma FrameFlagColumns(s: Snapshot, n: Reading, b: nat)
    requires Shaped(s) && Reads(s, n) && b < StructureCount
    ensures ActiveFrame(s).Success?
    ensures Lookup(ActiveFrame(s).value, PreprocessFeatures[28 + b]) == Some(ExpectedCell(s, n, 28 + b))
    ensures Lookup(ActiveFrame(s).value, PreprocessFeatures[44 + b]) == Some(ExpectedCell(s, n, 44 + b))
  {
    PreprocessFlagColumn(b);
    FrameFlag(s, n, b, 0);
    FrameFlag(s, n, b, 1);
    ExpectedFlagCells(s, n, b);
  }

  /** Every backed column of the 60 is found in the frame with its expected cell. */
  lemma FrameColumn(s: Snapshot, n: Reading, k: nat)
    requires Shaped(s) && Reads(s, n) && k < 60 && Covers(s, k)
    ensures ActiveFrame(s).Success?
    ensures Lookup(ActiveFrame(s).value, PreprocessFeatures[k]) == Some(ExpectedCell(s, n, k))
  {
    if k < 4 {
      FrameMatchColumns(s, n, k);
    } else if k < 28 {
      FramePlayerColumn(s, n, k - 4);
    } else if k < 44 {
      FrameFlagColumns(s, n, k - 28);
    } else {
      FrameFlagColumns(s, n, k - 44);
    }
  }

  /** Once the frame is built, `preprocess_active` is the selection of the 60 columns from it. */
  lemma PreprocessActiveSelects(data: seq<Snapshot>)
    requires |data| > 0 && ActiveFrame(data[0]).Success?
    ensures PreprocessActive(data) == Select(ActiveFrame(data[0]).value, PreprocessFeatures)
  {
  }

  /** `preprocess_active` on a list whose first snapshot is well formed: the 60 columns in their
      fixed order, each holding its expected cell. */
  lemma PreprocessActiveRow(data: seq<Snapshot>, n: Reading)
    requires |data| > 0 && WellFormed(data[0]) && Reads(data[0], n)
    ensures PreprocessActive(data).Success?
    ensures |PreprocessActive(data).value| == 60
    ensures forall k :: 0 <= k < 60 ==>
              PreprocessActive(data).value[k] == (PreprocessFeatures[k], ExpectedCell(data[0], n, k))
  {
    var s := data[0];
    var cells := seq(60, k requires 0 <= k < 60 => ExpectedCell(s, n, k));
    FrameColumn(s, n, 0);
    PreprocessFeaturesLength();
    forall k | 0 <= k < 60 ensures Lookup(ActiveFrame(s).value, PreprocessFeatures[k]) == Some(cells[k]) {
      FrameColumn(s, n, k);
    }
    SelectFound(ActiveFrame(s).value, PreprocessFeatures, cells);
    PreprocessActiveSelects(data);
  }

  /** Every backed column of the 60 is present in the frame. */
  lemma FrameColumnPresent(s: Snapshot, n: Reading, k: nat)
    requires Shaped(s) && Reads(s, n) && k < 60 && Covers(s, k)
    ensures ActiveFrame(s).Success?
    ensures PreprocessFeatures[k] in Names(ActiveFrame(s).value)
  {
    FrameColumn(s, n, k);
  }

  /** Entry `j` of the player columns is missing from the frame when its player is not listed. */
  lemma FramePlayerAbsent(s: Snapshot, n: Reading, j: nat)
    requires Shaped(s) && Reads(s, n) && 2 * |s.players| <= j < 2 * PlayerCount
    ensures ActiveFrame(s).Success?
    ensures PreprocessFeatures[4 + j] !in Names(ActiveFrame(s).value)
  {
    var k, i := PlayerKey(j), j / 2 + 1;
    assert (k == "account_id" || k == "hero_id") && |s.players| < i <= PlayerCount;
    PreprocessPlayerColumn(j);
    FramePlayer(s, n, k, i);
  }

  /** The account and hero columns of players `m + 1` to 12, in the order of the 60. */
  function PlayerColumnsFrom(m: nat): (names: seq<string>)
    requires m <= PlayerCount
    ensures |names| == 2 * (PlayerCount - m)
  {
    seq(2 * (PlayerCount - m), j requires 0 <= j < 2 * (PlayerCount - m) => SuffixedName(PlayerKey(j), m + 1 + j / 2))
  }

  /** The columns of the players from `m + 1` on are a slice of the 60. */
  lemma PlayerColumnsFromSlice(m: nat)
    requires m <= PlayerCount
    ensures PreprocessFeatures[4 + 2 * m..28] == PlayerColumnsFrom(m)
  {
    PreprocessFeaturesLength();
    forall j | 0 <= j < 2 * (PlayerCount - m)
      ensures PreprocessFeatures[4 + 2 * m + j] == PlayerColumnsFrom(m)[j]
    {
      PlayerColumnAt(m, j);
    }
  }

  /** Entry `j` of the player columns from player `m + 1` on, in the 60 kept columns. */
  lemma PlayerColumnAt(m: nat, j: nat)
    requires m <= PlayerCount && j < 2 * (PlayerCount - m)
    ensures 4 + 2 * m + j < |PreprocessFeatures|
    ensures PreprocessFeatures[4 + 2 * m + j] == PlayerColumnsFrom(m)[j]
  {
    PreprocessFeaturesLength();
    PreprocessPlayerColumn(2 * m + j);
    assert (2 * m + j) / 2 == m + j / 2 && (2 * m + j) % 2 == j % 2;
  }

  /** The player columns from player `m + 1` on are pairwise distinct in the 60 kept columns. */
  lemma PlayerRangeDistinct(m: nat)
    requires m <= PlayerCount
    ensures |PreprocessFeatures| == 60
    ensures forall a, b | 4 + 2 * m <= a < b < 28 :: PreprocessFeatures[a] != PreprocessFeatures[b]
  {
    PreprocessFeaturesLength();
    forall a, b | 4 + 2 * m <= a < b < 28 ensures PreprocessFeatures[a] != PreprocessFeatures[b] {
      PlayerColumnAt(m, a - 4 - 2 * m);
      PlayerColumnAt(m, b - 4 - 2 * m);
      PlayerColumnsFromDistinct(m, a - 4 - 2 * m, b - 4 - 2 * m);
    }
  }

  /** The player columns from player `m + 1` on are pairwise distinct. */
  lemma PlayerColumnsFromDistinct(m: nat, i: nat, j: nat)
    requires m <= PlayerCount && i < j < 2 * (PlayerCount - m)
    ensures PlayerColumnsFrom(m)[i] != PlayerColumnsFrom(m)[j]
  {
    PlayerNamesDistinct(m + 1, i, j);
  }

  /** The 60 columns cannot be selected from the frame of a snapshot with fewer than twelve
      players: pandas reports the account and hero columns of every player past the listed ones. */
  lemma ShortSnapshotSelect(s: Snapshot, n: Reading)
    requires Shaped(s) && Reads(s, n) && |s.players| < PlayerCount
    ensures ActiveFrame(s).Success?
    ensures Select(ActiveFrame(s).value, PreprocessFeatures) == Failure(MissingColumns(PlayerColumnsFrom(|s.players|)))
  {
    FrameMissingRange(s, n);
    ShortFrameSelect(ActiveFrame(s).value, |s.players|);
  }

  /** Selecting the 60 columns from a frame that lacks exactly the player columns past player
      `m`: pandas reports those columns. */
  lemma ShortFrameSelect(frame: Record, m: nat)
    requires m < PlayerCount
    requires forall k | 0 <= k < |PreprocessFeatures| ::
               PreprocessFeatures[k] in Names(frame) <==> !(4 + 2 * m <= k < 28)
    ensures Select(frame, PreprocessFeatures) == Failure(MissingColumns(PlayerColumnsFrom(m)))
  {
    PreprocessFeaturesLength();
    PlayerRangeDistinct(m);
    SelectMissingRange(frame, PreprocessFeatures, 4 + 2 * m, 28);
    PlayerColumnsFromSlice(m);
  }

  /** The frame of a snapshot lacks exactly the player columns past its listed players. */
  lemma FrameMissingRange(s: Snapshot, n: Reading)
    requires Shaped(s) && Reads(s, n)
    ensures ActiveFrame(s).Success?
    ensures forall k | 0 <= k < |PreprocessFeatures| ::
              PreprocessFeatures[k] in Names(ActiveFrame(s).value) <==> !(4 + 2 * |s.players| <= k < 28)
  {
    ActiveFrameDiff(s, n);
    forall k | 0 <= k < |PreprocessFeatures|
      ensures PreprocessFeatures[k] in Names(ActiveFrame(s).value) <==> !(4 + 2 * |s.players| <= k < 28)
    {
      PreprocessFeaturesLength();
      if 4 + 2 * |s.players| <= k < 28 {
        FramePlayerAbsent(s, n, k - 4);
      } else {
        assert Covers(s, k);
        FrameColumnPresent(s, n, k);
      }
    }
  }

  /** With fewer than twelve players, `preprocess_active` raises a `KeyError` listing the account
      and hero columns of every player past the listed ones. */
  lemma ShortPlayerList(data: seq<Snapshot>, n: Reading)
    requires |data| > 0 && Shaped(data[0]) && Reads(data[0], n) && |data[0].players| < PlayerCount
    ensures PreprocessActive(data) == Failure(MissingColumns(PlayerColumnsFrom(|data[0].players|)))
  {
    ShortSnapshotSelect(data[0], n);
    PreprocessActiveSelects(data);
  }
}
