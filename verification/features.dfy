/** What the classifier is handed (`transform_to_predict`, tools.py lines 10-27) and what the bot
    shows (`get_match_info`, tools.py lines 104-118) for a well-formed snapshot. */
module Features {
  import opened Wrappers
  import opened Bits
  import opened Records
  import opened Players
  import opened Columns
  import opened Preprocess
  import opened Frame
  import opened Rows

  /** The hero of player `i`, counted from 1. */
  function HeroOf(s: Snapshot, i: nat): Value
    requires WellFormed(s) && 1 <= i <= PlayerCount
  {
    Lookup(s.players[i - 1], "hero_id").value
  }

  /** The cell that column `k` of the classifier row is meant to hold: team 1's net worth minus
      team 0's, the hero of each player, then bit `b` of each team's mask for every structure
      but the core. */
  function ExpectedFeature(s: Snapshot, n: Reading, k: nat): Value
    requires WellFormed(s) && k < 43
  {
    if k == 0 then IntV(n.worth1 - n.worth0)
    else if k <= PlayerCount then HeroOf(s, k)
    else if k < 28 then BoolV(Bit(n.mask0, k - 12))
    else BoolV(Bit(n.mask1, k - 27))
  }

  /** The hero of player `i` is the expected cell of column `3 + 2 * i` of the 60. */
  lemma HeroCellOfSource(s: Snapshot, n: Reading, i: nat)
    requires WellFormed(s) && 1 <= i <= PlayerCount
    ensures ExpectedCell(s, n, 3 + 2 * i) == HeroOf(s, i)
  {
    ExpectedPlayerCell(s, n, 2 * i - 1);
    assert (2 * i - 1) / 2 == i - 1 && (2 * i - 1) % 2 == 1;
  }

  /** Column `k` of the classifier row comes from column `PredictSource(k)` of the 60. */
  lemma CellOfSource(s: Snapshot, n: Reading, k: nat)
    requires WellFormed(s) && 1 <= k < 43
    ensures ExpectedCell(s, n, PredictSource(k)) == ExpectedFeature(s, n, k)
  {
    if k <= PlayerCount {
      HeroCellOfSource(s, n, k);
    } else if k < 28 {
      ExpectedFlagCells(s, n, k - 12);
    } else {
      ExpectedFlagCells(s, n, k - 27);
    }
  }

  /** A column selected from a frame holds what the frame holds under that name. */
  lemma SelectedLookup(frame: Record, j: nat)
    requires Select(frame, PreprocessFeatures).Success? && j < |PreprocessFeatures|
    ensures Lookup(Select(frame, PreprocessFeatures).value, PreprocessFeatures[j]) ==
            Lookup(frame, PreprocessFeatures[j])
  {
    LookupSelect(frame, PreprocessFeatures, PreprocessFeatures[j]);
  }

  /** Column `j` of the 60 is found in the preprocessed row with its expected cell. */
  lemma RowLookup(data: seq<Snapshot>, n: Reading, j: nat)
    requires |data| > 0 && WellFormed(data[0]) && Reads(data[0], n) && j < 60
    ensures PreprocessActive(data).Success?
    ensures Lookup(PreprocessActive(data).value, PreprocessFeatures[j]) == Some(ExpectedCell(data[0], n, j))
  {
    var s := data[0];
    PreprocessActiveRow(data, n);
    FrameColumn(s, n, j);
    PreprocessActiveSelects(data);
    PreprocessFeaturesLength();
    SelectedLookup(ActiveFrame(s).value, j);
  }

  /** The preprocessed row carries both teams' net worths. */
  lemma RowWorths(data: seq<Snapshot>, n: Reading)
    requires |data| > 0 && WellFormed(data[0]) && Reads(data[0], n)
    ensures PreprocessActive(data).Success?
    ensures Lookup(PreprocessActive(data).value, "net_worth_team_0") == Some(IntV(n.worth0))
    ensures Lookup(PreprocessActive(data).value, "net_worth_team_1") == Some(IntV(n.worth1))
  {
    PreprocessMatchColumn(1);
    PreprocessMatchColumn(2);
    RowLookup(data, n, 1);
    RowLookup(data, n, 2);
  }

  /** Every classifier column after `net_worth_diff` is found in the preprocessed row with its
      expected cell. */
  lemma PredictLookup(data: seq<Snapshot>, n: Reading, k: nat)
    requires |data| > 0 && WellFormed(data[0]) && Reads(data[0], n) && 1 <= k < 43
    ensures PreprocessActive(data).Success?
    ensures Lookup(PreprocessActive(data).value, PredictFeatures[k]) == Some(ExpectedFeature(data[0], n, k))
  {
    PredictColumnSource(k);
    RowLookup(data, n, PredictSource(k));
    CellOfSource(data[0], n, k);
  }

  /** `transform_to_predict` on a row whose net worths can be subtracted: the selection from the
      row with `net_worth_diff` set to the difference. */
  lemma TransformIs(row: Record, d: int, train: bool)
    requires Difference(row, "net_worth_team_1", "net_worth_team_0") == Success(d)
    ensures TransformToPredict(row, train) ==
            Select(Put(row, "net_worth_diff", IntV(d)), TrainFeatures(train))
  {
    assert AddDiff(row) == Success(Put(row, "net_worth_diff", IntV(d)));
  }

  /** Setting a name that is not in the row keeps every cell of the row and adds that one. */
  lemma PutNewKeeps(row: Record, name: string, v: Value, names: seq<string>, cells: seq<Value>)
    requires name !in Names(row) && |names| == |cells| && |names| > 0 && names[0] == name && cells[0] == v
    requires forall k :: 1 <= k < |names| ==> Lookup(row, names[k]) == Some(cells[k])
    ensures forall k :: 0 <= k < |names| ==> Lookup(Put(row, name, v), names[k]) == Some(cells[k])
  {
    forall k | 0 <= k < |names| ensures Lookup(Put(row, name, v), names[k]) == Some(cells[k]) {
      if k > 0 {
        assert names[k] in Names(row);
      }
    }
  }

  /** `transform_to_predict(row, False)` on a row with integer net worths, no `net_worth_diff`
      yet, and every other classifier column present: the 43 columns in order, the first being
      team 1's net worth minus team 0's. */
  lemma PredictFromRow(row: Record, w0: int, w1: int, cells: seq<Value>)
    requires "net_worth_diff" !in Names(row)
    requires Lookup(row, "net_worth_team_0") == Some(IntV(w0))
    requires Lookup(row, "net_worth_team_1") == Some(IntV(w1))
    requires |cells| == |PredictFeatures| && cells[0] == IntV(w1 - w0)
    requires forall k :: 1 <= k < |PredictFeatures| ==> Lookup(row, PredictFeatures[k]) == Some(cells[k])
    ensures TransformToPredict(row, false).Success?
    ensures |TransformToPredict(row, false).value| == |PredictFeatures|
    ensures forall k :: 0 <= k < |PredictFeatures| ==>
              TransformToPredict(row, false).value[k] == (PredictFeatures[k], cells[k])
  {
    PredictFeaturesLength();
    assert Difference(row, "net_worth_team_1", "net_worth_team_0") == Success(w1 - w0);
    TransformIs(row, w1 - w0, false);
    PutNewKeeps(row, "net_worth_diff", IntV(w1 - w0), PredictFeatures, cells);
    SelectFound(Put(row, "net_worth_diff", IntV(w1 - w0)), TrainFeatures(false), cells);
  }

  /** The preprocessed row of a well-formed snapshot holds every classifier column after
      `net_worth_diff`, with its expected cell. */
  lemma PredictInputs(data: seq<Snapshot>, n: Reading)
    requires |data| > 0 && WellFormed(data[0]) && Reads(data[0], n)
    ensures PreprocessActive(data).Success?
    ensures forall k :: 1 <= k < 43 ==>
              Lookup(PreprocessActive(data).value, PredictFeatures[k]) == Some(ExpectedFeature(data[0], n, k))
  {
    RowWorths(data, n);
    forall k | 1 <= k < 43
      ensures Lookup(PreprocessActive(data).value, PredictFeatures[k]) == Some(ExpectedFeature(data[0], n, k))
    {
      PredictLookup(data, n, k);
    }
  }

  /** The preprocessed row has neither `net_worth_diff` nor `winning_team`. */
  lemma RowLacksDiffAndLabel(data: seq<Snapshot>)
    requires PreprocessActive(data).Success?
    ensures "net_worth_diff" !in Names(PreprocessActive(data).value)
    ensures "winning_team" !in Names(PreprocessActive(data).value)
  {
    PreprocessFeaturesNoDiff();
  }

  /** `transform_to_predict(row, False)` on a row that holds the net worths and every other
      classifier column of a well-formed snapshot, but no `net_worth_diff` yet: the 43 columns
      in order, each holding its expected cell. */
  lemma PredictFromSnapshotRow(row: Record, s: Snapshot, n: Reading)
    requires WellFormed(s) && "net_worth_diff" !in Names(row)
    requires Lookup(row, "net_worth_team_0") == Some(IntV(n.worth0))
    requires Lookup(row, "net_worth_team_1") == Some(IntV(n.worth1))
    requires forall k :: 1 <= k < 43 ==> Lookup(row, PredictFeatures[k]) == Some(ExpectedFeature(s, n, k))
    ensures TransformToPredict(row, false).Success?
    ensures |TransformToPredict(row, false).value| == 43
    ensures forall k :: 0 <= k < 43 ==>
              TransformToPredict(row, false).value[k] == (PredictFeatures[k], ExpectedFeature(s, n, k))
  {
    PredictFeaturesLength();
    var cells := seq(43, k requires 0 <= k < 43 => ExpectedFeature(s, n, k));
    PredictFromRow(row, n.worth0, n.worth1, cells);
  }

  /** The classifier row of a well-formed snapshot: the 43 columns in their fixed order, each
      holding its expected cell. */
  lemma PredictRow(data: seq<Snapshot>, n: Reading)
    requires |data| > 0 && WellFormed(data[0]) && Reads(data[0], n)
    ensures PreprocessActive(data).Success?
    ensures TransformToPredict(PreprocessActive(data).value, false).Success?
    ensures |TransformToPredict(PreprocessActive(data).value, false).value| == 43
    ensures forall k :: 0 <= k < 43 ==>
              TransformToPredict(PreprocessActive(data).value, false).value[k] ==
              (PredictFeatures[k], ExpectedFeature(data[0], n, k))
  {
    RowWorths(data, n);
    PredictInputs(data, n);
    RowLacksDiffAndLabel(data);
    PredictFromSnapshotRow(PreprocessActive(data).value, data[0], n);
  }

  /** `transform_to_predict(row, True)` is `transform_to_predict(row, False)` with the
      `winning_team` column after the 43. Without that column it raises pandas' `KeyError`,
      which then lists `winning_team` after every other missing classifier column. */
  lemma TransformTrain(row: Record)
    ensures TransformToPredict(row, true) ==
            match TransformToPredict(row, false)
            case Success(out) =>
              if "winning_team" in Names(row) then Success(out + [("winning_team", Lookup(row, "winning_team").value)])
              else Failure(MissingColumns(["winning_team"]))
            case Failure(e) =>
              if e.MissingColumns? && "winning_team" !in Names(row) then Failure(MissingColumns(e.names + ["winning_team"]))
              else Failure(e)
  {
    var diff := Difference(row, "net_worth_team_1", "net_worth_team_0");
    if diff.Success? {
      var row' := Put(row, "net_worth_diff", IntV(diff.value));
      TransformIs(row, diff.value, true);
      TransformIs(row, diff.value, false);
      PredictFeaturesLength();
      PredictFeaturesNoLabel();
      assert "net_worth_diff" in Names(row') && !NonePresent(row', PredictFeatures);
      assert Lookup(row', "winning_team") == Lookup(row, "winning_team");
      SelectAppend(row', TrainFeatures(false), "winning_team");
    }
  }

  /** The live row has no `winning_team`: asking for the training columns of it raises a
      `KeyError` that names that column alone. */
  lemma LiveRowHasNoLabel(data: seq<Snapshot>, n: Reading)
    requires |data| > 0 && WellFormed(data[0]) && Reads(data[0], n)
    ensures PreprocessActive(data).Success?
    ensures TransformToPredict(PreprocessActive(data).value, true) == Failure(MissingColumns(["winning_team"]))
  {
    PredictRow(data, n);
    RowLacksDiffAndLabel(data);
    TransformTrain(PreprocessActive(data).value);
  }

  /** The heroes of players `lo` to `hi - 1`. */
  function HeroList(s: Snapshot, lo: nat, hi: nat): (heroes: seq<Value>)
    requires WellFormed(s) && 1 <= lo <= hi <= PlayerCount + 1
    ensures |heroes| == hi - lo
    ensures forall j :: 0 <= j < hi - lo ==> heroes[j] == HeroOf(s, lo + j)
  {
    seq(hi - lo, j requires 0 <= j < hi - lo => HeroOf(s, lo + j))
  }

  /** What `get_match_info` is meant to return for a well-formed snapshot: the match id, the
      two net worths, the score, the heroes of players 1 to 6 and those of players 6 to 12. */
  function ExpectedInfo(s: Snapshot, n: Reading): seq<Option<Info>>
    requires WellFormed(s)
  {
    [Some(Cell(Lookup(s.fields, "match_id").value)), Some(Cell(IntV(n.worth0))),
     Some(Cell(IntV(n.worth1))), Some(Cell(Lookup(s.fields, "match_score").value)),
     Some(Heroes(HeroList(s, 1, 7))), Some(Heroes(HeroList(s, 6, 13)))]
  }

  /** The second hero list starts at `hero_id_6`, so it has seven entries and repeats the last
      hero of the first list. */
  lemma SharedHero(s: Snapshot, n: Reading)
    requires WellFormed(s)
    ensures |ExpectedInfo(s, n)[4].value.ids| == 6 && |ExpectedInfo(s, n)[5].value.ids| == 7
    ensures ExpectedInfo(s, n)[4].value.ids[5] == ExpectedInfo(s, n)[5].value.ids[0] == HeroOf(s, 6)
  {
  }

  /** `hero_id_lo` to `hero_id_(hi-1)` read from a row that holds them. */
  lemma HeroRangeIs(row: Record, lo: nat, hi: nat, heroes: seq<Value>)
    requires lo <= hi && |heroes| == hi - lo
    requires forall j :: 0 <= j < hi - lo ==> Lookup(row, SuffixedName("hero_id", lo + j)) == Some(heroes[j])
    ensures HeroRange(row, lo, hi) == Success(heroes)
  {
    forall j | lo <= j < hi ensures SuffixedName("hero_id", j) in Names(row) {
      var k := j - lo;
      assert Lookup(row, SuffixedName("hero_id", lo + k)) == Some(heroes[k]);
    }
    var r := HeroRange(row, lo, hi).value;
    forall j | 0 <= j < hi - lo ensures r[j] == heroes[j] {
      assert Lookup(row, SuffixedName("hero_id", lo + j)) == Some(heroes[j]);
    }
    assert r == heroes;
  }

  /** The heroes of players `lo` to `hi - 1` read from a row that holds every hero. */
  lemma TeamHeroes(row: Record, s: Snapshot, lo: nat, hi: nat)
    requires WellFormed(s) && 1 <= lo <= hi <= PlayerCount + 1
    requires forall i :: 1 <= i <= PlayerCount ==> Lookup(row, SuffixedName("hero_id", i)) == Some(HeroOf(s, i))
    ensures HeroRange(row, lo, hi) == Success(HeroList(s, lo, hi))
  {
    var heroes := HeroList(s, lo, hi);
    forall j | 0 <= j < hi - lo ensures Lookup(row, SuffixedName("hero_id", lo + j)) == Some(heroes[j]) {
    }
    HeroRangeIs(row, lo, hi, heroes);
  }

  /** The preprocessed row holds the hero of each player under `hero_id_i`. */
  lemma RowHero(data: seq<Snapshot>, n: Reading, i: nat)
    requires |data| > 0 && WellFormed(data[0]) && Reads(data[0], n) && 1 <= i <= PlayerCount
    ensures PreprocessActive(data).Success?
    ensures Lookup(PreprocessActive(data).value, SuffixedName("hero_id", i)) == Some(HeroOf(data[0], i))
  {
    PredictHeroColumn(i);
    PredictLookup(data, n, i);
  }

  /** The preprocessed row holds the match id and score of the snapshot. */
  lemma RowMatchFields(data: seq<Snapshot>, n: Reading)
    requires |data| > 0 && WellFormed(data[0]) && Reads(data[0], n)
    ensures PreprocessActive(data).Success?
    ensures Lookup(PreprocessActive(data).value, "match_id") == Some(Lookup(data[0].fields, "match_id").value)
    ensures Lookup(PreprocessActive(data).value, "match_score") == Some(Lookup(data[0].fields, "match_score").value)
  {
    PreprocessMatchColumn(0);
    PreprocessMatchColumn(3);
    RowLookup(data, n, 0);
    RowLookup(data, n, 3);
  }

  /** `match_info.at[0, name]` of a column the row holds is the cell found under it. */
  lemma AtFound(row: Record, name: string, v: Value)
    requires Lookup(row, name) == Some(v)
    ensures At(row, name) == Success(v)
  {
  }

  /** `get_match_info` on a row whose four match cells and two hero lists are those of a
      well-formed snapshot. */
  lemma InfoOfRow(row: Record, s: Snapshot, n: Reading)
    requires WellFormed(s)
    requires At(row, "match_id") == Success(Lookup(s.fields, "match_id").value)
    requires At(row, "net_worth_team_0") == Success(IntV(n.worth0))
    requires At(row, "net_worth_team_1") == Success(IntV(n.worth1))
    requires At(row, "match_score") == Success(Lookup(s.fields, "match_score").value)
    requires HeroRange(row, 1, 7) == Success(HeroList(s, 1, 7))
    requires HeroRange(row, 6, 13) == Success(HeroList(s, 6, 13))
    ensures GetMatchInfo(Active(row)) == Success(ExpectedInfo(s, n))
  {
  }

  /** The preprocessed row holds every hero. */
  lemma RowHeroes(data: seq<Snapshot>, n: Reading)
    requires |data| > 0 && WellFormed(data[0]) && Reads(data[0], n)
    ensures PreprocessActive(data).Success?
    ensures forall i :: 1 <= i <= PlayerCount ==>
              Lookup(PreprocessActive(data).value, SuffixedName("hero_id", i)) == Some(HeroOf(data[0], i))
  {
    RowHero(data, n, 1);
    forall i | 1 <= i <= PlayerCount
      ensures Lookup(PreprocessActive(data).value, SuffixedName("hero_id", i)) == Some(HeroOf(data[0], i))
    {
      RowHero(data, n, i);
    }
  }

  /** The cells `get_match_info` reads from the preprocessed row of a well-formed snapshot. */
  lemma RowInfoParts(data: seq<Snapshot>, n: Reading)
    requires |data| > 0 && WellFormed(data[0]) && Reads(data[0], n)
    ensures PreprocessActive(data).Success?
    ensures At(PreprocessActive(data).value, "match_id") == Success(Lookup(data[0].fields, "match_id").value)
    ensures At(PreprocessActive(data).value, "net_worth_team_0") == Success(IntV(n.worth0))
    ensures At(PreprocessActive(data).value, "net_worth_team_1") == Success(IntV(n.worth1))
    ensures At(PreprocessActive(data).value, "match_score") == Success(Lookup(data[0].fields, "match_score").value)
    ensures HeroRange(PreprocessActive(data).value, 1, 7) == Success(HeroList(data[0], 1, 7))
    ensures HeroRange(PreprocessActive(data).value, 6, 13) == Success(HeroList(data[0], 6, 13))
  {
    var s := data[0];
    RowWorths(data, n);
    RowMatchFields(data, n);
    RowHeroes(data, n);
    var row := PreprocessActive(data).value;
    TeamHeroes(row, s, 1, 7);
    TeamHeroes(row, s, 6, 13);
    AtFound(row, "match_id", Lookup(s.fields, "match_id").value);
    AtFound(row, "net_worth_team_0", IntV(n.worth0));
    AtFound(row, "net_worth_team_1", IntV(n.worth1));
    AtFound(row, "match_score", Lookup(s.fields, "match_score").value);
  }

  /** A well-formed active match fetched with status 200 is shown as its match id, net worths,
      score and the two hero lists. */
  lemma MatchInfoRow(body: seq<Snapshot>, n: Reading)
    requires |body| > 0 && WellFormed(body[0]) && Reads(body[0], n)
    ensures GetMatchAccountId(200, body).Success?
    ensures GetMatchInfo(GetMatchAccountId(200, body).value) == Success(ExpectedInfo(body[0], n))
  {
    RowInfoParts(body, n);
    InfoOfRow(PreprocessActive(body).value, body[0], n);
  }
}
