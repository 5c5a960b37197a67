/** From one active-matches response to the 60-column match row and the classifier's feature row
    (tools.py: `preprocess_active`, `transform_to_predict`, `get_match_account_id`,
    `get_match_info`). */
module Preprocess {
  import opened Wrappers
  import opened Bits
  import opened Records
  import opened Objectives
  import opened Players
  import opened Columns

  /** One element of the active-matches response: its top-level fields other than `players`,
      and the ordered list of player objects. */
  datatype Snapshot = Snapshot(fields: Record, players: seq<Record>)

  /** What `get_match_account_id` hands back: the HTTP status itself when it is not 200, `None`
      when the feed lists no active match, and otherwise the preprocessed match row. */
  datatype Fetched = StatusCode(code: int) | NoMatch | Active(row: Record)

  /** `extract_objectives(mask)` as DataFrame columns renamed by `add_suffix('_<team>')`. */
  function FlagColumns(mask: int, team: nat): (r: Record)
    ensures |r| == StructureCount
    ensures forall b :: 0 <= b < StructureCount ==>
              r[b] == (SuffixedName(StructureNames[b], team), BoolV(Bit(mask, b)))
  {
    var flags := ExtractObjectives(mask);
    ExtractObjectivesBits(mask);
    seq(StructureCount, b requires 0 <= b < StructureCount =>
      (SuffixedName(flags[b].0, team), BoolV(flags[b].1)))
  }

  /** The DataFrame of `preprocess_active` just before its columns are selected: the snapshot's
      fields and flattened players, then both teams' flags, then `net_worth_diff`. */
  function ActiveFrame(s: Snapshot): Result<Record> {
    AddFlagsAndDiff(s.fields + GetPlayers(s.players))
  }

  /** Lines 64-68 of tools.py: append the two teams' flag columns, then `net_worth_diff`. */
  function AddFlagsAndDiff(frame: Record): Result<Record> {
    var mask0 :- Number(frame, "objectives_mask_team0");
    var mask1 :- Number(frame, "objectives_mask_team1");
    var frame := frame + FlagColumns(mask0, 0) + FlagColumns(mask1, 1);
    var diff :- Difference(frame, "net_worth_team_1", "net_worth_team_0");
    Success(Put(frame, "net_worth_diff", IntV(diff)))
  }

  /** `preprocess_active(data)`: only `data[0]` is used; the result is its row restricted to
      `PreprocessFeatures`, or the exception raised on the way. */
  function PreprocessActive(data: seq<Snapshot>): (r: Result<Record>)
    ensures |data| == 0 ==> r == Failure(IndexError)
    ensures r.Success? ==> Names(r.value) == PreprocessFeatures
  {
    if |data| == 0 then Failure(IndexError)
    else
      var frame :- ActiveFrame(data[0]);
      Select(frame, PreprocessFeatures)
  }

  /** Line 11 of tools.py: `net_worth_diff` set to team 1's net worth minus team 0's; every other
      column keeps its cell, and a failed subtraction is the exception it raises. */
  function AddDiff(row: Record): (r: Result<Record>)
    ensures var d := Difference(row, "net_worth_team_1", "net_worth_team_0");
            && (r.Success? <==> d.Success?)
            && (r.Failure? ==> r.error == d.error)
            && (r.Success? ==> Lookup(r.value, "net_worth_diff") == Some(IntV(d.value)))
    ensures r.Success? ==> forall n :: n != "net_worth_diff" ==> Lookup(r.value, n) == Lookup(row, n)
  {
    var diff :- Difference(row, "net_worth_team_1", "net_worth_team_0");
    Success(Put(row, "net_worth_diff", IntV(diff)))
  }

  /** The columns `transform_to_predict` keeps: the classifier's, then `winning_team` when
      training. */
  function TrainFeatures(train: bool): seq<string> {
    if train then PredictFeatures + ["winning_team"] else PredictFeatures
  }

  /** `transform_to_predict(row, train)`: add `net_worth_diff` = team 1 minus team 0 and keep the
      classifier columns, followed by `winning_team` when training. */
  function TransformToPredict(row: Record, train: bool): (r: Result<Record>)
    ensures r.Success? ==> |r.value| == |TrainFeatures(train)|
  {
    var row :- AddDiff(row);
    Select(row, TrainFeatures(train))
  }

  /** `get_match_account_id` after the HTTP request, from the response's status and body.
      What the preprocessed row then holds is stated by `Features.MatchInfoRow`. */
  function GetMatchAccountId(status: int, body: seq<Snapshot>): (r: Result<Fetched>)
    ensures status != 200 ==> r == Success(StatusCode(status))
    ensures status == 200 && |body| == 0 ==> r == Success(NoMatch)
    ensures status == 200 && |body| > 0 ==>
              (r.Success? <==> PreprocessActive(body).Success?)
              && (r.Success? ==> r.value == Active(PreprocessActive(body).value))
  {
    if status != 200 then Success(StatusCode(status))
    else if |body| == 0 then Success(NoMatch)
    else
      var row :- PreprocessActive(body);
      Success(Active(row))
  }

  /** Only the first active match of the response is looked at. */
  lemma PreprocessActiveFirst(data: seq<Snapshot>)
    requires |data| > 0
    ensures PreprocessActive(data) == PreprocessActive([data[0]])
  {
  }

  /** A cell of the tuple `get_match_info` returns. */
  datatype Info = Cell(v: Value) | Heroes(ids: seq<Value>)

  /** `[match_info.at[0, f'hero_id_{i}'] for i in range(lo, hi)]` */
  function HeroRange(row: Record, lo: nat, hi: nat): (r: Result<seq<Value>>)
    requires lo <= hi
    ensures r.Success? <==> forall j :: lo <= j < hi ==> SuffixedName("hero_id", j) in Names(row)
    ensures r.Success? ==> |r.value| == hi - lo
    ensures r.Success? ==>
              forall j :: 0 <= j < hi - lo ==> Lookup(row, SuffixedName("hero_id", lo + j)) == Some(r.value[j])
    decreases hi - lo
  {
    if lo == hi then Success([])
    else
      var name := SuffixedName("hero_id", lo);
      if name !in Names(row) then Failure(KeyError(name))
      else
        var rest :- HeroRange(row, lo + 1, hi);
        var r := [Lookup(row, name).value] + rest;
        assert forall j :: 1 <= j < hi - lo ==> r[j] == rest[j - 1];
        Success(r)
  }

  /** `match_info.at[0, name]` */
  function At(row: Record, name: string): Result<Value> {
    if name in Names(row) then Success(Lookup(row, name).value) else Failure(KeyError(name))
  }

  /** `get_match_info(match_info)`: match id, both net worths, the score, the heroes of team 0
      (`hero_id_1` to `hero_id_6`) and of team 1 (`hero_id_6` to `hero_id_12`); a list of six
      `None` values when there is no match; an `AttributeError` when handed a status code. */
  function GetMatchInfo(m: Fetched): (r: Result<seq<Option<Info>>>)
    ensures r.Success? ==> |r.value| == 6
    ensures m.NoMatch? ==> r == Success([None, None, None, None, None, None])
    ensures m.StatusCode? ==> r == Failure(AttributeError)
  {
    match m
    case StatusCode(_) => Failure(AttributeError)
    case NoMatch => Success([None, None, None, None, None, None])
    case Active(row) =>
      var matchId :- At(row, "match_id");
      var worth0 :- At(row, "net_worth_team_0");
      var worth1 :- At(row, "net_worth_team_1");
      var score :- At(row, "match_score");
      var heroes0 :- HeroRange(row, 1, 7);
      var heroes1 :- HeroRange(row, 6, 13);
      Success([Some(Cell(matchId)), Some(Cell(worth0)), Some(Cell(worth1)), Some(Cell(score)),
               Some(Heroes(heroes0)), Some(Heroes(heroes1))])
  }
}
