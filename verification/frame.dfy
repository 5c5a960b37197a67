/** What the DataFrame built by `preprocess_active` (tools.py lines 57-68) holds for a snapshot
    as the feed sends it. */
module Frame {
  import opened Wrappers
  import opened Bits
  import opened Records
  import opened Objectives
  import opened Players
  import opened Columns
  import opened Preprocess

  /** The integers a snapshot carries in its two objective masks and its two net worths. */
  datatype Reading = Reading(mask0: int, mask1: int, worth0: int, worth1: int)
  {
    /** The mask of team `t`. */
    function Mask(t: nat): int {
      if t == 0 then mask0 else mask1
    }
  }

  /** The snapshot's masks and net worths are integer fields holding the values of `n`. */
  predicate Reads(s: Snapshot, n: Reading) {
    && Lookup(s.fields, "objectives_mask_team0") == Some(IntV(n.mask0))
    && Lookup(s.fields, "objectives_mask_team1") == Some(IntV(n.mask1))
    && Lookup(s.fields, "net_worth_team_0") == Some(IntV(n.worth0))
    && Lookup(s.fields, "net_worth_team_1") == Some(IntV(n.worth1))
  }

  /** A snapshot as the feed sends it, short of the player count: the match id and score present,
      each of the first twelve players with an account id and a hero id, distinct keys within
      each player, and no top-level field or player key whose name clashes with a generated
      column. The first player's keys become `<key>_1`, so a structure name there would repeat a
      team-1 flag column, and `net_worth_team` would repeat `net_worth_team_1`. */
  predicate Shaped(s: Snapshot) {
    && PlayersWellFormed(s.players)
    && "match_id" in Names(s.fields) && "match_score" in Names(s.fields)
    && (forall i :: 0 <= i < |s.players| && i < PlayerCount ==>
          "account_id" in Names(s.players[i]) && "hero_id" in Names(s.players[i]))
    && (forall i :: 1 <= i <= PlayerCount ==>
          SuffixedName("account_id", i) !in Names(s.fields) && SuffixedName("hero_id", i) !in Names(s.fields))
    && (forall b, t :: 0 <= b < StructureCount && 0 <= t <= 1 ==>
          SuffixedName(StructureNames[b], t) !in Names(s.fields))
    && (|s.players| > 0 ==>
          forall b :: 0 <= b < StructureCount ==> StructureNames[b] !in Names(s.players[0]))
    && (|s.players| > 0 ==> "net_worth_team" !in Names(s.players[0]))
  }

  /** A well-shaped snapshot of a match with at least twelve players. */
  predicate WellFormed(s: Snapshot) {
    Shaped(s) && |s.players| >= PlayerCount
  }

  /** Each flag column of a team is found under its renamed structure name, and no column of
      that team carries another team's suffix. */
  lemma FlagColumnsLookup(mask: int, team: nat, b: nat, t: nat)
    requires b < StructureCount
    ensures Lookup(FlagColumns(mask, team), SuffixedName(StructureNames[b], t)) ==
            if t == team then Some(BoolV(Bit(mask, b))) else None
  {
    var cols := FlagColumns(mask, team);
    var name := SuffixedName(StructureNames[b], t);
    if name in Names(cols) {
      var j := FirstIndex(cols, name);
      SuffixedNameInjective(StructureNames[j], team, StructureNames[b], t);
      StructureNamesDistinct();
      assert j == b;
    }
  }

  /** An account or hero column is never a flag column. */
  lemma FlagColumnsNoPlayer(mask: int, team: nat, k: string, i: nat)
    requires k == "account_id" || k == "hero_id"
    ensures SuffixedName(k, i) !in Names(FlagColumns(mask, team))
  {
    var cols := FlagColumns(mask, team);
    if SuffixedName(k, i) in Names(cols) {
      var j := FirstIndex(cols, SuffixedName(k, i));
      SuffixedNameInjective(StructureNames[j], team, k, i);
    }
  }

  /** The frame of `preprocess_active` before `net_worth_diff` is added. */
  function BaseFrame(s: Snapshot, n: Reading): Record {
    s.fields + GetPlayers(s.players) + FlagColumns(n.mask0, 0) + FlagColumns(n.mask1, 1)
  }

  /** A field of the snapshot is found in the base frame with its own value. */
  lemma BaseFrameField(s: Snapshot, n: Reading, name: string)
    requires name in Names(s.fields)
    ensures Lookup(BaseFrame(s, n), name) == Lookup(s.fields, name)
  {
    var p := GetPlayers(s.players);
    var f0 := FlagColumns(n.mask0, 0);
    var f1 := FlagColumns(n.mask1, 1);
    LookupConcat(s.fields, p, name);
    LookupConcat(s.fields + p, f0, name);
    LookupConcat(s.fields + p + f0, f1, name);
  }

  /** `k_i` for the account and hero of each of the first twelve players is found in the base
      frame with player `i`'s value; for a position past the end of the player list it is
      missing. */
  lemma BaseFramePlayer(s: Snapshot, n: Reading, k: string, i: nat)
    requires Shaped(s) && (k == "account_id" || k == "hero_id") && 1 <= i <= PlayerCount
    ensures i <= |s.players| ==>
              Lookup(s.players[i - 1], k).Some?
              && Lookup(BaseFrame(s, n), SuffixedName(k, i)) == Lookup(s.players[i - 1], k)
    ensures i > |s.players| ==> SuffixedName(k, i) !in Names(BaseFrame(s, n))
  {
    var name := SuffixedName(k, i);
    var p := GetPlayers(s.players);
    var f0 := FlagColumns(n.mask0, 0);
    var f1 := FlagColumns(n.mask1, 1);
    GetPlayersLookup(s.players, k, i);
    FlagColumnsNoPlayer(n.mask0, 0, k, i);
    FlagColumnsNoPlayer(n.mask1, 1, k, i);
    LookupConcat(s.fields, p, name);
    LookupConcat(s.fields + p, f0, name);
    LookupConcat(s.fields + p + f0, f1, name);
  }

  /** A name missing from the fields and the players is looked up in the flag columns. */
  lemma LookupPastPlayers(fields: Record, p: Record, f0: Record, f1: Record, name: string)
    requires name !in Names(fields) && name !in Names(p)
    ensures Lookup(fields + p + f0 + f1, name) ==
            if name in Names(f0) then Lookup(f0, name) else Lookup(f1, name)
  {
    LookupConcat(fields, p, name);
    LookupConcat(fields + p, f0, name);
    LookupConcat(fields + p + f0, f1, name);
  }

  /** The flag of bit `b` for team `t` is found in the base frame and is bit `b` of that team's
      mask. */
  lemma BaseFrameFlag(s: Snapshot, n: Reading, b: nat, t: nat)
    requires Shaped(s) && b < StructureCount && t <= 1
    ensures Lookup(BaseFrame(s, n), SuffixedName(StructureNames[b], t)) == Some(BoolV(Bit(n.Mask(t), b)))
  {
    var name := SuffixedName(StructureNames[b], t);
    GetPlayersLookup(s.players, StructureNames[b], t);
    FlagColumnsLookup(n.mask0, 0, b, t);
    FlagColumnsLookup(n.mask1, 1, b, t);
    LookupPastPlayers(s.fields, GetPlayers(s.players), FlagColumns(n.mask0, 0), FlagColumns(n.mask1, 1), name);
  }

  lemma FieldsFirst(fields: Record, p: Record, name: string)
    requires Lookup(fields, name).Some?
    ensures Lookup(fields + p, name) == Lookup(fields, name)
  {
    LookupConcat(fields, p, name);
  }

  /** The steps of lines 64-68 on a frame whose masks and net worths are integers. */
  lemma AddFlagsAndDiffIs(frame: Record, n: Reading)
    requires Lookup(frame, "objectives_mask_team0") == Some(IntV(n.mask0))
    requires Lookup(frame, "objectives_mask_team1") == Some(IntV(n.mask1))
    requires Lookup(frame, "net_worth_team_0") == Some(IntV(n.worth0))
    requires Lookup(frame, "net_worth_team_1") == Some(IntV(n.worth1))
    ensures AddFlagsAndDiff(frame) ==
            Success(Put(frame + FlagColumns(n.mask0, 0) + FlagColumns(n.mask1, 1),
                        "net_worth_diff", IntV(n.worth1 - n.worth0)))
  {
    var flags := FlagColumns(n.mask0, 0) + FlagColumns(n.mask1, 1);
    FieldsFirst(frame, flags, "net_worth_team_0");
    FieldsFirst(frame, flags, "net_worth_team_1");
    assert frame + FlagColumns(n.mask0, 0) + FlagColumns(n.mask1, 1) == frame + flags;
  }

  /** The frame `preprocess_active` builds: the base frame with `net_worth_diff` added. */
  lemma ActiveFrameIs(s: Snapshot, n: Reading)
    requires Reads(s, n)
    ensures ActiveFrame(s) == Success(Put(BaseFrame(s, n), "net_worth_diff", IntV(n.worth1 - n.worth0)))
  {
    var p := GetPlayers(s.players);
    FieldsFirst(s.fields, p, "objectives_mask_team0");
    FieldsFirst(s.fields, p, "objectives_mask_team1");
    FieldsFirst(s.fields, p, "net_worth_team_0");
    FieldsFirst(s.fields, p, "net_worth_team_1");
    AddFlagsAndDiffIs(s.fields + p, n);
  }

  /** A record equal to the result of `Put` holds the value put. */
  lemma PutFound(r: Record, name: string, v: Value, r': Record)
    requires r' == Put(r, name, v)
    ensures Lookup(r', name) == Some(v)
  {
  }

  /** The frame is built without error, and its `net_worth_diff` is team 1's net worth minus
      team 0's. */
  lemma ActiveFrameDiff(s: Snapshot, n: Reading)
    requires Reads(s, n)
    ensures ActiveFrame(s).Success?
    ensures Lookup(ActiveFrame(s).value, "net_worth_diff") == Some(IntV(n.worth1 - n.worth0))
  {
    ActiveFrameIs(s, n);
    PutFound(BaseFrame(s, n), "net_worth_diff", IntV(n.worth1 - n.worth0), ActiveFrame(s).value);
  }

  /** Every other column of the frame is the base frame's. */
  lemma ActiveFrameLookup(s: Snapshot, n: Reading, name: string)
    requires Reads(s, n) && name != "net_worth_diff"
    ensures ActiveFrame(s).Success?
    ensures Lookup(ActiveFrame(s).value, name) == Lookup(BaseFrame(s, n), name)
  {
    ActiveFrameIs(s, n);
  }

  /** A match field is found in the frame with its own value. */
  lemma FrameField(s: Snapshot, n: Reading, name: string)
    requires Reads(s, n) && name in Names(s.fields) && name != "net_worth_diff"
    ensures ActiveFrame(s).Success?
    ensures Lookup(ActiveFrame(s).value, name) == Lookup(s.fields, name)
  {
    ActiveFrameLookup(s, n, name);
    BaseFrameField(s, n, name);
  }

  /** The account or hero of a listed player among the first twelve is found in the frame under
      its renamed column; for a position past the end of the player list the column is missing. */
  lemma FramePlayer(s: Snapshot, n: Reading, k: string, i: nat)
    requires Shaped(s) && Reads(s, n) && (k == "account_id" || k == "hero_id") && 1 <= i <= PlayerCount
    ensures ActiveFrame(s).Success?
    ensures i <= |s.players| ==>
              Lookup(s.players[i - 1], k).Some?
              && Lookup(ActiveFrame(s).value, SuffixedName(k, i)) == Lookup(s.players[i - 1], k)
    ensures i > |s.players| ==> SuffixedName(k, i) !in Names(ActiveFrame(s).value)
  {
    SuffixedNameLast(k, i);
    ActiveFrameLookup(s, n, SuffixedName(k, i));
    BaseFramePlayer(s, n, k, i);
  }

  /** The flag of bit `b` for team `t` is found in the frame and is bit `b` of that team's mask. */
  lemma FrameFlag(s: Snapshot, n: Reading, b: nat, t: nat)
    requires Shaped(s) && Reads(s, n) && b < StructureCount && t <= 1
    ensures ActiveFrame(s).Success?
    ensures Lookup(ActiveFrame(s).value, SuffixedName(StructureNames[b], t)) == Some(BoolV(Bit(n.Mask(t), b)))
  {
    SuffixedNameLast(StructureNames[b], t);
    ActiveFrameLookup(s, n, SuffixedName(StructureNames[b], t));
    BaseFrameFlag(s, n, b, t);
  }
}
