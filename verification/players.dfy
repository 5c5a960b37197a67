/** Flattening of a snapshot's ordered player list into one record (tools.py, `get_players`). */
module Players {
  import opened Wrappers
  import opened Decimal
  import opened Records

  /** `f'{k}_{i}'`: a field name with a player's 1-based position appended. */
  function SuffixedName(k: string, i: nat): string {
    k + "_" + NatToString(i)
  }

  /** One player's fields, renamed with the player's position. */
  function Suffixed(p: Record, i: nat): (r: Record)
    ensures |r| == |p|
    ensures forall j :: 0 <= j < |p| ==> r[j] == (SuffixedName(p[j].0, i), p[j].1)
  {
    seq(|p|, j requires 0 <= j < |p| => (SuffixedName(p[j].0, i), p[j].1))
  }

  /** `for k, v in fields: d[k] = v`: assign each field into a dictionary in turn. */
  function PutAll(d: Record, fields: Record): Record
    decreases |fields|
  {
    if |fields| == 0 then d else PutAll(Put(d, fields[0].0, fields[0].1), fields[1..])
  }

  /** `get_players(players)`: for each player, numbered from 1, assign every field `k` of the
      player to the key `k_i` of one result dictionary. */
  function GetPlayers(players: seq<Record>): Record {
    if |players| == 0 then []
    else PutAll(GetPlayers(players[..|players| - 1]), Suffixed(players[|players| - 1], |players|))
  }

  /** The layout `get_players` is meant to produce: every player's renamed fields in order. */
  function Flatten(players: seq<Record>): (r: Record)
    ensures |r| == KeyCount(players)
  {
    if |players| == 0 then []
    else Flatten(players[..|players| - 1]) + Suffixed(players[|players| - 1], |players|)
  }

  /** The total number of fields over all players. */
  function KeyCount(players: seq<Record>): nat {
    if |players| == 0 then 0 else KeyCount(players[..|players| - 1]) + |players[|players| - 1]|
  }

  /** Each JSON player object has distinct keys. */
  predicate PlayersWellFormed(players: seq<Record>) {
    forall i :: 0 <= i < |players| ==> DistinctNames(players[i])
  }

  /** The decimal position never contains `_`, so the last `_` of a renamed field separates the
      original name from the position: renaming is injective. */
  lemma SuffixedNameInjective(k: string, i: nat, k': string, j: nat)
    requires SuffixedName(k, i) == SuffixedName(k', j)
    ensures k == k' && i == j
  {
    var s := SuffixedName(k, i);
    var di, dj := NatToString(i), NatToString(j);
    TrailingOfSuffix(k, di);
    TrailingOfSuffix(k', dj);
    assert k == s[..|k|] == k';
    assert di == s[|k| + 1..] == dj;
    NatToStringInjective(i, j);
  }

  /** The number of characters after the last `_` of a name. */
  function TrailingLength(s: string): (n: nat)
    ensures n <= |s|
  {
    if |s| == 0 || s[|s| - 1] == '_' then 0 else 1 + TrailingLength(s[..|s| - 1])
  }

  /** Appending `_` and a run of digits makes the digits the part after the last `_`. */
  lemma {:induction false} TrailingOfSuffix(k: string, d: string)
    requires AllDigits(d)
    ensures TrailingLength(k + "_" + d) == |d|
    decreases |d|
  {
    if |d| > 0 {
      var s := k + "_" + d;
      assert s[..|s| - 1] == k + "_" + d[..|d| - 1];
      TrailingOfSuffix(k, d[..|d| - 1]);
    }
  }

  /** Looking up a renamed field in one renamed player finds the player's field when the
      positions agree, and nothing otherwise. */
  lemma SuffixedLookup(p: Record, n: nat, k: string, i: nat)
    ensures Lookup(Suffixed(p, n), SuffixedName(k, i)) == if i == n then Lookup(p, k) else None
  {
    var s := Suffixed(p, n);
    var name := SuffixedName(k, i);
    if name in Names(s) {
      var j := FirstIndex(s, name);
      SuffixedNameInjective(p[j].0, n, k, i);
      FirstIndexFirst(s, name);
      FirstIndexIs(p, k, j);
    }
  }

  /** Field `k` of player `i` (1-based) is found under `k_i` in the flat layout, and a name
      with a position outside the player list is not found at all. */
  lemma {:induction false} FlattenLookup(players: seq<Record>, k: string, i: nat)
    ensures Lookup(Flatten(players), SuffixedName(k, i)) ==
            if 1 <= i <= |players| then Lookup(players[i - 1], k) else None
    decreases |players|
  {
    var n := |players|;
    if n > 0 {
      var init := players[..n - 1];
      var name := SuffixedName(k, i);
      FlattenLookup(init, k, i);
      LookupConcat(Flatten(init), Suffixed(players[n - 1], n), name);
      SuffixedLookup(players[n - 1], n, k, i);
      if 1 <= i < n {
        assert init[i - 1] == players[i - 1];
      }
    }
  }

  /** None of the fields' names is already in `d`. */
  predicate Fresh(d: Record, fields: Record) {
    forall j :: 0 <= j < |fields| ==> fields[j].0 !in Names(d)
  }

  /** Assigning fields whose names are new and distinct appends them in order. */
  lemma {:induction false} PutAllFresh(d: Record, fields: Record)
    requires DistinctNames(fields) && Fresh(d, fields)
    ensures PutAll(d, fields) == d + fields
    decreases |fields|
  {
    if |fields| > 0 {
      PutAllStep(d, fields);
      FreshAfterAppend(d, fields);
      PutAllFresh(d + [fields[0]], fields[1..]);
      AppendHead(d, fields);
    }
  }

  lemma AppendHead(d: Record, fields: Record)
    requires |fields| > 0
    ensures d + [fields[0]] + fields[1..] == d + fields
  {
  }

  /** The first assignment of a fresh name appends it. */
  lemma PutAllStep(d: Record, fields: Record)
    requires |fields| > 0 && fields[0].0 !in Names(d)
    ensures PutAll(d, fields) == PutAll(d + [fields[0]], fields[1..])
  {
  }

  /** The names still to be assigned stay fresh once the first one has been appended. */
  lemma FreshAfterAppend(d: Record, fields: Record)
    requires |fields| > 0 && DistinctNames(fields) && Fresh(d, fields)
    ensures DistinctNames(fields[1..]) && Fresh(d + [fields[0]], fields[1..])
  {
    assert Names(d + [fields[0]]) == Names(d) + [fields[0].0];
    forall j | 0 <= j < |fields| - 1 ensures fields[1..][j].0 !in Names(d + [fields[0]]) {
      assert fields[1..][j] == fields[j + 1];
    }
  }

  /** Renaming one player with distinct keys keeps the keys distinct. */
  lemma SuffixedDistinct(p: Record, n: nat)
    requires DistinctNames(p)
    ensures DistinctNames(Suffixed(p, n))
  {
    forall a, b | 0 <= a < b < |p| ensures Suffixed(p, n)[a].0 != Suffixed(p, n)[b].0 {
      if Suffixed(p, n)[a].0 == Suffixed(p, n)[b].0 {
        SuffixedNameInjective(p[a].0, n, p[b].0, n);
      }
    }
  }

  /** With distinct keys per player no assignment of `get_players` overwrites another: the result
      is the flat layout, its keys are distinct, and it has one entry per player field. */
  lemma {:induction false} GetPlayersFlat(players: seq<Record>)
    requires PlayersWellFormed(players)
    ensures GetPlayers(players) == Flatten(players)
    ensures DistinctNames(GetPlayers(players))
    ensures |GetPlayers(players)| == KeyCount(players)
    decreases |players|
  {
    var n := |players|;
    if n > 0 {
      var init := players[..n - 1];
      var last := Suffixed(players[n - 1], n);
      GetPlayersFlat(init);
      SuffixedDistinct(players[n - 1], n);
      forall j | 0 <= j < |last| ensures last[j].0 !in Names(Flatten(init)) {
        FlattenLookup(init, players[n - 1][j].0, n);
      }
      PutAllFresh(Flatten(init), last);
      var flat := Flatten(players);
      forall a, b | 0 <= a < b < |flat| ensures flat[a].0 != flat[b].0 {
        var m := |Flatten(init)|;
        if b >= m && a < m {
          assert flat[a].0 == Names(Flatten(init))[a];
          assert flat[b] == last[b - m];
        }
      }
    }
  }

  /** `k_i` of the flattened players holds player `i`'s field `k`; in particular `hero_id_i` is
      `players[i - 1]['hero_id']`. */
  lemma GetPlayersLookup(players: seq<Record>, k: string, i: nat)
    requires PlayersWellFormed(players)
    ensures Lookup(GetPlayers(players), SuffixedName(k, i)) ==
            if 1 <= i <= |players| then Lookup(players[i - 1], k) else None
  {
    GetPlayersFlat(players);
    FlattenLookup(players, k, i);
  }

  /** A renamed field ends in a digit. */
  lemma SuffixedNameLast(k: string, i: nat)
    ensures IsDigit(SuffixedName(k, i)[|SuffixedName(k, i)| - 1])
  {
    var d := NatToString(i);
    assert SuffixedName(k, i)[|SuffixedName(k, i)| - 1] == d[|d| - 1];
  }
}
