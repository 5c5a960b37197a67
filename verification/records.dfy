/** One row of a pandas DataFrame, or one JSON object: an ordered sequence of named cells.
    A cell holds an integer, a boolean or a string. There is no null cell, so JSON nulls in a
    snapshot are outside the model (see the README's list of what is left out). */
module Records {
  import opened Wrappers

  datatype Value = IntV(i: int) | BoolV(b: bool) | StrV(s: string)

  type Record = seq<(string, Value)>

  /** The column names, in order. */
  function Names(r: Record): (ns: seq<string>)
    ensures |ns| == |r|
    ensures forall i :: 0 <= i < |r| ==> ns[i] == r[i].0
  {
    seq(|r|, i requires 0 <= i < |r| => r[i].0)
  }

  predicate DistinctNames(r: Record) {
    forall i, j :: 0 <= i < j < |r| ==> r[i].0 != r[j].0
  }

  /** The position of the first column with the given name. */
  function FirstIndex(r: Record, name: string): (i: nat)
    requires name in Names(r)
    ensures i < |r| && r[i].0 == name
  {
    if r[0].0 == name then 0
    else
      assert Names(r[1..]) == Names(r)[1..];
      1 + FirstIndex(r[1..], name)
  }

  /** No column before the first one with a name has that name. */
  lemma {:induction false} FirstIndexFirst(r: Record, name: string)
    requires name in Names(r)
    ensures forall j :: 0 <= j < FirstIndex(r, name) ==> r[j].0 != name
  {
    if r[0].0 != name {
      assert Names(r[1..]) == Names(r)[1..];
      FirstIndexFirst(r[1..], name);
      forall j | 0 < j < FirstIndex(r, name) ensures r[j].0 != name {
        assert r[j] == r[1..][j - 1];
      }
    }
  }

  /** The first column with a name is the one before which no column has that name. */
  lemma FirstIndexIs(r: Record, name: string, i: nat)
    requires i < |r| && r[i].0 == name
    requires forall j :: 0 <= j < i ==> r[j].0 != name
    ensures name in Names(r) && FirstIndex(r, name) == i
  {
    assert Names(r)[i] == name;
    FirstIndexFirst(r, name);
  }

  /** `row[name]`: the cell of the first column with that name, if there is one. */
  function Lookup(r: Record, name: string): Option<Value> {
    if name in Names(r) then Some(r[FirstIndex(r, name)].1) else None
  }

  /** Looking a name up in two records laid side by side searches the first one, then the second. */
  lemma LookupConcat(a: Record, b: Record, name: string)
    ensures name in Names(a + b) <==> name in Names(a) || name in Names(b)
    ensures Lookup(a + b, name) == if name in Names(a) then Lookup(a, name) else Lookup(b, name)
  {
    assert Names(a + b) == Names(a) + Names(b);
    if name in Names(a) {
      FirstIndexFirst(a, name);
      FirstIndexIs(a + b, name, FirstIndex(a, name));
    } else if name in Names(b) {
      var k := FirstIndex(b, name);
      FirstIndexFirst(b, name);
      forall j | 0 <= j < |a| + k ensures (a + b)[j].0 != name {
        if j < |a| {
          assert Names(a)[j] == a[j].0;
        } else {
          assert (a + b)[j] == b[j - |a|];
        }
      }
      FirstIndexIs(a + b, name, |a| + k);
    }
  }

  /** `row[name] = v`: overwrite the first column of that name in place, or append a new column. */
  function Put(r: Record, name: string, v: Value): (r': Record)
    ensures Lookup(r', name) == Some(v)
    ensures forall n :: n != name ==> Lookup(r', n) == Lookup(r, n)
    ensures name !in Names(r) ==> r' == r + [(name, v)]
  {
    if name in Names(r) then
      var i := FirstIndex(r, name);
      var r' := r[i := (name, v)];
      assert Names(r') == Names(r);
      FirstIndexFirst(r, name);
      FirstIndexIs(r', name, i);
      assert forall n :: n != name ==> Lookup(r', n) == Lookup(r, n) by {
        forall n | n != name && n in Names(r) ensures Lookup(r', n) == Lookup(r, n) {
          FirstIndexFirst(r, n);
          FirstIndexIs(r', n, FirstIndex(r, n));
        }
      }
      r'
    else
      var r' := r + [(name, v)];
      assert Names(r') == Names(r) + [name];
      assert forall j :: 0 <= j < |r| ==> r'[j].0 == Names(r)[j];
      FirstIndexIs(r', name, |r|);
      assert forall n :: n != name ==> Lookup(r', n) == Lookup(r, n) by {
        forall n | n != name ensures Lookup(r', n) == Lookup(r, n) {
          LookupConcat(r, [(name, v)], n);
        }
      }
      r'
  }

  predicate AllPresent(r: Record, names: seq<string>) {
    forall i :: 0 <= i < |names| ==> names[i] in Names(r)
  }

  predicate NonePresent(r: Record, names: seq<string>) {
    forall i :: 0 <= i < |names| ==> names[i] !in Names(r)
  }

  /** The listed columns of a row that holds every one of them, in the listed order. */
  function Pick(r: Record, names: seq<string>): (out: Record)
    requires AllPresent(r, names)
    ensures Names(out) == names
    ensures forall i :: 0 <= i < |names| ==> Lookup(r, names[i]) == Some(out[i].1)
    decreases |names|
  {
    if |names| == 0 then []
    else
      var rest := Pick(r, names[1..]);
      var out := [(names[0], Lookup(r, names[0]).value)] + rest;
      assert forall i :: 1 <= i < |names| ==> out[i] == rest[i - 1] && names[i] == names[1..][i - 1];
      out
  }

  /** The listed names the row lacks, each once, in the order in which they are first listed:
      the list a pandas `KeyError` reports. */
  function Missing(r: Record, names: seq<string>): (m: seq<string>)
    ensures AllPresent(r, names) ==> m == []
    decreases |names|
  {
    if |names| == 0 then []
    else
      var init := Missing(r, names[..|names| - 1]);
      var last := names[|names| - 1];
      assert names == names[..|names| - 1] + [last];
      if last in Names(r) || last in init then init else init + [last]
  }

  /** A name is reported missing exactly when it is listed and the row lacks it. */
  lemma {:induction false} MissingMember(r: Record, names: seq<string>, x: string)
    ensures x in Missing(r, names) <==> x in names && x !in Names(r)
    decreases |names|
  {
    if |names| > 0 {
      var init := names[..|names| - 1];
      MissingMember(r, init, x);
      assert names == init + [names[|names| - 1]];
    }
  }

  /** No name is reported missing twice. */
  lemma {:induction false} MissingDistinct(r: Record, names: seq<string>)
    ensures forall i, j :: 0 <= i < j < |Missing(r, names)| ==> Missing(r, names)[i] != Missing(r, names)[j]
    decreases |names|
  {
    if |names| > 0 {
      MissingDistinct(r, names[..|names| - 1]);
    }
  }

  /** `df[names]`: the listed columns in the listed order. A missing column is a `KeyError`: one
      quoting the whole list when none of the listed columns is present, and otherwise one
      listing the missing columns. */
  function Select(r: Record, names: seq<string>): (out: Result<Record>)
    ensures out.Success? <==> AllPresent(r, names)
    ensures out.Success? ==> Names(out.value) == names
    ensures out.Failure? ==> out.error.NoColumns? || out.error.MissingColumns?
  {
    if AllPresent(r, names) then Success(Pick(r, names))
    else if NonePresent(r, names) then Failure(NoColumns(names))
    else Failure(MissingColumns(Missing(r, names)))
  }

  /** A selection pairs each listed name with the cell a lookup finds; a failed one reports
      exactly the listed names the row lacks, quoting the whole list when it lacks all of them. */
  lemma SelectSpec(r: Record, names: seq<string>)
    ensures Select(r, names).Success? ==>
              |Select(r, names).value| == |names| &&
              forall i :: 0 <= i < |names| ==> Select(r, names).value[i] == (names[i], Lookup(r, names[i]).value)
    ensures Select(r, names).Failure? ==>
              forall x :: x in Select(r, names).error.names <==> x in names && x !in Names(r)
    ensures Select(r, names).Failure? ==>
              (Select(r, names).error == NoColumns(names) <==> NonePresent(r, names))
  {
    if AllPresent(r, names) {
      var out := Select(r, names).value;
      forall i | 0 <= i < |names| ensures out[i] == (names[i], Lookup(r, names[i]).value) {
        assert Names(out)[i] == out[i].0;
      }
    } else if NonePresent(r, names) {
      forall x | x in names ensures x !in Names(r) {
        var i :| 0 <= i < |names| && names[i] == x;
      }
    } else {
      forall x {
        MissingMember(r, names, x);
      }
    }
  }

  /** When every listed name is found, selecting them gives exactly the listed names paired with
      the cells found. */
  lemma SelectFound(r: Record, names: seq<string>, cells: seq<Value>)
    requires |cells| == |names|
    requires forall k :: 0 <= k < |names| ==> Lookup(r, names[k]) == Some(cells[k])
    ensures Select(r, names).Success?
    ensures |Select(r, names).value| == |names|
    ensures forall k :: 0 <= k < |names| ==> Select(r, names).value[k] == (names[k], cells[k])
  {
    assert AllPresent(r, names);
    SelectSpec(r, names);
  }

  /** The missing names of the first `n` listed ones, when exactly the distinct names at
      positions `lo` to `hi - 1` are missing. */
  lemma {:induction false} MissingPrefix(r: Record, names: seq<string>, lo: nat, hi: nat, n: nat)
    requires lo <= hi <= |names| && n <= |names|
    requires forall k :: 0 <= k < |names| ==> (names[k] in Names(r) <==> !(lo <= k < hi))
    requires forall a, b :: lo <= a < b < hi ==> names[a] != names[b]
    ensures Missing(r, names[..n]) == names[Min(lo, n)..Min(hi, n)]
  {
    if n > 0 {
      MissingPrefix(r, names, lo, hi, n - 1);
      MissingStep(r, names, n);
      if lo <= n - 1 < hi {
        SliceGrows(names, lo, n);
      }
    }
  }

  /** A slice of distinct names grows by a name it does not yet hold. */
  lemma SliceGrows(names: seq<string>, lo: nat, n: nat)
    requires lo < n <= |names|
    requires forall a :: lo <= a < n - 1 ==> names[a] != names[n - 1]
    ensures names[n - 1] !in names[lo..n - 1]
    ensures names[lo..n] == names[lo..n - 1] + [names[n - 1]]
  {
  }

  /** The missing names of the first `n` listed ones, from those of the first `n - 1`. */
  lemma MissingStep(r: Record, names: seq<string>, n: nat)
    requires 0 < n <= |names|
    ensures Missing(r, names[..n]) ==
            if names[n - 1] in Names(r) || names[n - 1] in Missing(r, names[..n - 1]) then Missing(r, names[..n - 1])
            else Missing(r, names[..n - 1]) + [names[n - 1]]
  {
    var p := names[..n];
    assert p[..|p| - 1] == names[..n - 1] && p[|p| - 1] == names[n - 1];
  }

  function Min(a: nat, b: nat): nat {
    if a <= b then a else b
  }

  /** When the row lacks exactly the distinct names listed at positions `lo` to `hi - 1` and holds
      the others, of which there is at least one, selecting raises a `KeyError` listing those. */
  lemma SelectMissingRange(r: Record, names: seq<string>, lo: nat, hi: nat)
    requires lo < hi <= |names| && (0 < lo || hi < |names|)
    requires forall k :: 0 <= k < |names| ==> (names[k] in Names(r) <==> !(lo <= k < hi))
    requires forall a, b :: lo <= a < b < hi ==> names[a] != names[b]
    ensures Select(r, names) == Failure(MissingColumns(names[lo..hi]))
  {
    MissingPrefix(r, names, lo, hi, |names|);
    assert names[..|names|] == names;
    assert names[lo] !in Names(r);
    if 0 < lo {
      assert names[0] in Names(r);
    } else {
      assert names[hi] in Names(r);
    }
  }

  /** Listing one more, new name at the end: the earlier selection followed by that column, or a
      `KeyError` whose list gains the name when the row lacks it too. */
  lemma SelectAppend(r: Record, names: seq<string>, name: string)
    requires name !in names
    ensures Select(r, names + [name]) ==
            match Select(r, names)
            case Success(out) =>
              if name in Names(r) then Success(out + [(name, Lookup(r, name).value)])
              else if |names| == 0 then Failure(NoColumns([name]))
              else Failure(MissingColumns([name]))
            case Failure(e) =>
              if e.NoColumns? && name !in Names(r) then Failure(NoColumns(names + [name]))
              else Failure(MissingColumns(if name in Names(r) then Missing(r, names) else Missing(r, names) + [name]))
  {
    var names' := names + [name];
    assert names'[..|names|] == names && names'[|names|] == name;
    MissingAppend(r, names, name);
    assert AllPresent(r, names') <==> AllPresent(r, names) && name in Names(r) by {
      assert forall i :: 0 <= i < |names| ==> names'[i] == names[i];
    }
    assert NonePresent(r, names') <==> NonePresent(r, names) && name !in Names(r) by {
      assert forall i :: 0 <= i < |names| ==> names'[i] == names[i];
    }
    if AllPresent(r, names) {
      if name in Names(r) {
        PickAppend(r, names, name);
        assert Select(r, names') == Success(Select(r, names).value + [(name, Lookup(r, name).value)]);
      } else if |names| == 0 {
        assert Select(r, names') == Failure(NoColumns([name]));
      } else {
        assert names[0] in Names(r);
        assert Select(r, names') == Failure(MissingColumns([name]));
      }
    } else if NonePresent(r, names) {
      assert Select(r, names) == Failure(NoColumns(names));
      if name !in Names(r) {
        assert Select(r, names') == Failure(NoColumns(names'));
      } else {
        assert Select(r, names') == Failure(MissingColumns(Missing(r, names)));
      }
    } else {
      assert Select(r, names) == Failure(MissingColumns(Missing(r, names)));
      assert Select(r, names') == Failure(MissingColumns(Missing(r, names')));
    }
  }

  /** The missing names of a list with one more, new name at the end. */
  lemma MissingAppend(r: Record, names: seq<string>, name: string)
    requires name !in names
    ensures Missing(r, names + [name]) == if name in Names(r) then Missing(r, names) else Missing(r, names) + [name]
  {
    var names' := names + [name];
    assert names'[..|names'| - 1] == names && names'[|names'| - 1] == name;
    MissingMember(r, names, name);
  }

  /** The columns of a list with one more name at the end. */
  lemma PickAppend(r: Record, names: seq<string>, name: string)
    requires AllPresent(r, names) && name in Names(r)
    ensures AllPresent(r, names + [name])
    ensures Pick(r, names + [name]) == Pick(r, names) + [(name, Lookup(r, name).value)]
  {
    var names' := names + [name];
    assert forall i :: 0 <= i < |names| ==> names'[i] == names[i];
    var out := Pick(r, names);
    var out' := Pick(r, names');
    forall i | 0 <= i < |names'| ensures out'[i] == (out + [(name, Lookup(r, name).value)])[i] {
      assert Names(out')[i] == out'[i].0;
      if i < |names| {
        assert Names(out)[i] == out[i].0;
      }
    }
  }

  /** Selecting columns keeps what a lookup of any selected name finds. */
  lemma LookupSelect(r: Record, names: seq<string>, name: string)
    requires Select(r, names).Success? && name in names
    ensures Lookup(Select(r, names).value, name) == Lookup(r, name)
  {
    SelectSpec(r, names);
    var out := Select(r, names).value;
    var i := FirstIndex(out, name);
    assert names[i] == name;
  }

  /** A cell read as a Python number: `int` as itself, `bool` as 0 or 1; a string is a `TypeError`
      for the arithmetic and bitwise operators the pipeline applies. */
  function AsNumber(v: Value): (n: Result<int>)
    ensures n.Success? <==> !v.StrV?
    ensures v.IntV? ==> n == Success(v.i)
  {
    match v
    case IntV(i) => Success(i)
    case BoolV(b) => Success(if b then 1 else 0)
    case StrV(_) => Failure(TypeError)
  }

  /** `row[name]` used as a number: a `KeyError` when the column is missing. */
  function Number(r: Record, name: string): (n: Result<int>)
    ensures n.Success? <==> name in Names(r) && !Lookup(r, name).value.StrV?
    ensures name !in Names(r) ==> n == Failure(KeyError(name))
    ensures Lookup(r, name).Some? && Lookup(r, name).value.IntV? ==> n == Success(Lookup(r, name).value.i)
  {
    match Lookup(r, name)
    case None => Failure(KeyError(name))
    case Some(v) => AsNumber(v)
  }

  /** `df[a] - df[b]` on two columns: both columns are looked up before anything is subtracted,
      so a missing `a`, then a missing `b`, is a `KeyError`. Integers and booleans then subtract
      as numbers, except that numpy refuses to subtract one boolean column from another; a
      string is a `TypeError`. */
  function Difference(r: Record, a: string, b: string): (d: Result<int>)
    ensures a !in Names(r) ==> d == Failure(KeyError(a))
    ensures a in Names(r) && b !in Names(r) ==> d == Failure(KeyError(b))
    ensures a in Names(r) && b in Names(r) ==>
              (d.Success? <==> Number(r, a).Success? && Number(r, b).Success? &&
                               !(Lookup(r, a).value.BoolV? && Lookup(r, b).value.BoolV?))
    ensures a in Names(r) && b in Names(r) && d.Failure? ==> d.error == TypeError
    ensures d.Success? ==> d.value == Number(r, a).value - Number(r, b).value
  {
    match (Lookup(r, a), Lookup(r, b))
    case (None, _) => Failure(KeyError(a))
    case (_, None) => Failure(KeyError(b))
    case (Some(x), Some(y)) =>
      if x.BoolV? && y.BoolV? then Failure(TypeError)
      else
        var m :- AsNumber(x);
        var n :- AsNumber(y);
        Success(m - n)
  }
}
