/** The string operations the bot relies on: the ASCII character classes `\d` and `\w`, the
    leftmost search Python's `re.search` performs for a literal followed by a captured run of one
    class, and `str.split` / `str.join` on one separator character. */
module Text {
  import opened Wrappers
  import opened Decimal

  /** `\d` and `\w`, restricted to ASCII. */
  datatype CharClass = Digit | Word

  predicate IsWordChar(c: char) {
    ('a' <= c <= 'z') || ('A' <= c <= 'Z') || IsDigit(c) || c == '_'
  }

  predicate InClass(c: char, k: CharClass) {
    match k
    case Digit => IsDigit(c)
    case Word => IsWordChar(c)
  }

  predicate AllInClass(s: string, k: CharClass) {
    forall i :: 0 <= i < |s| ==> InClass(s[i], k)
  }

  /** How many characters a greedy `+` of class `k` consumes at the start of `s`: the longest
      prefix in the class. */
  function RunLength(s: string, k: CharClass): (n: nat)
    ensures n <= |s|
    ensures forall i :: 0 <= i < n ==> InClass(s[i], k)
    ensures n < |s| ==> !InClass(s[n], k)
  {
    if |s| == 0 || !InClass(s[0], k) then 0 else 1 + RunLength(s[1..], k)
  }

  /** A run of class `k` followed by something outside the class (or by nothing) is consumed
      exactly. */
  lemma RunLengthOf(run: string, rest: string, k: CharClass)
    requires AllInClass(run, k)
    requires |rest| > 0 ==> !InClass(rest[0], k)
    ensures RunLength(run + rest, k) == |run|
  {
    var s := run + rest;
    assert forall i :: 0 <= i < |run| ==> s[i] == run[i];
    assert |rest| > 0 ==> s[|run|] == rest[0];
  }

  /** The pattern `lit` followed by at least one character of class `k` matches at position `i`. */
  predicate MatchesAt(s: string, lit: string, k: CharClass, i: nat) {
    i + |lit| < |s| && s[i..i + |lit|] == lit && InClass(s[i + |lit|], k)
  }

  /** What the group `(k+)` captures for a match at `i`: the whole run after the literal. */
  function GroupAt(s: string, lit: string, k: CharClass, i: nat): (g: string)
    requires MatchesAt(s, lit, k, i)
    ensures 0 < |g| && AllInClass(g, k)
  {
    var rest := s[i + |lit|..];
    rest[..RunLength(rest, k)]
  }

  function SearchFrom(s: string, lit: string, k: CharClass, i: nat): (r: Option<string>)
    ensures r.Some? ==> 0 < |r.value| && AllInClass(r.value, k)
    decreases |s| - i
  {
    if i >= |s| then None
    else if MatchesAt(s, lit, k, i) then Some(GroupAt(s, lit, k, i))
    else SearchFrom(s, lit, k, i + 1)
  }

  /** `re.search(lit + r'(k+)', s).group(1)`: the group of the leftmost match, or `None` when the
      pattern matches nowhere. */
  function Search(s: string, lit: string, k: CharClass): (r: Option<string>)
    ensures r.Some? ==> 0 < |r.value| && AllInClass(r.value, k)
  {
    SearchFrom(s, lit, k, 0)
  }

  /** The search from `from` reports the match at the first position from there that matches. */
  lemma {:induction false} SearchFromFinds(s: string, lit: string, k: CharClass, from: nat, i: nat)
    requires from <= i && MatchesAt(s, lit, k, i)
    requires forall j :: from <= j < i ==> !MatchesAt(s, lit, k, j)
    ensures SearchFrom(s, lit, k, from) == Some(GroupAt(s, lit, k, i))
    decreases i - from
  {
    if from < i {
      assert !MatchesAt(s, lit, k, from);
      SearchFromFinds(s, lit, k, from + 1, i);
    }
  }

  /** The search from `from` comes back empty exactly when no position from there matches. */
  lemma {:induction false} SearchFromNone(s: string, lit: string, k: CharClass, from: nat)
    ensures SearchFrom(s, lit, k, from).None? <==> forall j :: from <= j ==> !MatchesAt(s, lit, k, j)
    decreases |s| - from
  {
    if from < |s| && !MatchesAt(s, lit, k, from) {
      SearchFromNone(s, lit, k, from + 1);
    }
  }

  /** A search finds the match at `i` when no earlier position matches. */
  lemma SearchFinds(s: string, lit: string, k: CharClass, i: nat)
    requires MatchesAt(s, lit, k, i)
    requires forall j :: 0 <= j < i ==> !MatchesAt(s, lit, k, j)
    ensures Search(s, lit, k) == Some(GroupAt(s, lit, k, i))
  {
    SearchFromFinds(s, lit, k, 0, i);
  }

  /** A search comes back empty exactly when the pattern matches at no position. */
  lemma SearchNone(s: string, lit: string, k: CharClass)
    ensures Search(s, lit, k).None? <==> forall j :: !MatchesAt(s, lit, k, j)
  {
    SearchFromNone(s, lit, k, 0);
  }

  /** A pattern starting with `/` matches nowhere in a string without `/`. */
  lemma NoSlashNoMatch(s: string, lit: string, k: CharClass)
    requires |lit| > 0 && lit[0] == '/' && '/' !in s
    ensures Search(s, lit, k) == None
  {
    SearchNone(s, lit, k);
  }

  /** The position of the first occurrence of `c` in `s`. */
  function IndexOf(s: string, c: char): (i: nat)
    requires c in s
    ensures i < |s| && s[i] == c && c !in s[..i]
  {
    if s[0] == c then 0
    else
      var i := 1 + IndexOf(s[1..], c);
      assert s[..i] == [s[0]] + s[1..][..i - 1];
      i
  }

  /** `s.split(sep)`: the pieces between the occurrences of `sep`; there is always at least one
      piece, and no piece holds the separator. */
  function Split(s: string, sep: char): (parts: seq<string>)
    ensures |parts| >= 1
    ensures forall i :: 0 <= i < |parts| ==> sep !in parts[i]
    ensures |parts| == 1 <==> sep !in s
    decreases |s|
  {
    if sep !in s then [s]
    else
      var i := IndexOf(s, sep);
      var rest := Split(s[i + 1..], sep);
      assert forall j :: 1 <= j < |rest| + 1 ==> ([s[..i]] + rest)[j] == rest[j - 1];
      [s[..i]] + rest
  }

  /** `sep.join(parts)` */
  function Join(parts: seq<string>, sep: char): string
    requires |parts| >= 1
  {
    if |parts| == 1 then parts[0] else parts[0] + [sep] + Join(parts[1..], sep)
  }

  /** Joining the pieces of a split gives the string back. */
  lemma {:induction false} JoinSplit(s: string, sep: char)
    ensures Join(Split(s, sep), sep) == s
    decreases |s|
  {
    if sep in s {
      var i := IndexOf(s, sep);
      JoinSplit(s[i + 1..], sep);
      var parts := Split(s, sep);
      assert parts[1..] == Split(s[i + 1..], sep);
      assert s == s[..i] + [sep] + s[i + 1..];
    }
  }

  /** Splitting a join of separator-free pieces gives the pieces back. */
  lemma {:induction false} SplitJoin(parts: seq<string>, sep: char)
    requires |parts| >= 1
    requires forall i :: 0 <= i < |parts| ==> sep !in parts[i]
    ensures Split(Join(parts, sep), sep) == parts
    decreases |parts|
  {
    if |parts| > 1 {
      var head := parts[0];
      var tail := Join(parts[1..], sep);
      var s := head + [sep] + tail;
      assert s[|head|] == sep;
      IndexOfAfter(head, sep, tail);
      assert s[..|head|] == head && s[|head| + 1..] == tail;
      SplitJoin(parts[1..], sep);
      assert parts == [head] + parts[1..];
    }
  }

  /** In `head + [c] + tail` with no `c` in `head`, the first `c` is the one after `head`. */
  lemma IndexOfAfter(head: string, c: char, tail: string)
    requires c !in head
    ensures c in head + [c] + tail && IndexOf(head + [c] + tail, c) == |head|
  {
    var s := head + [c] + tail;
    assert s[|head|] == c;
    var i := IndexOf(s, c);
    assert forall j :: 0 <= j < |head| ==> s[j] == head[j];
  }
}
