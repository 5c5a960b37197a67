/** The Steam profile URLs the bot accepts (tg_bot.py line 57): the pattern
    `^https?://steamcommunity\.com/(id/\w+|profiles/\d+)/?$` under `re.match`, modelled as a
    parser that takes an accepted URL apart and a renderer that puts it back together. */
module ProfileUrl {
  import opened Wrappers
  import opened Decimal
  import opened Text

  datatype Scheme = Http | Https

  /** The path after the host: a custom name (`id/<name>`) or a 64-bit Steam id
      (`profiles/<digits>`). */
  datatype Target = Vanity(name: string) | Profile(digits: string)

  /** An accepted URL taken apart. `slash` is the optional trailing `/`; `newline` is the single
      trailing line feed that Python's `$` lets through at the very end of the string. */
  datatype Link = Link(scheme: Scheme, target: Target, slash: bool, newline: bool)

  /** `\w+` after `id/`, `\d+` after `profiles/`. */
  predicate ValidTarget(t: Target) {
    match t
    case Vanity(name) => 0 < |name| && AllInClass(name, Word)
    case Profile(digits) => 0 < |digits| && AllInClass(digits, Digit)
  }

  /** The scheme and host: `http://steamcommunity.com` or `https://steamcommunity.com`. */
  function Origin(s: Scheme): string {
    match s
    case Http => "http://steamcommunity.com"
    case Https => "https://steamcommunity.com"
  }

  function Tail(slash: bool, newline: bool): string {
    (if slash then "/" else "") + (if newline then "\n" else "")
  }

  /** Everything after the host: `/id/<name>` or `/profiles/<digits>`, then the tail. */
  function Path(l: Link): string {
    match l.target
    case Vanity(name) => "/id/" + (name + Tail(l.slash, l.newline))
    case Profile(digits) => "/profiles/" + (digits + Tail(l.slash, l.newline))
  }

  function Render(l: Link): string {
    Origin(l.scheme) + Path(l)
  }

  predicate StartsWith(s: string, prefix: string) {
    |prefix| <= |s| && forall i :: 0 <= i < |prefix| ==> s[i] == prefix[i]
  }

  lemma PrefixOfConcat(a: string, b: string)
    ensures StartsWith(a + b, a) && (a + b)[|a|..] == b
  {
  }

  lemma SplitAt(s: string, prefix: string)
    requires StartsWith(s, prefix)
    ensures s == prefix + s[|prefix|..]
  {
  }

  /** What may follow the name or the digits: an optional `/`, then the end of the string or a
      final line feed. */
  function ParseTail(t: string): (r: Option<(bool, bool)>)
    ensures r.Some? ==> Tail(r.value.0, r.value.1) == t
  {
    if t == "" then Some((false, false))
    else if t == "/" then Some((true, false))
    else if t == "\n" then Some((false, true))
    else if t == "/\n" then Some((true, true))
    else None
  }

  /** A greedy run of class `k`, at least one character long, followed by an accepted tail. */
  function ParseRun(s: string, k: CharClass): (r: Option<(string, bool, bool)>)
    ensures r.Some? ==> 0 < |r.value.0| && AllInClass(r.value.0, k)
    ensures r.Some? ==> s == r.value.0 + Tail(r.value.1, r.value.2)
  {
    var n := RunLength(s, k);
    if n == 0 then None
    else
      match ParseTail(s[n..])
      case None => None
      case Some((slash, newline)) =>
        assert s == s[..n] + s[n..];
        Some((s[..n], slash, newline))
  }

  /** The URL after its scheme and host. */
  function ParsePath(scheme: Scheme, path: string): (r: Option<Link>)
    ensures r.Some? ==> r.value.scheme == scheme && ValidTarget(r.value.target)
    ensures r.Some? ==> Path(r.value) == path
  {
    if StartsWith(path, "/id/") then
      match ParseRun(path[4..], Word)
      case None => None
      case Some((name, slash, newline)) =>
        SplitAt(path, "/id/");
        Some(Link(scheme, Vanity(name), slash, newline))
    else if StartsWith(path, "/profiles/") then
      match ParseRun(path[10..], Digit)
      case None => None
      case Some((digits, slash, newline)) =>
        SplitAt(path, "/profiles/");
        Some(Link(scheme, Profile(digits), slash, newline))
    else None
  }

  /** `re.match(pattern, url)`: the URL taken apart when the pattern accepts it, `None` otherwise. */
  function Validate(url: string): (r: Option<Link>)
    ensures r.Some? ==> ValidTarget(r.value.target) && Render(r.value) == url
  {
    if StartsWith(url, Origin(Https)) then
      var r := ParsePath(Https, url[|Origin(Https)|..]);
      SplitAt(url, Origin(Https));
      r
    else if StartsWith(url, Origin(Http)) then
      var r := ParsePath(Http, url[|Origin(Http)|..]);
      SplitAt(url, Origin(Http));
      r
    else None
  }

  lemma ParseTailOfTail(slash: bool, newline: bool)
    ensures ParseTail(Tail(slash, newline)) == Some((slash, newline))
  {
    var t := Tail(slash, newline);
    if slash && newline {
      assert t == "/\n";
    } else if slash {
      assert t == "/";
    } else if newline {
      assert t == "\n";
    } else {
      assert t == "";
    }
  }

  /** The tail never starts with a word character. */
  lemma TailStart(slash: bool, newline: bool, k: CharClass)
    ensures |Tail(slash, newline)| > 0 ==> !InClass(Tail(slash, newline)[0], k)
  {
  }

  lemma ParseRunOf(run: string, slash: bool, newline: bool, k: CharClass)
    requires 0 < |run| && AllInClass(run, k)
    ensures ParseRun(run + Tail(slash, newline), k) == Some((run, slash, newline))
  {
    var s := run + Tail(slash, newline);
    TailStart(slash, newline, k);
    RunLengthOf(run, Tail(slash, newline), k);
    assert s[..|run|] == run && s[|run|..] == Tail(slash, newline);
    ParseTailOfTail(slash, newline);
  }

  lemma ParsePathOf(l: Link)
    requires ValidTarget(l.target)
    ensures ParsePath(l.scheme, Path(l)) == Some(l)
  {
    var path := Path(l);
    match l.target
    case Vanity(name) =>
      PrefixOfConcat("/id/", name + Tail(l.slash, l.newline));
      ParseRunOf(name, l.slash, l.newline, Word);
    case Profile(digits) =>
      PrefixOfConcat("/profiles/", digits + Tail(l.slash, l.newline));
      assert path[1] == 'p';
      ParseRunOf(digits, l.slash, l.newline, Digit);
  }

  /** After a known scheme and host, validation is the parsing of the path. */
  lemma ValidateOrigin(scheme: Scheme, path: string)
    ensures Validate(Origin(scheme) + path) == ParsePath(scheme, path)
  {
    var url := Origin(scheme) + path;
    PrefixOfConcat(Origin(scheme), path);
    if scheme == Http {
      assert url[4] == Origin(Http)[4] != Origin(Https)[4];
    }
  }

  /** Every URL of the accepted shape is accepted, and taken apart into what it was built from. */
  lemma ValidateRender(l: Link)
    requires ValidTarget(l.target)
    ensures Validate(Render(l)) == Some(l)
  {
    ValidateOrigin(l.scheme, Path(l));
    ParsePathOf(l);
  }

  /** The pattern accepts a URL exactly when it is the rendering of a link with a valid target. */
  lemma ValidateIff(url: string)
    ensures Validate(url).Some? <==> exists l: Link :: ValidTarget(l.target) && Render(l) == url
  {
    if l: Link :| ValidTarget(l.target) && Render(l) == url {
      ValidateRender(l);
    }
  }
}
