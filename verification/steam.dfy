/** `get_steamid3` (tools.py lines 125-149): the integer account id behind a Steam profile URL. */
module Steam {
  import opened Wrappers
  import opened Decimal
  import opened Text
  import opened ProfileUrl

  /** The 64-bit Steam id of account 0; a 64-bit id minus this is the account id. */
  const SteamId64Base: int := 76561197960265728

  /** `get_steamid3(url)`: the digits after the leftmost `/profiles/` give the 64-bit id;
      failing that, the name after the leftmost `/id/` is resolved by the Steam Web API, modelled
      as the parameter `resolve` (the reported `steamid` when `success` is 1, `None` otherwise). */
  function SteamId3(url: string, resolve: string -> Option<int>): (r: Result<int>)
    ensures r.Failure? ==>
              r.error == ValueError("Custom name not found") || r.error == ValueError("Invalid Steam profile URL")
    ensures Search(url, "/profiles/", Digit).None? && Search(url, "/id/", Word).None? ==>
              r == Failure(ValueError("Invalid Steam profile URL"))
  {
    match Search(url, "/profiles/", Digit)
    case Some(digits) => Success(ParseDigits(digits) - SteamId64Base)
    case None =>
      match Search(url, "/id/", Word)
      case Some(name) =>
        (match resolve(name)
         case Some(id64) => Success(id64 - SteamId64Base)
         case None => Failure(ValueError("Custom name not found")))
      case None => Failure(ValueError("Invalid Steam profile URL"))
  }

  /** In the scheme and host, every `/` is followed by another `/` or by the `s` of `steam`. */
  lemma OriginSlashes(s: Scheme)
    ensures Origin(s)[|Origin(s)| - 1] != '/'
    ensures forall j :: 0 <= j < |Origin(s)| - 1 && Origin(s)[j] == '/' ==>
              Origin(s)[j + 1] == '/' || Origin(s)[j + 1] == 's'
  {
  }

  /** A pattern `/x...` with `x` neither `/` nor `s` cannot match inside the scheme and host. */
  lemma OriginNoMatch(s: Scheme, rest: string, lit: string, k: CharClass)
    requires |lit| >= 2 && lit[0] == '/' && lit[1] != '/' && lit[1] != 's'
    ensures forall j :: 0 <= j < |Origin(s)| ==> !MatchesAt(Origin(s) + rest, lit, k, j)
  {
    var o := Origin(s);
    var u := o + rest;
    OriginSlashes(s);
    forall j | 0 <= j < |o| ensures !MatchesAt(u, lit, k, j) {
      assert u[j] == o[j];
      if j + 1 < |o| {
        assert u[j + 1] == o[j + 1];
      }
    }
  }

  /** A position whose `m`-th character differs from the literal's is not a match. */
  lemma MismatchAt(u: string, lit: string, k: CharClass, i: nat, m: nat)
    requires m < |lit| && i + m < |u| && u[i + m] != lit[m]
    ensures !MatchesAt(u, lit, k, i)
  {
    if i + |lit| <= |u| {
      assert u[i..i + |lit|][m] == u[i + m];
    }
  }

  /** The digits of a profile URL are what the leftmost `/profiles/` search captures. */
  lemma ProfileSearch(l: Link)
    requires ValidTarget(l.target) && l.target.Profile?
    ensures Search(Render(l), "/profiles/", Digit) == Some(l.target.digits)
  {
    var o := Origin(l.scheme);
    var digits := l.target.digits;
    var rest := digits + Tail(l.slash, l.newline);
    var u := Render(l);
    assert u == o + "/profiles/" + rest;
    assert u[|o|..|o| + 10] == "/profiles/";
    assert u[|o| + 10] == digits[0];
    assert u[|o| + 10..] == rest;
    TailStart(l.slash, l.newline, Digit);
    RunLengthOf(digits, Tail(l.slash, l.newline), Digit);
    OriginNoMatch(l.scheme, Path(l), "/profiles/", Digit);
    SearchFinds(u, "/profiles/", Digit, |o|);
  }

  /** In a custom-name path, every `/` after `/id/` ends the string or comes before the final
      line feed. */
  lemma VanityPathSlashes(l: Link)
    requires ValidTarget(l.target) && l.target.Vanity?
    ensures forall q :: 4 <= q < |Path(l)| - 1 && Path(l)[q] == '/' ==> Path(l)[q + 1] == '\n'
  {
    var name := l.target.name;
    var t := Tail(l.slash, l.newline);
    var v := Path(l);
    assert v == "/id/" + (name + t);
    forall q | 4 <= q < |v| - 1 ensures v[q] == '/' ==> v[q + 1] == '\n' {
      if q < 4 + |name| {
        assert v[q] == name[q - 4];
      } else {
        assert v[q] == t[q - 4 - |name|] && v[q + 1] == t[q + 1 - 4 - |name|];
      }
    }
  }

  /** A custom-name URL holds no `/profiles/` match, and the leftmost `/id/` search captures
      the name. */
  lemma VanitySearch(l: Link)
    requires ValidTarget(l.target) && l.target.Vanity?
    ensures Search(Render(l), "/profiles/", Digit) == None
    ensures Search(Render(l), "/id/", Word) == Some(l.target.name)
  {
    var o := Origin(l.scheme);
    var name := l.target.name;
    var v := Path(l);
    var u := Render(l);
    OriginNoMatch(l.scheme, v, "/profiles/", Digit);
    VanityPathSlashes(l);
    forall j: nat | |o| <= j ensures !MatchesAt(u, "/profiles/", Digit, j) {
      if j + 10 < |u| {
        assert u[j + 9] == v[j - |o| + 9] && u[j + 10] == v[j - |o| + 10];
        if u[j + 9] != '/' {
          MismatchAt(u, "/profiles/", Digit, j, 9);
        }
      }
    }
    SearchNone(u, "/profiles/", Digit);
    assert u == o + "/id/" + (name + Tail(l.slash, l.newline));
    assert u[|o|..|o| + 4] == "/id/";
    assert u[|o| + 4] == name[0];
    assert u[|o| + 4..] == name + Tail(l.slash, l.newline);
    TailStart(l.slash, l.newline, Word);
    RunLengthOf(name, Tail(l.slash, l.newline), Word);
    OriginNoMatch(l.scheme, v, "/id/", Word);
    SearchFinds(u, "/id/", Word, |o|);
  }

  /** On an accepted `profiles/` URL, the account id is the 64-bit id in the URL minus the base. */
  lemma SteamIdOfProfileUrl(l: Link, resolve: string -> Option<int>)
    requires ValidTarget(l.target) && l.target.Profile?
    ensures AllDigits(l.target.digits)
    ensures SteamId3(Render(l), resolve) == Success(ParseDigits(l.target.digits) - SteamId64Base)
  {
    ProfileSearch(l);
  }

  /** On an accepted `id/` URL, the custom name is resolved: the resolved 64-bit id minus the
      base, or a `ValueError` when Steam does not know the name. */
  lemma SteamIdOfVanityUrl(l: Link, resolve: string -> Option<int>)
    requires ValidTarget(l.target) && l.target.Vanity?
    ensures SteamId3(Render(l), resolve) ==
            match resolve(l.target.name)
            case Some(id64) => Success(id64 - SteamId64Base)
            case None => Failure(ValueError("Custom name not found"))
  {
    VanitySearch(l);
  }

  /** The profile URL of an account: its 64-bit id written in decimal after `/profiles/`. */
  function ProfileLinkOf(id3: int, scheme: Scheme, slash: bool, newline: bool): (l: Link)
    requires id3 + SteamId64Base >= 0
    ensures ValidTarget(l.target) && l.target.Profile?
  {
    var digits := NatToString(id3 + SteamId64Base);
    assert AllInClass(digits, Digit);
    Link(scheme, Profile(digits), slash, newline)
  }

  /** The profile URL of an account is accepted by the bot, and `get_steamid3` reads the account
      id back from it without consulting the custom-name lookup. */
  lemma SteamIdRoundTrip(id3: int, scheme: Scheme, slash: bool, newline: bool, resolve: string -> Option<int>)
    requires id3 + SteamId64Base >= 0
    ensures Validate(Render(ProfileLinkOf(id3, scheme, slash, newline))).Some?
    ensures SteamId3(Render(ProfileLinkOf(id3, scheme, slash, newline)), resolve) == Success(id3)
  {
    var l := ProfileLinkOf(id3, scheme, slash, newline);
    ValidateRender(l);
    SteamIdOfProfileUrl(l, resolve);
    ParseNatToString(id3 + SteamId64Base);
  }

  /** A `/profiles/` segment anywhere in the URL takes precedence: the custom-name lookup is never
      consulted then. */
  lemma ProfilesTakePrecedence(url: string, resolve1: string -> Option<int>, resolve2: string -> Option<int>)
    requires Search(url, "/profiles/", Digit).Some?
    ensures SteamId3(url, resolve1) == SteamId3(url, resolve2)
    ensures SteamId3(url, resolve1).Success?
  {
  }

  /** A URL without any `/` names no profile. */
  lemma NoSlashInvalid(url: string, resolve: string -> Option<int>)
    requires '/' !in url
    ensures SteamId3(url, resolve) == Failure(ValueError("Invalid Steam profile URL"))
  {
    NoSlashNoMatch(url, "/profiles/", Digit);
    NoSlashNoMatch(url, "/id/", Word);
  }
}
