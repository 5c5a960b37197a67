/** The bot's handlers (tg_bot.py): the data carried by the refresh button, the subscription
    table, the winner shown with a match, and what `process_profile_url` and
    `refresh_match_info` do with one incoming message or button press. Telegram, the HTTP
    requests and the classifier are parameters: `fetch` answers the active-matches request for
    an account id (as the text sent in the query string) with a status and a parsed body,
    `predict` is `predict_proba` on the one-row feature frame, and `sentId` is the id Telegram
    gives the answer. */
module Bot {
  import opened Wrappers
  import opened Decimal
  import opened Records
  import opened Text
  import opened Preprocess
  import opened ProfileUrl
  import opened Steam
  import opened Frame
  import opened Features

  /** `f'refresh_{account_id}'`: the callback data of the refresh button. */
  function RefreshData(account: string): string {
    "refresh_" + account
  }

  /** `callback_query.data.split('_')[1]`: the account id read back from a button press; an
      `IndexError` when the data holds no `_`. */
  function RefreshAccount(data: string): (r: Result<string>)
    ensures r.Success? <==> '_' in data
    ensures r.Success? ==> '_' !in r.value
  {
    var parts := Split(data, '_');
    if |parts| < 2 then Failure(IndexError) else Success(parts[1])
  }

  /** The decimal text of an account id never holds `_`. */
  lemma NoUnderscoreInNumber(a: int)
    ensures '_' !in IntToString(a)
  {
    var s := IntToString(a);
    assert forall i :: 0 <= i < |s| ==> s[i] != '_';
  }

  /** The account id written into a refresh button is the one read back when it is pressed. */
  lemma RefreshRoundTrip(a: int)
    ensures RefreshAccount(RefreshData(IntToString(a))) == Success(IntToString(a))
  {
    var id := IntToString(a);
    NoUnderscoreInNumber(a);
    var parts := ["refresh", id];
    assert Join(parts, '_') == RefreshData(id) by {
      assert Join(parts[1..], '_') == id;
    }
    SplitJoin(parts, '_');
  }

  /** Which message shows which account in which chat: `(chat id, account id)` to message id. */
  type Subscriptions = map<(int, int), int>

  /** `subscriptions[(chat, account)] = message_id` */
  function Subscribe(subs: Subscriptions, chat: int, account: int, messageId: int): (subs': Subscriptions)
    ensures (chat, account) in subs' && subs'[(chat, account)] == messageId
    ensures forall key :: key != (chat, account) ==> (key in subs' <==> key in subs)
    ensures forall key :: key != (chat, account) && key in subs ==> subs'[key] == subs[key]
  {
    subs[(chat, account) := messageId]
  }

  /** `softmax_arr.argmax()` on the 1×2 probability row: the index of the first largest entry. */
  function Argmax(p0: real, p1: real): (ind: nat)
    ensures ind < 2
    ensures ind == 0 <==> p0 >= p1
  {
    if p1 > p0 then 1 else 0
  }

  /** The predicted winner and its probability. */
  datatype Verdict = Verdict(team: string, prob: real)

  function TeamName(ind: nat): string {
    if ind == 0 then "The Amber Hand" else "The Sapphire Flame"
  }

  /** Lines 101-103: the team with the larger probability (team 0 on a tie) and that
      probability. */
  function Winner(p0: real, p1: real): (v: Verdict)
    ensures v.prob >= p0 && v.prob >= p1
    ensures v.prob == p0 || v.prob == p1
    ensures v.team == "The Amber Hand" <==> p0 >= p1
    ensures v.team == "The Sapphire Flame" <==> p1 > p0
  {
    var ind := Argmax(p0, p1);
    Verdict(TeamName(ind), if ind == 0 then p0 else p1)
  }

  /** What `generate_match_text` puts in the message: the six values of `get_match_info` (hero
      ids, not yet looked up by name) and the predicted winner. */
  datatype MatchView = MatchView(info: seq<Option<Info>>, winner: Verdict)

  /** `generate_match_text(active_match)`: `get_match_info`, then `get_match_predict`; a status
      code fails in `get_match_info`, and `None` in `get_heroes`, which iterates over it. */
  function MatchText(m: Fetched, predict: Record -> (real, real)): (r: Result<MatchView>)
    ensures m.StatusCode? ==> r == Failure(AttributeError)
    ensures m.NoMatch? ==> r == Failure(TypeError)
    ensures r.Success? ==> |r.value.info| == 6
  {
    var info :- GetMatchInfo(m);
    match m
    case Active(row) =>
      var features :- TransformToPredict(row, false);
      var (p0, p1) := predict(features);
      Success(MatchView(info, Winner(p0, p1)))
    case _ => Failure(TypeError)
  }

  /** What both handlers do once they have an account id: fetch its active match and, when the
      feed lists one, build what the message shows; `None` when it lists none. */
  function ShowAccount(account: string, fetch: string -> (int, seq<Snapshot>),
                       predict: Record -> (real, real)): (r: Result<Option<MatchView>>)
    ensures fetch(account).0 != 200 ==> r == Failure(AttributeError)
    ensures fetch(account) == (200, []) ==> r == Success(None)
  {
    var (status, body) := fetch(account);
    var active :- GetMatchAccountId(status, body);
    if active.NoMatch? then Success(None)
    else
      var view :- MatchText(active, predict);
      Success(Some(view))
  }

  /** The answer to a profile URL. */
  datatype Reply =
    | InvalidUrl                                // 'Invalid Steam URL. Please try again.'
    | NoSteamId                                 // 'Failed to retrieve Steam ID. Please check the URL.'
    | NoActiveMatch                             // 'No active match found for this account.'
    | MatchMessage(view: MatchView, button: string)

  datatype Outcome = Outcome(reply: Reply, subs: Subscriptions)

  /** `process_profile_url` on a message whose text is `text` (`None` for a message without
      text, such as a photo): check the URL, find the account, fetch its active match and answer;
      a match message is recorded in the subscription table. A failure is the exception the
      handler lets escape, with nothing answered. */
  function ProcessProfileUrl(chat: int, text: Option<string>, subs: Subscriptions,
                             resolve: string -> Option<int>, fetch: string -> (int, seq<Snapshot>),
                             predict: Record -> (real, real), sentId: int): (r: Result<Outcome>)
    ensures text.None? ==> r == Failure(TypeError)
    ensures text.Some? && Validate(text.value).None? ==> r == Success(Outcome(InvalidUrl, subs))
    ensures r.Success? && !r.value.reply.MatchMessage? ==> r.value.subs == subs
    ensures r.Success? && r.value.reply.MatchMessage? ==> text.Some?
    ensures r.Success? && r.value.reply.MatchMessage? ==>
              exists a :: a != 0 && text.Some? && SteamId3(text.value, resolve) == Success(a)
                && ShowAccount(IntToString(a), fetch, predict) == Success(Some(r.value.reply.view))
                && r.value.reply.button == RefreshData(IntToString(a))
                && r.value.subs == Subscribe(subs, chat, a, sentId)
  {
    match text
    case None => Failure(TypeError)
    case Some(url) =>
      if Validate(url).None? then Success(Outcome(InvalidUrl, subs))
      else
        var account :- SteamId3(url, resolve);
        if account == 0 then Success(Outcome(NoSteamId, subs))
        else
          var shown :- ShowAccount(IntToString(account), fetch, predict);
          match shown
          case None => Success(Outcome(NoActiveMatch, subs))
          case Some(view) =>
            Success(Outcome(MatchMessage(view, RefreshData(IntToString(account))),
                            Subscribe(subs, chat, account, sentId)))
  }

  /** The edit a button press makes to the message it belongs to. */
  datatype Edit = EditMatch(view: MatchView, button: string) | EditNoMatch

  /** `refresh_match_info`: read the account id from the button, fetch its active match again
      and rewrite the message. */
  function RefreshMatchInfo(data: string, fetch: string -> (int, seq<Snapshot>),
                            predict: Record -> (real, real)): (r: Result<Edit>)
    ensures '_' !in data ==> r == Failure(IndexError)
    ensures r.Success? && r.value.EditMatch? ==>
              && r.value.button == RefreshData(RefreshAccount(data).value)
              && ShowAccount(RefreshAccount(data).value, fetch, predict) == Success(Some(r.value.view))
  {
    var account :- RefreshAccount(data);
    var shown :- ShowAccount(account, fetch, predict);
    match shown
    case None => Success(EditNoMatch)
    case Some(view) => Success(EditMatch(view, RefreshData(account)))
  }

  /** Pressing the button of a match message fetches the same account again: with the feed and
      the classifier unchanged, the message is rewritten with what it already shows. */
  lemma ButtonRefreshes(chat: int, text: Option<string>, subs: Subscriptions,
                        resolve: string -> Option<int>, fetch: string -> (int, seq<Snapshot>),
                        predict: Record -> (real, real), sentId: int)
    requires ProcessProfileUrl(chat, text, subs, resolve, fetch, predict, sentId).Success?
    requires ProcessProfileUrl(chat, text, subs, resolve, fetch, predict, sentId).value.reply.MatchMessage?
    ensures var reply := ProcessProfileUrl(chat, text, subs, resolve, fetch, predict, sentId).value.reply;
            RefreshMatchInfo(reply.button, fetch, predict) == Success(EditMatch(reply.view, reply.button))
  {
    var a := SteamId3(text.value, resolve).value;
    RefreshRoundTrip(a);
  }

  /** The profile URL of account 0 is answered with the failure message: the account id is
      falsy, and no match is fetched. */
  lemma AccountZeroFails(chat: int, scheme: Scheme, slash: bool, newline: bool, subs: Subscriptions,
                         resolve: string -> Option<int>, fetch: string -> (int, seq<Snapshot>),
                         predict: Record -> (real, real), sentId: int)
    ensures ProcessProfileUrl(chat, Some(Render(ProfileLinkOf(0, scheme, slash, newline))), subs, resolve, fetch, predict, sentId)
            == Success(Outcome(NoSteamId, subs))
  {
    SteamIdRoundTrip(0, scheme, slash, newline, resolve);
  }

  /** When the feed lists no match for the account, the answer says so and nothing is recorded. */
  lemma NoMatchAnswered(chat: int, a: int, scheme: Scheme, slash: bool, newline: bool, subs: Subscriptions,
                        resolve: string -> Option<int>, fetch: string -> (int, seq<Snapshot>),
                        predict: Record -> (real, real), sentId: int)
    requires a != 0 && a + SteamId64Base >= 0
    requires fetch(IntToString(a)) == (200, [])
    ensures ProcessProfileUrl(chat, Some(Render(ProfileLinkOf(a, scheme, slash, newline))), subs, resolve, fetch, predict, sentId)
            == Success(Outcome(NoActiveMatch, subs))
  {
    SteamIdRoundTrip(a, scheme, slash, newline, resolve);
  }

  /** A status other than 200 is handed on as a number, which passes the `is not None` test and
      makes `get_match_info` raise an `AttributeError`: no answer, nothing recorded. */
  lemma StatusCodeRaises(chat: int, a: int, scheme: Scheme, slash: bool, newline: bool, subs: Subscriptions,
                         resolve: string -> Option<int>, fetch: string -> (int, seq<Snapshot>),
                         predict: Record -> (real, real), sentId: int)
    requires a != 0 && a + SteamId64Base >= 0
    requires fetch(IntToString(a)).0 != 200
    ensures ProcessProfileUrl(chat, Some(Render(ProfileLinkOf(a, scheme, slash, newline))), subs, resolve, fetch, predict, sentId)
            == Failure(AttributeError)
    ensures RefreshMatchInfo(RefreshData(IntToString(a)), fetch, predict) == Failure(AttributeError)
  {
    SteamIdRoundTrip(a, scheme, slash, newline, resolve);
    RefreshRoundTrip(a);
  }

  /** The profile URL of an account in a live match with a well-formed snapshot: the answer shows
      the match's id, net worths, score and heroes and the classifier's verdict on the 43-column
      row, carries a refresh button for the account, and is recorded under the chat and account. */
  lemma ProfileUrlShowsMatch(chat: int, a: int, scheme: Scheme, slash: bool, newline: bool, subs: Subscriptions,
                             resolve: string -> Option<int>, fetch: string -> (int, seq<Snapshot>),
                             predict: Record -> (real, real), sentId: int, n: Reading)
    requires a != 0 && a + SteamId64Base >= 0
    requires fetch(IntToString(a)).0 == 200
    requires var body := fetch(IntToString(a)).1; |body| > 0 && WellFormed(body[0]) && Reads(body[0], n)
    ensures var body := fetch(IntToString(a)).1;
            PreprocessActive(body).Success? && TransformToPredict(PreprocessActive(body).value, false).Success?
    ensures var body := fetch(IntToString(a)).1;
            var p := predict(TransformToPredict(PreprocessActive(body).value, false).value);
            ProcessProfileUrl(chat, Some(Render(ProfileLinkOf(a, scheme, slash, newline))), subs, resolve, fetch, predict, sentId)
            == Success(Outcome(MatchMessage(MatchView(ExpectedInfo(body[0], n), Winner(p.0, p.1)), RefreshData(IntToString(a))),
                               Subscribe(subs, chat, a, sentId)))
  {
    var body := fetch(IntToString(a)).1;
    SteamIdRoundTrip(a, scheme, slash, newline, resolve);
    MatchInfoRow(body, n);
    PredictRow(body, n);
  }

  /** A custom-name URL whose name Steam cannot resolve makes `get_steamid3` raise: the handler
      answers nothing and records nothing. */
  lemma UnknownNameRaises(chat: int, l: Link, subs: Subscriptions,
                          resolve: string -> Option<int>, fetch: string -> (int, seq<Snapshot>),
                          predict: Record -> (real, real), sentId: int)
    requires ValidTarget(l.target) && l.target.Vanity? && resolve(l.target.name).None?
    ensures ProcessProfileUrl(chat, Some(Render(l)), subs, resolve, fetch, predict, sentId)
            == Failure(ValueError("Custom name not found"))
  {
    ValidateRender(l);
    SteamIdOfVanityUrl(l, resolve);
  }
}
