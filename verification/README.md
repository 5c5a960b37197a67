# deadlock-matches in Dafny

A model of the data path of deadlock-matches, a Telegram bot that reports live Deadlock matches
and predicts the winner. A player sends a Steam profile URL. The bot checks the URL and turns it
into an integer account id. It fetches that account's active match from the match feed and
flattens the first snapshot of the response into a 60-column row. From that row it builds the
43-column feature row a gradient-boosting classifier is given, and it answers with the match,
both teams' heroes and the predicted winner. A refresh button on the answer repeats the lookup.

What is modelled, by module:

- `Bits`: Python's `&` and `<<` on unbounded integers, negative ones included, against a
  reference definition of "bit `b` of `m`".
- `Objectives`: `extract_objectives`, the sixteen structure flags of a team's objective mask.
- `Records`: a pandas row or JSON object as an ordered sequence of named cells, with column
  lookup, column assignment, column selection (`df[names]`, raising a `KeyError` that lists every
  missing name), numeric reading of a cell and the subtraction of two columns.
- `Players`: `get_players`, the flattening of the player list into `k_i` keys.
- `Columns`: the two fixed column lists (60 kept columns, 43 classifier columns), generated
  from their structure and proved equal to the literal lists in the code.
- `Preprocess`: `preprocess_active`, `transform_to_predict`, the branching of
  `get_match_account_id` after its request, and `get_match_info`.
- `Frame`, `Rows`, `Features`: what those functions produce for a snapshot as the feed sends
  it, column by column; and what they raise for a snapshot with fewer than twelve players.
- `Text`: the ASCII classes `\d` and `\w`, the leftmost-match search `re.search` performs for a
  literal followed by a captured run, and `str.split`/`str.join` on one character.
- `ProfileUrl`: the URL validator of the bot as a parser and a renderer.
- `Steam`: `get_steamid3`.
- `Bot`: the refresh button's callback data, the subscription table, the argmax and team
  label, and the two handlers `process_profile_url` and `refresh_match_info` as functions from
  their inputs to the answer, the new subscription table, or the exception they let escape.

The HTTP requests are parameters. So are the custom-name lookup of the Steam Web API, the
classifier's `predict_proba` and the message id Telegram assigns. A snapshot's JSON body arrives
already parsed.

Behaviour of the code worth noting:

- The classifier row has 43 columns (tools.py:12-23): `net_worth_diff`, twelve heroes and
  fifteen flags per team. `Columns.PredictFeaturesLayout` proves the count.
- `get_match_info` gives team 1 the heroes `hero_id_6` to `hero_id_12`. That is seven heroes,
  and hero 6 is also the last hero of team 0 (`Features.SharedHero`).
- A status other than 200 comes back from `get_match_account_id` as the number itself. The bot
  tests it with `is not None`, so it goes on to `get_match_info`, which raises `AttributeError`.
  The handler therefore answers nothing (`Bot.StatusCodeRaises`).
- The validator ends in `$`, which in Python also matches just before a final line feed. A URL
  followed by one `\n` is therefore accepted. `ProfileUrl.Link.newline` records this.
- An account whose 64-bit id is exactly the base 76561197960265728 has account id 0. Because
  the bot tests the id for truth, it answers with the failure message (`Bot.AccountZeroFails`).

## Model

| member | source | states |
|---|---|---|
| Bits.Pow2 | tools.py:38-53 | `1 << n` has bit `n` set |
| Bits.Pow2LowBitsClear | tools.py:38-53 | every bit of `1 << n` below bit `n` is clear, so with bit `n` set each flag tests exactly one bit |
| Bits.BitAndPow2 | tools.py:38-53 | `mask & (1 << k)` is `1 << k` when bit `k` of the mask is set and 0 otherwise, for every integer mask including negative ones |
| Objectives.ExtractObjectives | tools.py:36-54 | the decoded mask has sixteen entries, named after the structures in bit order |
| Objectives.StructureNamesDistinct | tools.py:37-54 | the sixteen structure names are distinct, and bit 0 is `core` |
| Objectives.ExtractObjectivesBits | tools.py:38-53 | the flag of bit `b` is true exactly when bit `b` of the mask is set |
| Objectives.ExtractObjectivesHighBits | tools.py:38-53 | bits at position 16 and above never change the result: decoding `m` equals decoding `m % 65536` for every integer `m` |
| Objectives.ExtractObjectivesRoundTrip | tools.py:36-54 | packing sixteen flags into a mask and decoding gives the flags back; packing a decoding gives the mask's low sixteen bits |
| Records.LookupConcat | tools.py:62 | looking a name up in two rows placed side by side finds it in the first row if it is there, otherwise in the second |
| Records.Put | tools.py:68 | after the assignment the name holds the new value, every other name keeps its cell, and a new name is appended at the end |
| Records.MissingMember | tools.py:88 | a name is reported missing exactly when it is listed and the row lacks it |
| Records.MissingDistinct | tools.py:88 | the missing names are reported once each, however often they are listed |
| Records.SelectSpec | tools.py:88 | `df[names]` succeeds exactly when every name is present; it then holds the names in the listed order with the cells a lookup finds; otherwise its `KeyError` lists exactly the missing names, in the "None of … are in the [columns]" form exactly when no listed name is present |
| Records.SelectAppend | tools.py:24-26 | selecting one more, new name gives the earlier selection followed by that column; when either selection fails, the `KeyError` of the longer list is the earlier one's missing names with the new name added if the row lacks it |
| Records.SelectFound | tools.py:88 | when every listed name holds a known cell, the selection is exactly those names paired with those cells |
| Records.SelectMissingRange | tools.py:88 | when the row lacks exactly the distinct names of one stretch of the list, and holds some other listed name, the `KeyError` lists exactly that stretch |
| Records.LookupSelect | tools.py:88 | a selected column holds the same cell as in the row it was selected from |
| Records.Number | tools.py:64-65 | reading a cell as a number succeeds exactly for an int or bool cell; a missing column raises `KeyError` |
| Records.Difference | tools.py:68 | `row[a] - row[b]` raises `KeyError` for `a` when it is missing, then for `b`; with both present it raises `TypeError` when either cell is a string or both are booleans, and otherwise is the numeric difference |
| Players.Suffixed | tools.py:31-33 | a player's fields keep their values and order under the names `k_i` |
| Players.SuffixedNameInjective | tools.py:33 | distinct field/position pairs give distinct names, since a position never contains `_` |
| Players.SuffixedLookup | tools.py:33 | `k_i` is found in player `n`'s renamed fields exactly when `i == n`, with that player's value of `k` |
| Players.PutAllFresh | tools.py:32-33 | assigning new, distinct keys one by one appends them in order |
| Players.FlattenLookup | tools.py:29-34 | in the flat layout `k_i` holds field `k` of player `i`; a position outside the player list is not present |
| Players.GetPlayersFlat | tools.py:29-34 | with distinct keys per player no assignment overwrites another: the result is the flat layout, its keys are distinct, and its size is the sum of the players' key counts |
| Players.GetPlayersLookup | tools.py:29-34 | `k_i` of the flattened players is `players[i-1][k]`; in particular `hero_id_i` is player `i`'s hero |
| Columns.PlayerColumnsText | tools.py:71-77 | the generated player columns are the 24 listed names `account_id_1`, `hero_id_1`, …, `hero_id_12` |
| Columns.HeroColumnsText | tools.py:12-14 | the generated hero columns are the listed `hero_id_1` to `hero_id_12` |
| Columns.TeamFlagColumnsText0 | tools.py:77-82 | the generated team-0 flag columns are the sixteen listed `_0` names |
| Columns.TeamFlagColumnsText1 | tools.py:82-87 | the generated team-1 flag columns are the sixteen listed `_1` names |
| Columns.PreprocessFeaturesLayout | tools.py:70-87 | the kept columns are 60: the four match fields, the account and hero of each of twelve players, then the sixteen team-0 and the sixteen team-1 flags in bit order |
| Columns.PreprocessFeaturesKeepsCore | tools.py:77-82 | both `core_0` and `core_1` are kept |
| Columns.PreprocessFeaturesNoDiff | tools.py:68-88 | `net_worth_diff` is computed but not among the kept columns, and neither is `winning_team` |
| Columns.AccountColumn | tools.py:71-77 | the account column of player `m + 1` comes right after the columns of the first `m` players |
| Columns.PredictFeaturesLayout | tools.py:12-23 | the classifier columns are 43: `net_worth_diff`, `hero_id_1` to `hero_id_12`, then the fifteen non-core flags of team 0 and of team 1 in bit order |
| Columns.PredictColumnSource | tools.py:12-23 | every classifier column after `net_worth_diff` is one of the 60 kept columns |
| Columns.PredictFeaturesNoCore | tools.py:12-23 | neither core flag reaches the classifier |
| Preprocess.FlagColumns | tools.py:64-65 | a team's flag columns are sixteen, named `<structure>_<team>`, each holding the bit of that team's mask |
| Preprocess.PreprocessActive | tools.py:56-90 | an empty response raises `IndexError`; a successful result has exactly the 60 kept names, in order |
| Preprocess.AddDiff | tools.py:11 | adding `net_worth_diff` succeeds exactly when the team-1 net worth can be subtracted from the team-0 one, and fails with that subtraction's exception otherwise; on success the new column holds the difference and every other column keeps its cell |
| Preprocess.TransformToPredict | tools.py:10-27 | a successful result has 43 columns, or 44 when training |
| Preprocess.GetMatchAccountId | tools.py:95-102 | a status other than 200 is handed back as the number; 200 with an empty list gives `None`; otherwise the preprocessed first snapshot, or the exception preprocessing raises |
| Preprocess.HeroRange | tools.py:112-115 | the list succeeds exactly when every `hero_id_i` in the range is present, has one entry per position, and holds the cells found |
| Preprocess.GetMatchInfo | tools.py:104-118 | six values; six `None` values when there is no match; `AttributeError` when handed a status code |
| Frame.FlagColumnsLookup | tools.py:64-65 | the flag of bit `b` is found under `<structure>_<team>` in its own team's columns and not in the other team's |
| Frame.BaseFramePlayer | tools.py:61-62 | after the players are flattened and appended, the first twelve players' accounts and heroes are found under `k_i`; positions past the list are missing |
| Frame.AddFlagsAndDiffIs | tools.py:64-68 | with integer masks and net worths, both teams' flags are appended and `net_worth_diff` is set to team 1's minus team 0's net worth |
| Frame.ActiveFrameDiff | tools.py:68 | the frame's `net_worth_diff` is team 1's net worth minus team 0's |
| Frame.FrameField | tools.py:57-68 | a top-level field of the snapshot keeps its value in the frame |
| Frame.FramePlayer | tools.py:61-62 | a listed player's account and hero are in the frame under their renamed columns; an unlisted position is absent |
| Frame.FrameFlag | tools.py:64-66 | flag `<structure>_<t>` in the frame is bit `b` of team `t`'s mask |
| Rows.FrameColumn | tools.py:57-88 | each of the 60 kept columns that the snapshot backs holds its expected cell in the frame |
| Rows.PreprocessActiveRow | tools.py:56-90 | for a well-formed first snapshot the result is the 60 columns in order, each holding its expected cell, whatever follows in the response |
| Rows.FrameMissingRange | tools.py:57-68 | of the 60 kept columns, the frame lacks exactly the account and hero columns of the players past the listed ones |
| Rows.ShortFrameSelect | tools.py:88 | selecting the 60 from a frame that lacks exactly the columns of the players past player `m` raises `KeyError` listing `account_id_(m+1)`, `hero_id_(m+1)`, …, `hero_id_12` in that order |
| Rows.ShortPlayerList | tools.py:56-88 | a first snapshot with `m < 12` players raises `KeyError` listing the account and hero columns of every player from `m + 1` to 12 |
| Features.CellOfSource | tools.py:12-23 | the expected cell of each classifier column is the expected cell of its source among the 60 |
| Features.RowLacksDiffAndLabel | tools.py:68-88 | the preprocessed row has neither `net_worth_diff` nor `winning_team` |
| Features.TransformIs | tools.py:10-27 | `transform_to_predict` on a row whose net worths can be subtracted selects from the row with `net_worth_diff` set to team 1 − team 0 |
| Features.PredictFromRow | tools.py:10-27 | a row holding every classifier input gives the 43 columns in order with the difference first |
| Features.PredictRow | tools.py:10-27 | for a well-formed snapshot the classifier row is the 43 columns in order: team 1 − team 0, the twelve heroes, and the fifteen non-core bits of each mask |
| Features.TransformTrain | tools.py:24-26 | the training row is the prediction row followed by `winning_team`; without `winning_team` the `KeyError` lists it after the prediction row's missing columns; any other failure is the prediction row's |
| Features.LiveRowHasNoLabel | tools.py:24-26 | asking for the training columns of a live preprocessed row raises a `KeyError` listing `winning_team` alone |
| Features.SharedHero | tools.py:112-115 | team 0 lists six heroes and team 1 lists seven, and hero 6 is in both |
| Features.HeroRangeIs | tools.py:112-115 | reading `hero_id_lo` to `hero_id_(hi-1)` from a row that holds them gives exactly those cells |
| Features.InfoOfRow | tools.py:104-116 | `get_match_info` on a row gives the match id, net worths, score and both hero lists it holds |
| Features.MatchInfoRow | tools.py:99-116 | a well-formed match fetched with status 200 is shown as its match id, both net worths, the score, heroes 1-6 and heroes 6-12 |
| Text.RunLength | tools.py:127 | a greedy `+` consumes the longest prefix in the class: every consumed character is in it, and the next one is not |
| Text.SearchFinds | tools.py:127 | `re.search` reports the leftmost position where the pattern matches, with the whole run as the group |
| Text.SearchNone | tools.py:127-135 | the search comes back empty exactly when the pattern matches at no position |
| Text.Split | tg_bot.py:77 | `split('_')` gives at least one piece and no piece contains `_`; there is one piece exactly when the string has no `_` |
| Text.JoinSplit | tg_bot.py:77 | joining the pieces of a split with the separator gives the string back |
| Text.SplitJoin | tg_bot.py:77 | splitting a join of separator-free pieces gives the pieces back |
| ProfileUrl.ParseRun | tg_bot.py:57 | the run is non-empty and in its class, and it is followed by an accepted tail that makes up the rest |
| ProfileUrl.Validate | tg_bot.py:57 | an accepted URL is the rendering of the link it is parsed into, and that link has a valid name or digit run |
| ProfileUrl.ValidateRender | tg_bot.py:57 | every URL of the accepted shape is accepted and parsed back into the link it was built from |
| ProfileUrl.ValidateIff | tg_bot.py:57 | a URL is accepted exactly when it is `http(s)://steamcommunity.com/` followed by `id/` and word characters or by `profiles/` and digits, then an optional `/`, then optionally a final line feed |
| Steam.SteamId3 | tools.py:125-149 | failures are only the two `ValueError`s; with neither `/profiles/<digits>` nor `/id/<name>` in the URL the error is "Invalid Steam profile URL" |
| Steam.ProfileSearch | tools.py:127 | in an accepted `profiles/` URL, the leftmost `/profiles/` match captures exactly its digits |
| Steam.VanitySearch | tools.py:127-134 | an accepted `id/` URL has no `/profiles/` match, and the leftmost `/id/` match captures exactly its name |
| Steam.SteamIdOfProfileUrl | tools.py:127-131 | for an accepted `profiles/` URL the account id is the number in the URL minus 76561197960265728 |
| Steam.SteamIdOfVanityUrl | tools.py:133-147 | for an accepted `id/` URL the account id is the resolved 64-bit id minus the base, or `ValueError('Custom name not found')` |
| Steam.ProfileLinkOf | tools.py:127-131 | the profile URL of an account has a valid digit run |
| Steam.SteamIdRoundTrip | tools.py:127-131 | the profile URL of any account id is accepted by the bot, and `get_steamid3` reads back that account id without the custom-name lookup |
| Steam.ProfilesTakePrecedence | tools.py:127-134 | once `/profiles/<digits>` occurs, the result succeeds and does not depend on the custom-name lookup |
| Steam.NoSlashInvalid | tools.py:149 | a URL without `/` raises "Invalid Steam profile URL" |
| Bot.RefreshAccount | tg_bot.py:77 | reading the account id from a button succeeds exactly when the data holds `_`, and the id read holds no `_` |
| Bot.RefreshRoundTrip | tg_bot.py:77 | for every integer account id `a`, `('refresh_' + str(a)).split('_')[1] == str(a)`; the button data is built on tg_bot.py:28 |
| Bot.Subscribe | tg_bot.py:68 | the chat and account now map to the new message id, overwriting any earlier one, and every other entry is unchanged |
| Bot.Argmax | tg_bot.py:101 | the index is 0 exactly when the first probability is at least the second, so a tie goes to index 0 |
| Bot.Winner | tg_bot.py:101-103 | the reported probability is one of the two and at least both; the team is 'The Amber Hand' exactly when team 0's probability is at least team 1's, and 'The Sapphire Flame' otherwise |
| Bot.MatchText | tg_bot.py:95-103 | a status code raises `AttributeError`, no match raises `TypeError`, and a result has six values |
| Bot.ShowAccount | tg_bot.py:63-65 | a status other than 200 raises `AttributeError`; 200 with an empty list shows no match |
| Bot.ProcessProfileUrl | tg_bot.py:55-73 | a message without text makes `re.match` raise `TypeError`; a rejected URL gets the invalid-URL answer; only a match message writes the subscription table, under the chat and a non-zero account whose lookup produced the message and whose id the button carries |
| Bot.RefreshMatchInfo | tg_bot.py:75-93 | data without `_` raises `IndexError`; a rewritten match message carries the same button and shows the lookup of the account read from the button |
| Bot.ButtonRefreshes | tg_bot.py:75-88 | with the feed and classifier unchanged, pressing the button of a match message rewrites it with exactly what it shows |
| Bot.AccountZeroFails | tg_bot.py:62-72 | the profile URL of account 0 gets the failure answer and writes nothing |
| Bot.NoMatchAnswered | tg_bot.py:69-70 | when the feed lists no match, the answer says so and the subscription table is unchanged |
| Bot.StatusCodeRaises | tg_bot.py:63-65 | a non-200 status makes both handlers raise `AttributeError`, so nothing is answered or recorded |
| Bot.ProfileUrlShowsMatch | tg_bot.py:55-68 | for a live, well-formed match the answer shows the match fields, both hero lists and the classifier's verdict on the 43-column row; it carries the account's refresh button and is recorded under the chat and account |
| Bot.UnknownNameRaises | tg_bot.py:61 | an accepted `id/` URL whose name Steam cannot resolve makes the handler raise `ValueError('Custom name not found')` |
| Decimal.ParseNatToString | tools.py:129 | `int(str(n)) == n` for every natural number |
| Decimal.IntToStringInjective | tg_bot.py:28 | distinct account ids give distinct callback data |

## Left out

- The HTTP requests are left out: the active-matches request, the Steam Web API custom-name
  lookup and the hero-name lookups of `get_heroes` (tools.py:162-170). Their results are
  parameters, and the answer shows hero ids rather than names.
- `get_model` (tools.py:151-160) and loading the classifier (tg_bot.py:96) are left out. They
  train, persist and load a scikit-learn model; `predict_proba` is a parameter returning two reals.
- The aiogram plumbing is left out: the `/start` and `/check` handlers, the keyboard objects,
  `main` and polling. So is the FSM state. `state.clear()` is not modelled, so neither is the
  fact that a rejected URL leaves the conversation waiting for another one.
- The HTML template, the `%.2f` percentage and `datetime.now()` (tg_bot.py:104-120) are
  presentation and the clock. The answer is modelled by the values it shows.
- `json.loads` is left out: the body arrives parsed as a list of snapshots, and a JSON body that
  is not a list is not modelled.
- pandas details are left out:
  - cells have no null, so `dropna` (tools.py:59) has nothing to remove and is the identity
    in the model (see the `Preprocess.PreprocessActive` line for what nulls do in the source);
  - numpy integer width is not modelled, and cells are unbounded integers, booleans or strings;
  - columns with duplicate names are excluded by the well-formedness predicate
    (`Frame.Shaped`) rather than modelled as pandas returns them. For example, a first player
    with a `net_worth_team` key repeats the column `net_worth_team_1`, and pandas then raises
    `ValueError` at tools.py:68.
- Preprocess.PreprocessActive: a snapshot always has a list of players, each a JSON object. A
  snapshot without `players` (the `KeyError` of tools.py:61) and a player that is not an object
  (`.items()` failing at tools.py:32) are not modelled. JSON nulls are not modelled either.
  `dropna` (tools.py:59) runs before the players are flattened, so it sees only top-level
  fields. A null top-level field (say `match_score`) empties the one-row frame; no player
  columns are then made, and `data[features]` (tools.py:88) raises `KeyError`. A null inside a
  player (say `hero_id` of player 3) is not dropped: it reaches `hero_id_3`, then
  `get_match_info` and the classifier.
- Preprocess.TransformToPredict: the function returns the new row; that it also writes
  `net_worth_diff` into the caller's DataFrame (tools.py:11) is not modelled.
- Text.RunLength: `\d` and `\w` are ASCII only; Python also matches other Unicode digits and letters.
- Steam.SteamId3: the resolved `steamid` is taken as an integer; parsing the string the API
  returns is part of the left-out request. Python 3.11 and later refuse to convert a string of
  more than 4300 digits with `int()`. The `ValueError` this raises at tools.py:129 for such a
  `/profiles/` run is not modelled, because the conversion here has no digit limit.
- Decimal.ParseNatToString: holds for every natural number, while Python 3.11 and later raise
  `ValueError` from `str` and `int` beyond 4300 digits. Numbers that long are not modelled.
- Bot.Winner: the probabilities are reals, and NaN is not modelled.
- Bot.ProcessProfileUrl: an exception is modelled as a failed result. What aiogram does with it
  (logging it and sending nothing) is not modelled.
