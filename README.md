# airlines-manager-bot, modelled in Dafny

The bot plays the browser game Airlines Manager (tycoon.airlines-manager.com)
for its owner. It keeps one logged-in HTTP session and scrapes the game's
pages: the network page (the list of the account's lines) and the aircraft
page. For each line it opens the line and its pricing page. It asks for an
audit when the line's reliability is above 50, and it posts the ideal prices
when they differ from the current ones. It stamps each line with the update
time and keeps it in a JSON file. It also collects the free extras the game
hands out: the free card holder, free workshop items and the travel cards
wheel.

This project models the decision and data layer under that plumbing:

- **Value types.** The four-bucket values (`CategorizedValue`, `Demand`,
  `Price`) and the dictionary-backed models (`BaseModel`, `Airport`, `Line`).
- **Session manager.** The `SessionManager` class: its cached session, cookie
  probe and re-login, header merging, and `request`.
- **Paginated listings.** The loops over the network and aircraft pages, and
  the parsing of their rows.
- **Line reconciliation.** The staleness gate, the basic and marketing
  refreshes, the audit and price-push rules, the stamping and the
  persistence.
- **Free extras.** The card holder, workshop and travel cards wheel flows.
- **Text helpers.** `sanitize_text`, `str.split` and decimal `int`/`str`.

The game server is not modelled. Each request is answered by an abstract
server, and every request goes into a ghost log of exchanges. A page is the
record of exactly what the bot's BeautifulSoup queries read from it
(`Pages.Page`).

The module functions take the manager's `request` as a function argument
(`Sessions.Requester`), so each flow is a pure function from the session
state to a new state and a result. Each method that drives a real
`SessionManager` object is proved equal to that function. The lemmas then
state, over the log of requests, what the flow sends and in which order.

Module layout:

| file | module | models |
|---|---|---|
| `results.dfy`, `json.dfy` | `Results`, `Json` | Python exceptions as `Error` values, and decoded JSON values |
| `strings.dfy` | `Strings` | `src/modules/strings.py`, and the `str` methods the bot uses |
| `words.dfy` | `WordSplit` | `str.split()` and `" ".join`, the reference `sanitize_text` is proved against |
| `common.dfy` | `Common` | `src/modules/common.py` and `src/modules/pagination.py` |
| `storage.dfy` | `Storage` | the local folders the models are persisted to, one JSON document per file |
| `base_model.dfy` | `BaseModels` | `src/models/base_model.py` |
| `categorized_value.dfy`, `demand.dfy`, `price.dfy` | `CategorizedValues`, `Demands`, `Prices` | `src/models/categorized_value.py`, `demand.py` and `price.py` |
| `airport.dfy` | `Airports` | `src/models/airport.py` |
| `line.dfy`, `line_object.dfy` | `Lines`, `LineObjects` | `src/models/line.py`: the dictionary logic, and the `Line` class |
| `pages.dfy` | `Pages` | the pages the server answers with |
| `session_manager.dfy` | `Sessions` | `src/modules/session_manager.py` |
| `paging.dfy` | `Paging` | the `while has_next` loop shared by the two listings |
| `lines_summary.dfy`, `airplanes.dfy` | `LinesSummary`, `Airplanes` | `src/modules/lines_summary.py` and `airplanes.py` |
| `lines_audit.dfy`, `lines_data.dfy`, `all_lines.dfy` | `LinesAudit`, `LinesData`, `AllLines` | `src/modules/lines_audit.py`, `lines_data.py` and `lines.py` |
| `card_holder.dfy`, `workshop.dfy`, `travel_cards_wheel.dfy` | `CardHolder`, `Workshop`, `TravelCardsWheel` | `src/modules/card_holder.py`, `workshop.py` and `travel_cards_wheel.py` |

## Model

| member | source | states |
|---|---|---|
| Strings.LStrip | src/modules/strings.py:10 | `str.lstrip()`: the result is a suffix of the input that is empty or starts with a non-whitespace character, and it is strictly shorter whenever the input starts with whitespace |
| Strings.LStripDropsSpaces | src/modules/strings.py:10 | everything `lstrip` removes is whitespace |
| Strings.RStrip | src/modules/strings.py:10 | `str.rstrip()`: the result is a prefix of the input that is empty or ends with a non-whitespace character |
| Strings.RStripDropsSpaces | src/modules/strings.py:10 | everything `rstrip` removes is whitespace |
| Strings.StripEnds | src/modules/strings.py:10 | `strip()` leaves no whitespace at either end |
| Strings.Strip | src/modules/strings.py:10 | `str.strip()`, `rstrip` after `lstrip`; `StripEnds` and `StripKeepsNonSpaces` state that it leaves no whitespace at either end and keeps every non-whitespace character in order |
| Strings.StripKeepsNonSpaces | src/modules/strings.py:10 | `strip()` keeps every non-whitespace character, in order |
| Strings.CollapseEnds | src/modules/strings.py:10 | `re.sub(r'\s+', ' ', s)` is empty exactly when `s` is, and keeps whether each end is whitespace |
| Strings.CollapseSpacing | src/modules/strings.py:10 | after the substitution every whitespace character is a plain space, and no two whitespace characters are adjacent; that each run becomes exactly one space, and not nothing, is `CollapseJoinsWords` |
| Strings.Collapse | src/modules/strings.py:10 | `re.sub(r'\s+', ' ', s)`; `CollapseSpacing`, `CollapsePreserves` and `WordSplit.CollapseJoinsWords` state that every maximal whitespace run becomes exactly one plain space and nothing else changes |
| Strings.CollapsePreserves | src/modules/strings.py:10 | the substitution keeps the non-whitespace characters in order and never lengthens the text |
| Strings.SanitizeTextIsClean | src/modules/strings.py:4-10 | the output of `sanitize_text` has no whitespace at either end, only plain single spaces inside, and never two whitespace characters in a row; that each inner whitespace run becomes exactly one space, and not nothing, is `SanitizeTextJoinsWords` |
| Strings.CleanIsFixed | src/modules/strings.py:4-10 | a text that is already clean is returned unchanged |
| Strings.SanitizeTextIdempotent | src/modules/strings.py:4-10 | `sanitize_text(sanitize_text(s)) == sanitize_text(s)` |
| Strings.SanitizeTextPreserves | src/modules/strings.py:4-10 | `sanitize_text` keeps the non-whitespace characters in their original order, and the output is never longer than the input |
| Strings.SanitizeTextEmpty | src/modules/strings.py:4-10 | the output is empty exactly when the input is empty or all whitespace |
| Strings.SanitizeText | src/modules/strings.py:4-10 | `sanitize_text`: strip, then replace each whitespace run by one space; its properties are the `SanitizeText*` lemmas |
| WordSplit.WordsAreWords | src/modules/strings.py:10 | of `s.split()`, the reference for what a word is (the maximal runs of non-whitespace characters, in order): every element is non-empty and holds no whitespace |
| WordSplit.CollapseJoinsWords | src/modules/strings.py:10 | on a text with no whitespace at either end, `re.sub(r'\s+', ' ', s)` is the words of the text joined by exactly one space |
| WordSplit.SanitizeTextJoinsWords | src/modules/strings.py:4-10 | `sanitize_text(s) == " ".join(s.split())`: the words of `s`, in order, with exactly one space between each two consecutive words, so every maximal inner whitespace run becomes exactly one space |
| Strings.SplitPartsFree | src/modules/lines_summary.py:78-79 | no part of `s.split(sep)` contains the separator |
| Strings.JoinOfSplit | src/modules/lines_summary.py:78-79 | `sep.join(s.split(sep)) == s`: splitting loses nothing |
| Strings.Split | src/modules/lines_summary.py:76-79 | `s.split(sep)` for a one-character separator: always at least one part; `JoinOfSplit`, `SplitOfJoin` and `SplitPartsFree` make it the inverse of `sep.join` on separator-free parts |
| Strings.SplitOfJoin | src/modules/lines_summary.py:78-79 | splitting the join of separator-free parts gives back exactly those parts |
| Strings.JoinAppend | src/modules/lines_summary.py:78-79 | joining two lists of parts is joining each, with one separator between them |
| Strings.SplitAround | src/modules/lines_summary.py:78-79 | `(a + sep + b).split(sep)` is the parts of `a` followed by the parts of `b` |
| Strings.SplitOfFree | src/modules/lines_summary.py:78-79 | a text without the separator splits into itself alone, which is also its last part |
| Strings.SplitTwoParts | src/modules/lines_summary.py:78-79 | `"a/b".split('/') == [a, b]` when neither part contains "/" |
| Strings.LastPartAfterSeparator | src/modules/lines_summary.py:76 | `split(sep)[-1]` depends only on the text after the last separator |
| Strings.PartAt | src/modules/lines_summary.py:79 | `s.split(sep)[k]` succeeds exactly when there are more than `k` parts, and is IndexError otherwise |
| Strings.NatToString | src/modules/lines_summary.py:44 | `str(n)` of a non-negative integer is a non-empty run of decimal digits |
| Strings.ParseIntOfIntToString | src/modules/lines_summary.py:76 | `int(str(i)) == i` for every integer |
| Strings.ParseInt | src/modules/lines_summary.py:76 | `int(s)` on an optional minus sign followed by decimal digits, and no value otherwise; `ParseIntOfIntToString` states that it reads back every `str(i)` |
| Strings.IntToString | src/modules/lines_summary.py:76 | `str(i)`: a non-empty text; `IntToStringFree` and `IntToStringInjective` state that it holds only a sign and digits and that distinct integers give distinct texts |
| Strings.IntToStringFree | src/modules/lines_summary.py:76 | a rendered integer contains no character other than a sign and digits, so it contains no "/" |
| Strings.IntToStringInjective | src/modules/lines_summary.py:44 | different integers render as different texts |
| Common.SanitizeText | src/modules/common.py:20-26 | the duplicate in common.py computes the same as strings.py's `sanitize_text`: the words of its input joined by single spaces, so it is clean, keeps the non-whitespace characters, never lengthens its input and is idempotent |
| Common.HasNextPage | src/modules/common.py:10-17 | a page without the pagination div fails with AttributeError (the `find_all` on None); otherwise the answer is true exactly when one of the pagination spans has class "next" |
| Pages.NextSpans | src/modules/pagination.py:4-12 | `find_all('span', class 'next')` returns only "next" spans, and no more spans than the pagination holds |
| Pages.NextSpansNonEmpty | src/modules/pagination.py:4-12 | `len(next_div) > 0` exactly when some span of the pagination has class "next" |
| Paging.Listing | src/modules/lines_summary.py:20-27 | the `while has_next` loop from a given page with at most `fuel` requests: it extends the log of requests, and makes at least one request and no more than `fuel` |
| Paging.ListingCalls | src/modules/lines_summary.py:21-27 | the loop requests pages `page`, `page + 1`, ... in order, with no gap and no repeat |
| Paging.ListingCallsMore | src/modules/lines_summary.py:24-27 | after a page that announces a next one, the loop's requests are that page's, then the rest of the loop's from the next page |
| Paging.PagesFromCons | src/modules/lines_summary.py:21-27 | one page's request in front of the requests from the next page on is the requests from that page on |
| Paging.ListingReadsPages | src/modules/lines_summary.py:20-27 | the loop's result is the outcome its fetched pages determine |
| Paging.ListingReadsOne | src/modules/lines_summary.py:24-27 | a loop that stops after one request is decided by that one page |
| Paging.ListingReadsMore | src/modules/lines_summary.py:24-27 | a loop whose first page announced a next page is that page's rows in front of the rest of the loop |
| Paging.ListingOutcomeCons | src/modules/lines_summary.py:24-27 | a page that announced a next page, in front of the pages of the rest, keeps the outcome of the rest with its rows in front |
| Paging.ExchangesSinceChain | src/modules/lines_summary.py:24-27 | the exchanges of two consecutive stretches of the session are those of the first, then those of the second |
| Paging.Present | src/modules/lines_summary.py:59 | a header row's empty dictionary contributes no row; any other row contributes itself |
| Paging.ParseAll | src/modules/lines_summary.py:58-59 | the comprehension over a table's rows followed by the filter of empty dictionaries: an empty table yields no rows, and a result never has more rows than the table |
| Paging.ParseAllOk | src/modules/lines_summary.py:58-59 | the table is read exactly when no row raises |
| Paging.ParseAllFirstError | src/modules/lines_summary.py:58 | a failed table read fails with the error of one of its rows |
| Paging.ParseAllAppend | src/modules/lines_summary.py:58-59 | reading a table in two stretches gives the rows of the first, then those of the second |
| Paging.ListingStep | src/modules/lines_summary.py:24-27 | one turn of the loop: a read error ends it, a page without a next page ends it with the collected rows, and otherwise the loop goes on from the next page |
| Paging.RequestPage | src/modules/lines_summary.py:25-27 | one turn of the loop, through the manager: its state and the page read agree with one step of `Listing` |
| Paging.FetchPages | src/modules/lines_summary.py:20-27 | the imperative loop leaves the manager in the state `Listing` describes, with the rows `Listing` yields |
| Paging.FetchListing | src/modules/lines_summary.py:20-27 | the listing loop through the session manager equals `Listing` from page 1 |
| Paging.Exported | src/modules/lines_summary.py:29-30 | saving to CSV reads the first row's keys: an empty listing becomes IndexError, an error stays the same error, and a success always has at least one row |
| LinesSummary.SummaryCall | src/modules/lines_summary.py:43-46 | page `page` of the network list is a plain GET of `/network/?page=<page>` that follows redirects and has no extra headers |
| LinesSummary.SummaryCallInjective | src/modules/lines_summary.py:43-46 | different pages are different requests |
| LinesSummary.ParseSummaryRow | src/modules/lines_summary.py:64-88 | a header row (one with `th` cells) reads as the empty dictionary, and only a header row does. Of the failures the row record can hold, a line row fails exactly when the link's last "/" part is not an integer (ValueError), or else when the name cell has no "/" (IndexError); missing cells, links and images are not represented (see Left out) |
| LinesSummary.SummaryRowReadsLine | src/modules/lines_summary.py:75-87 | a row whose link ends in "/<id>" and whose name reads "<origin>/<destination>" parses to that id, the sanitised origin and destination and name, and the link as its url |
| LinesSummary.SummaryPage | src/modules/lines_summary.py:36-61 | a failed request keeps its error; a page without the `displayPro` div is ReferenceError; otherwise the page is read exactly when every row parses and the pagination div exists |
| LinesSummary.HeaderRowsAreDropped | src/modules/lines_summary.py:58-59 | a header row anywhere in the table adds nothing to the page's lines |
| LinesSummary.SummaryReadsPages | src/modules/lines_summary.py:14-33 | `fetch_lines_summary` requests the network pages 1, 2, ... in order. When it succeeds it holds the lines of all those pages, in page order, and at least one line; the last page announced no next page and every other page did |
| LinesSummary.Summary | src/modules/lines_summary.py:14-33 | `fetch_lines_summary`: the paged listing of the network pages from page 1, then the CSV header read of its first row; stated by `SummaryReadsPages` |
| LinesSummary.FetchLinesSummary | src/modules/lines_summary.py:14-33 | the method's final manager state and its result are those of `Summary` |
| Airplanes.Referer | src/modules/airplanes.py:45 | the Referer is the home page for page 1 or less, and the previous aircraft page otherwise |
| Airplanes.AirplanesCall | src/modules/airplanes.py:46-52 | page `page` is a GET of `/aircraft?page=<page>` that follows redirects and carries exactly the Referer header |
| Airplanes.RefererIsPreviousPage | src/modules/airplanes.py:45 | the Referer of each page after the first is the address of the page before it |
| Airplanes.AirplanesCallInjective | src/modules/airplanes.py:46-52 | different pages are different requests |
| Airplanes.Prefix3 | src/modules/airplanes.py:87 | `text[:3]` is a prefix of the text, three characters long or the whole text if it is shorter |
| Airplanes.ParseAirplaneRow | src/modules/airplanes.py:69-96 | a header row reads as the empty dictionary, and only a header row does. Of the failures the row record can hold, an aircraft row fails, with ValueError, exactly when the last "/" part of its `data-url` is not an integer; a missing span, cell or image is not represented (see Left out) |
| Airplanes.AirplaneRowReadsAircraft | src/modules/airplanes.py:81-96 | a row whose `data-url` ends in "/<id>", whose model cell reads "<model>/<rest>" and whose hub cell starts with a three-character code parses to that id, that sanitised model and hub, and keeps the `data-url` as its url |
| Airplanes.HubIsShort | src/modules/airplanes.py:87 | a parsed hub is at most three characters long |
| Airplanes.AirplanesPage | src/modules/airplanes.py:37-66 | a failed request keeps its error; a page without the `aircraftListViewTable` table is ReferenceError; otherwise the page is read exactly when every row parses and the pagination div exists |
| Airplanes.AllAirplanesReadsPages | src/modules/airplanes.py:14-34 | `fetch_all_airplanes` requests the aircraft pages 1, 2, ... in order. When it succeeds it holds the aircraft of all those pages, in page order, and at least one aircraft; the last page announced no next page and every other page did |
| Airplanes.AllAirplanes | src/modules/airplanes.py:14-34 | `fetch_all_airplanes`: the paged listing of the aircraft pages from page 1, then the CSV header read of its first row; stated by `AllAirplanesReadsPages` |
| Airplanes.FetchAllAirplanes | src/modules/airplanes.py:14-34 | the method's final manager state and its result are those of `AllAirplanes` |
| Sessions.Initial | src/modules/session_manager.py:17-18 | a new manager has no session, no cached user agent, and has done nothing |
| Sessions.UserAgentAsWritten | src/modules/session_manager.py:53-64 | `get_user_agent` as written: with an agent cached it returns it and changes nothing; without one, it caches a new choice |
| Sessions.UserAgentAsWrittenLosesFirstChoice | src/modules/session_manager.py:60-64 | the first call of `get_user_agent` as written returns None, not the agent it has just cached, whereas the corrected function returns that agent |
| Sessions.UserAgent | src/modules/session_manager.py:53-64 | `get_user_agent` with its `return`: the cached agent when there is one, otherwise the new choice; the cache then holds the returned agent |
| Sessions.UserAgentIsStable | src/modules/session_manager.py:60-61 | once an agent is chosen, later calls return it and keep it, whatever a later random pick would be |
| Sessions.DefaultHeaders | src/modules/session_manager.py:74-80 | the default headers are exactly Accept, Accept-Encoding, Accept-Language, Cache-Control and User-Agent, and User-Agent is the session's agent |
| Sessions.MergeHeaders | src/modules/session_manager.py:82-85 | without extras the defaults are returned; with extras the keys are the union, every extra wins, and every other default is kept |
| Sessions.HeadersFor | src/modules/session_manager.py:67-85 | `get_headers` changes only the cached agent and leaves one cached. Its User-Agent is the caller's when given, and the cached agent otherwise (with the corrected `UserAgent`; see Left out) |
| Sessions.Send | src/modules/session_manager.py:113-114 | one call of a session verb: the server answers from everything done so far, and the request goes into the log with its answer |
| Sessions.CheckCookies | src/modules/session_manager.py:127-146 | the cookie probe loads the cookie file, then sends one GET of the home page without following redirects; the cookies are good exactly when that answer is 200; no `request` call is recorded (with the corrected `UserAgent`; see Left out) |
| Sessions.LoginPayload | src/modules/session_manager.py:175-180 | the login form holds exactly `_remember_me='off'`, `_username`, `_password` and `_csrf_token` |
| Sessions.RefreshLogin | src/modules/session_manager.py:149-185 | the login page is fetched first. Without a CSRF input it is ReferenceError and nothing more is sent; with one, exactly one POST to `/login_check` follows, carrying the login payload with that token |
| Sessions.Credentials | src/modules/session_manager.py:46-47 | the credentials are read from `AM_USER_EMAIL` and `AM_USER_PASSWORD`, and are KeyError when either is unset |
| Sessions.OpenSession | src/modules/session_manager.py:31-50 | after `get_session` a session exists, the earlier log is kept, and no `request` call is recorded |
| Sessions.OpenSessionReuses | src/modules/session_manager.py:38-39 | once a session exists, `get_session` returns it with no cookie probe and no login |
| Sessions.OpenSessionLogsInIffProbeFails | src/modules/session_manager.py:41-48 | on first use the cookies are probed. A good probe ends it; a failed probe with missing credentials is KeyError; a failed probe with credentials next requests the login page |
| Sessions.DoRequest | src/modules/session_manager.py:88-124 | `request` records its call and outcome whatever happens, and always leaves a session behind. A session error or an invalid method fails before anything is sent (ValueError for the method). A success sends exactly the call's verb, url, payload and redirect flag, returns the server's answer, then saves the cookies and waits. With a session and a valid method it always succeeds, and the headers it sends are those of `HeadersFor` with the call's extra headers: the defaults, with every extra key winning |
| Sessions.CallsAppend | src/modules/session_manager.py:88-124 | the calls of two stretches of exchanges are those of the first, then those of the second |
| Sessions.CallsAt | src/modules/session_manager.py:88-124 | each call of a stretch is the call of the exchange at the same place |
| Sessions.CallsSinceChain | src/modules/session_manager.py:88-124 | the calls made over two consecutive stretches are those of the first, then those of the second |
| Sessions.DoRequestRecords | src/modules/session_manager.py:88-124 | the manager's `request` appends each call with its outcome to the calls made before |
| Sessions.RequestExtends | src/modules/session_manager.py:88-124 | one recorded request adds exactly its own call |
| Sessions.SessionManager.constructor | src/modules/session_manager.py:13-18 | a new manager over a world holds the initial state |
| Sessions.SessionManager.GetUserAgent | src/modules/session_manager.py:53-64 | returns and caches the agent that `UserAgent` gives, and changes nothing else (with the corrected `UserAgent`; see Left out) |
| Sessions.SessionManager.GetHeaders | src/modules/session_manager.py:67-85 | the manager's new state and the headers are those of `HeadersFor` (with the corrected `UserAgent`; see Left out) |
| Sessions.SessionManager.SendRequest | src/modules/session_manager.py:113-114 | the manager's new state and the response are those of `Send` |
| Sessions.SessionManager.CheckCookiesFileSanity | src/modules/session_manager.py:127-146 | the manager's new state and the verdict are those of `CheckCookies` (with the corrected `UserAgent`; see Left out) |
| Sessions.SessionManager.RefreshLoginCookies | src/modules/session_manager.py:149-185 | the manager's new state and the error are those of `RefreshLogin` |
| Sessions.SessionManager.GetSession | src/modules/session_manager.py:31-50 | the manager's new state and the error are those of `OpenSession` |
| Sessions.SessionManager.Request | src/modules/session_manager.py:88-124 | the manager's new state and the outcome are those of `DoRequest` |
| BaseModels.UnserializedRejectsUnknown | src/models/base_model.py:35-36 | `unserialize` fails exactly when some key is not an attribute, and then with ValueError |
| BaseModels.Serialized | src/models/base_model.py:17-27 | the dictionary `serialize` builds: exactly the serialisable fields, each with its attribute or None; stated by `Model.Serialize` and `UnserializeOfSerialize` |
| BaseModels.Unserialized | src/models/base_model.py:29-41 | `unserialize(d)`: ValueError when a key is not an attribute, otherwise every key of `d` assigned; stated by `UnserializedRejectsUnknown` and `UnserializedAssigns` |
| BaseModels.UnserializedAssigns | src/models/base_model.py:38-39 | on success the attribute names stay the same, each given key takes its new value, and every other attribute keeps its old one |
| BaseModels.UnserializeOfSerialize | src/models/base_model.py:17-41 | `unserialize(serialize())` leaves every attribute as it was |
| BaseModels.Model.constructor | src/models/base_model.py:4-8 | a new instance holds its class's default attributes and serialisable fields |
| BaseModels.Model.New | src/models/base_model.py:10-15 | `BaseModel(**kwargs)` succeeds exactly when every keyword names an attribute, and its attributes are then `unserialize(kwargs)` applied to the defaults |
| BaseModels.Model.Serialize | src/models/base_model.py:17-27 | the dictionary's keys are exactly the serialisable fields, each holding the attribute's current value, or None when there is no such attribute |
| BaseModels.Model.Unserialize | src/models/base_model.py:29-41 | an unknown key is ValueError and nothing is assigned; otherwise the attributes become `Unserialized` of the old ones, each key assigned in turn |
| CategorizedValues.Default | src/models/categorized_value.py:8-11 | a fresh value has all four buckets at 0 |
| CategorizedValues.EqualsIffSameBuckets | src/models/categorized_value.py:22-33 | the sum of the four absolute differences is zero exactly when every bucket is equal, that is when the values are the same |
| CategorizedValues.Equals | src/models/categorized_value.py:22-33 | `__eq__`: the sum of the four absolute bucket differences is zero; stated by `EqualsIffSameBuckets` and `EqualsIsEquivalence` |
| CategorizedValues.EqualsIsEquivalence | src/models/categorized_value.py:28-33 | `__eq__` is reflexive, symmetric and transitive |
| CategorizedValues.EqualTotalsAreNotEnough | src/models/categorized_value.py:28-33 | moving one unit from economic to executive keeps the total but makes the values unequal |
| CategorizedValues.ToTextReadsBackAsTotal | src/models/categorized_value.py:15-20 | `__str__` is a decimal numeral that reads back as the sum of the four buckets |
| CategorizedValues.ToText | src/models/categorized_value.py:15-20 | `__str__`: the four-bucket total in decimal; stated by `ToTextReadsBackAsTotal` |
| CategorizedValues.FromDict | src/models/base_model.py:29-41 | a fresh value then `unserialize(d)`: it succeeds exactly when `d` holds only bucket names with integer values. Each bucket is the dictionary's value, or 0 when absent, and a key that is not one of the four serialisable fields is ValueError |
| CategorizedValues.FromDictOfSerialize | src/models/categorized_value.py:13 | reading back the serialised four buckets gives the same value |
| CategorizedValues.FromEmptyDictIsDefault | src/models/categorized_value.py:8-11 | the empty dictionary gives the all-zero value |
| Demands.TotalPaxExcludesCargo | src/models/demand.py:23-28 | the passengers plus the cargo are the four-bucket total, and changing the cargo does not change the passengers |
| Demands.TotalPax | src/models/demand.py:23-28 | `get_total_pax`: the three passenger buckets; stated by `TotalPaxExcludesCargo` |
| Demands.ToTextReadsBack | src/models/demand.py:10-21 | the text splits on spaces into the format's eleven words; the economic, executive and first-class words read back as those buckets, the parenthesised word as `get_total_pax`, and the word before "T" as the cargo |
| Demands.ToText | src/models/demand.py:10-21 | `__str__`: the three passenger buckets, the passenger total and the cargo in the source's format; stated by `ToTextReadsBack` |
| Demands.CreateDemandFromDict | src/models/demand.py:31-40 | it succeeds exactly when the dictionary holds only integer buckets. The given buckets are set and the others stay 0; any other key is ValueError |
| Prices.ToTextReadsBackAsTotal | src/models/price.py:10-13 | the text is "$ " followed by a numeral that reads back as the four-bucket total |
| Prices.ToText | src/models/price.py:10-13 | `__str__`: "$ " and the four-bucket total; stated by `ToTextReadsBackAsTotal` |
| Prices.CreatePriceFromDict | src/models/price.py:16-25 | it succeeds exactly when the dictionary holds only integer buckets. The given buckets are set and an absent one (economic among them) stays 0; any other key is ValueError |
| Storage.Disk.constructor | src/models/airport.py:50-51 | a disk holding the given files |
| Storage.PathJoin | src/models/airport.py:50 | `os.path.join(folder, name)`: an absolute name replaces the folder; otherwise the folder and the name are joined with exactly one "/" |
| Airports.Default | src/models/airport.py:15-16 | a fresh airport has neither abbreviation nor name |
| Airports.Serialize | src/models/airport.py:18 | the serialised airport has exactly the keys `abbrev` and `name`, each holding its attribute, with `None` as null |
| Airports.Unserialized | src/models/base_model.py:29-41 | `unserialize(d)` on an airport succeeds exactly when `d` holds only `abbrev` and `name`, as texts or null. A given attribute is replaced and an absent one kept; any other key is ValueError |
| Airports.CreateAirportFromDict | src/models/airport.py:78-89 | a fresh airport, then `unserialize`: abbreviation and name come from the dictionary and stay None when absent; any other key is ValueError |
| Airports.UnserializedOfSerialize | src/models/airport.py:78-89 | reading a serialised airport back, into any airport or into a fresh one, gives the same airport |
| Airports.ToTextShowsBoth | src/models/airport.py:31-38 | `__str__` is the abbreviation, then " - ", then the name, each shown as "None" when absent |
| Airports.ToText | src/models/airport.py:31-38 | `__str__`: the abbreviation, " - " and the name, None shown as "None"; stated by `ToTextShowsBoth` |
| Airports.FilePath | src/models/airport.py:50 | the file is `<AIRPORTS_OBJECTS_FOLDER>/<abbrev>.json`, and KeyError when the variable is unset |
| Airports.LoadFromFile | src/models/airport.py:40-61 | without an abbreviation it is ValueError; without the folder variable, KeyError; when no file exists the airport is returned unchanged |
| Airports.Persisted | src/models/airport.py:63-75 | without an abbreviation it is ValueError; otherwise, with the folder variable set, exactly the airport's file is written with its serialisation and every other file is kept |
| Airports.LoadAfterPersist | src/models/airport.py:40-75 | loading what was persisted, into any airport with the same abbreviation, gives back the persisted airport |
| Airports.PersistToFile | src/models/airport.py:63-75 | the disk becomes `Persisted`; on an error nothing is written and the error is returned |
| Airports.New | src/models/airport.py:20-29 | without an `id` keyword, the constructor is `create_airport_from_dict` of its keywords |
| Airports.NewWithIdIsRejected | src/models/airport.py:26-29 | an `id` keyword is rejected by `unserialize` with ValueError (an airport has no `id` attribute), so the file is never loaded |
| Lines.Default | src/models/line.py:18-33 | a fresh line has every attribute None (id, airports, prices, dates among them), and `can_update_prices` false |
| Lines.NamesDisjoint | src/models/line.py:94-104 | no attribute is both plain and special |
| Lines.FieldListsMatchNames | src/models/line.py:94-104 | the special list names exactly the special attributes, and the plain list exactly the plain ones |
| Lines.PlainValuesDetermine | src/models/line.py:64-86 | two lines that agree on the serialised plain attributes and on the special ones are the same line |
| Lines.Serialize | src/models/line.py:64-86 | `serialize` writes exactly the sixteen attributes: each plain one as it is, and each special one as its nested object serialised or its date as text. An unset special attribute is AttributeError (the `serialize`/`isoformat` on None) |
| Lines.AssignPlain | src/models/base_model.py:38-39 | `setattr` of a plain attribute sets that attribute and changes nothing else |
| Lines.AssignPlainFieldsValues | src/models/line.py:104 | after the base class's assignments each plain attribute named by the dictionary holds the given value, and the others are as they were |
| Lines.AssignPlainFieldsKeepSpecials | src/models/line.py:104 | the base class's assignments leave the special attributes as they were |
| Lines.ParseDate | src/models/line.py:125-128 | the date parser reads a numeric text as its value; other text is ValueError, and a value that is not text is TypeError |
| Lines.AssignSpecial | src/models/line.py:106-128 | one special attribute routed through its factory leaves the plain attributes alone; a nested field that is not a dictionary is AttributeError |
| Lines.UnserializedRejectsUnknown | src/models/line.py:104 | a key that is not an attribute is ValueError raised before anything is assigned |
| Lines.AssignSpecialKeepsOthers | src/models/line.py:106-128 | routing one special attribute of the dictionary changes no special attribute the dictionary does not name |
| Lines.AssignSpecialFieldsKeeps | src/models/line.py:106-128 | the special assignments never touch the plain attributes, and leave the specials the dictionary does not name as they were |
| Lines.UnserializedKeepsAbsentSpecials | src/models/line.py:106-128 | a special attribute missing from the dictionary keeps its value through `unserialize` |
| Lines.AssignmentsKeepAbsentSpecials | src/models/line.py:104-128 | the plain assignments followed by the special ones leave the specials the dictionary does not name as they were |
| Lines.AssignSpecialOfSerialize | src/models/line.py:64-128 | a serialised special attribute, read back through its factory, is the attribute it was |
| Lines.AssignSpecialFieldsOfSerialize | src/models/line.py:64-128 | reading back every serialised special attribute copies them all, with no error |
| Lines.CopyAllSpecials | src/models/line.py:106-128 | copying the eight special attributes takes every special attribute and keeps every plain one |
| Lines.UnserializedAccepted | src/models/line.py:104-128 | a dictionary the base class accepts is assigned plain part first, then the special attributes in the order the source handles them |
| Lines.SerializedPlainPartFits | src/models/line.py:64-86 | the plain part of a serialised line is one the base class accepts |
| Lines.UnserializedOfFields | src/models/line.py:64-130 | a dictionary holding exactly the serialised attributes of a line reads back as that line, whatever line it is read into |
| Lines.UnserializedOfSerialize | src/models/line.py:64-130 | `unserialize(serialize(l))` reproduces every attribute of `l`, whatever line it is read into |
| Lines.Unserialized | src/models/line.py:88-130 | `Line.unserialize`: a key that is not an attribute is ValueError and nothing changes; otherwise the plain part goes through the base class, then each special field present goes through its factory. Its properties are the `Unserialized*` and `AssignSpecial*` lemmas |
| Lines.FilePath | src/models/line.py:140-141 | with `LINES_OBJECTS_FOLDER` unset the file is `/data/models/lines/<id>.json` |
| Lines.Loaded | src/models/line.py:132-152 | without an id it is ValueError and nothing changes; when the file is missing the line is returned unchanged |
| Lines.Persisted | src/models/line.py:154-165 | without an id it is ValueError; it succeeds exactly when the line has an id and every special attribute is set, and then only the line's file is written, with its serialisation |
| Lines.LoadAfterPersist | src/models/line.py:132-165 | loading what was persisted, into any line with the same id, gives back the persisted line |
| Lines.UnserializedId | src/models/line.py:59 | `unserialize({'id': i})` on a fresh line sets the id and nothing else |
| Lines.CreatedWithId | src/models/line.py:54-62 | `Line(id=i)` loads its file: without a file it is a fresh line with that id; with the file some line with that id persisted, it is exactly that line |
| Lines.Created | src/models/line.py:54-62 | `Line(**kwargs)`: `unserialize` of the keyword arguments into the defaults, then `load_from_file` when an `id` is given; stated by `CreatedWithId` |
| Lines.AssignSpecialFieldsAbsent | src/models/line.py:106-128 | when the dictionary names no special attribute, the special pass changes nothing and cannot fail |
| LineObjects.Line.constructor | src/models/line.py:14-33 | a new line holds the class attributes |
| LineObjects.Line.SetRecord | src/modules/lines_data.py:85-103 | every attribute takes the value the record gives |
| LineObjects.Line.SetRoute | src/modules/lines_data.py:88-104 | the first eight attributes (id, names, airports, distance, taxes) take the record's values, and the rest are unchanged |
| LineObjects.Line.SetFigures | src/modules/lines_data.py:133-161 | the last eight attributes (the four value groups, the audit data, the reliability, the price flag and the stamp) take the record's values, and the rest are unchanged |
| LineObjects.Line.Stamp | src/modules/lines_data.py:52 | `last_updated_at` becomes the given time, and nothing else changes |
| LineObjects.Line.SetPlain | src/models/base_model.py:38-39 | `setattr` of a plain attribute changes the line as `AssignPlain` says |
| LineObjects.Line.AssignPlainPart | src/models/line.py:104 | the base class's loop of assignments leaves the line as `AssignPlainFields` says |
| LineObjects.Line.AssignSpecialPart | src/models/line.py:106-128 | the special attributes are assigned one by one, stopping at the first that fails, as `AssignSpecialFields` says |
| LineObjects.Line.Unserialize | src/models/line.py:88-130 | the line and the error are those of `Unserialized` |
| LineObjects.Line.LoadFromFile | src/models/line.py:132-152 | the line and the error are those of `Loaded` |
| LineObjects.Line.PersistToFile | src/models/line.py:154-165 | the disk becomes `Persisted`; on an error nothing is written and the error is returned |
| LineObjects.Line.New | src/models/line.py:54-62 | `Line(**kwargs)` is a new object whose attributes and error are those of `Created` |
| LinesAudit.AuditCall | src/modules/lines_audit.py:17-24 | the audit request is a GET with no payload that does not follow redirects |
| LinesAudit.PricingCall | src/modules/lines_audit.py:48-54 | the pricing page request is a GET of `/marketing/pricing/<id>` with no payload that follows redirects |
| LinesAudit.PriceUpdateCall | src/modules/lines_audit.py:79-87 | the price update is a POST to the line's pricing page carrying the given form |
| LinesAudit.Audited | src/modules/lines_audit.py:9-37 | exactly one audit request is sent; the audit succeeds exactly when the answer's status is 302, and any other status is ReferenceError |
| LinesAudit.TokenAsWritten | src/modules/lines_audit.py:63-69 | the token lookup as written returns the token when the input is there |
| LinesAudit.Token | src/modules/lines_audit.py:63-69 | the token lookup as intended: the input's value when it is there, and ReferenceError otherwise |
| LinesAudit.TokenGuardNeverFires | src/modules/lines_audit.py:63-69 | without the token input the guard as written does not fire, and the lookup fails with TypeError (`None['value']`), where the guard meant ReferenceError |
| LinesAudit.PricePayload | src/modules/lines_audit.py:72-78 | the form holds exactly `priceEco`, `priceBus`, `priceFirst`, `priceCargo` and `_token`; the four prices read back as the economic, executive, first-class and cargo ideal buckets |
| LinesAudit.CostUpdated | src/modules/lines_audit.py:40-91 | `update_line_cost` makes one GET of the pricing page, then at most one POST to the same page; it succeeds only when the POST is made, and the POST is made exactly when the pricing div, its token input and the ideal cost are there (with the corrected token lookup; see Left out) |
| LinesAudit.CostUpdatedOutcome | src/modules/lines_audit.py:48-87 | a failing GET is raised; a missing pricing div is ReferenceError and then no POST is sent; a missing token input is the corrected ReferenceError (TypeError as written; see Findings and Left out); when the POST is sent it carries the line's ideal prices and the page's token, and its failure is raised |
| LinesAudit.UpdateLineAuditData | src/modules/lines_audit.py:9-37 | the manager's new state and the error are those of `Audited`, and the line is not modified |
| LinesAudit.UpdateLineCost | src/modules/lines_audit.py:40-91 | the manager's new state and the error are those of `CostUpdated`, and the line is not modified (with the corrected token lookup) |
| LinesData.ShowLineCall | src/modules/lines_data.py:64-70 | the line page request is a GET with no payload that follows redirects |
| LinesData.AirportOfIsCreated | src/modules/lines_data.py:91-99 | `create_airport_from_dict` accepts the dictionary built from the two texts, and fills both attributes from it |
| LinesData.AirportFromText | src/modules/lines_data.py:91-99 | the airport's abbreviation and name are the sanitised first and second "/"-separated parts of the text (for "CDG/Paris/Nord" the name is "Paris"); a text without "/" is IndexError |
| LinesData.AirportFromTextReadsBack | src/modules/lines_data.py:91-99 | "ABBREV / Name" reads back as that abbreviation and that name, without the spaces around the slash |
| LinesData.BasicUpdate | src/modules/lines_data.py:82-104 | the basic refresh sets the distance and the taxes and no marketing attribute. Of the failures the page record can hold, it succeeds exactly when both airport texts have a "/" and the title is there; then it sets the airports, the sanitised title as display name, and the name "<origin abbrev> / <destination abbrev>". A bad origin text stops it before the origin is set |
| LinesData.Basic | src/modules/lines_data.py:57-104 | `update_basic_data` sends exactly the line page request and changes no marketing attribute |
| LinesData.BasicOutcome | src/modules/lines_data.py:71-80 | a failed request, or a page without the `content` div (ReferenceError), leaves the line as it was; a content div is read by `BasicUpdate` |
| LinesData.MarketingUpdate | src/modules/lines_data.py:132-161 | the marketing refresh sets the four value groups and no basic attribute. A missing audit cost input is TypeError and a non-numeric one ValueError. Of the failures the page record can hold, it succeeds exactly when the cost and the audit date parse; then it sets them, the reliability, and the price flag, which is true exactly when the form is there; the buckets are integers, so a None bucket is not represented (see Left out) |
| LinesData.Marketing | src/modules/lines_data.py:107-161 | `update_marketing_data` sends exactly the pricing page request and changes no basic attribute |
| LinesData.MarketingOutcome | src/modules/lines_data.py:121-130 | a failed request, or a page without the `marketing_linePricing` div (ReferenceError), leaves the line as it was; the div is read by `MarketingUpdate` |
| LinesData.Refreshed | src/modules/lines_data.py:37-41 | the basic refresh always comes first, and when nothing fails the requests are exactly the line page, then the pricing page |
| LinesData.AuditIfUnreliable | src/modules/lines_data.py:43-45 | the audit request is sent exactly when the reliability is above 50 (51 sends it, 50 does not), and nothing is sent otherwise; a missing reliability cannot be compared (TypeError) |
| LinesData.PricePush | src/modules/lines_data.py:47-50 | the push starts with the pricing page; when it succeeds the requests are the pricing page, the price POST and the pricing page again, for the second marketing refresh |
| LinesData.PushIfDiffer | src/modules/lines_data.py:47 | when the line may not update its prices, or its ideal and current costs are equal bucket by bucket, nothing is sent and nothing changes |
| LinesData.PricesDiffer | src/modules/lines_data.py:47 | `ideal_cost != current_cost`: the negation of the per-bucket `__eq__` when both prices are set (see `CategorizedValues.EqualsIffSameBuckets`) |
| LinesData.NeedsPricePush | src/modules/lines_data.py:47 | the push condition: the line may update its prices and the prices differ; `ProcessedCalls` shows the push is made exactly when it holds |
| LinesData.Stamped | src/modules/lines_data.py:52 | only `last_updated_at` changes, and it becomes the clock's time |
| LinesData.Reconciled | src/modules/lines_data.py:30-54 | `update_line_data` makes the requests of `Processed`; a failure before the stamp is returned with the line that failing step left, and any failure leaves the files as they were |
| LinesData.Processed | src/modules/lines_data.py:37-50 | the refreshes, the audit and the push record their requests after the earlier ones, the first error stopping the run |
| LinesData.RunShapeOfStretches | src/modules/lines_data.py:37-50 | the refreshes, the optional audit and the optional push, put together, are the requests of a run in that order |
| LinesData.ProcessedCalls | src/modules/lines_data.py:37-50 | a run that gets past its requests sends the line page, then the pricing page, then the audit exactly when the refreshed reliability is above 50, then, exactly when the refreshed line needs a push, the pricing page, the price POST and the pricing page again |
| LinesData.AuditAmongCalls | src/modules/lines_data.py:43-45 | among a run's requests the audit request appears exactly when it was ordered |
| LinesData.AuditIffUnreliable | src/modules/lines_data.py:43-45 | a run that gets past its requests sent the audit exactly when the refreshed reliability is above 50 |
| LinesData.ReconciledStampsAndPersists | src/modules/lines_data.py:52-53 | a successful run stamps the refreshed line with the time after its requests and persists exactly that line; a failure before the stamp persists nothing and leaves the line as the failing step left it |
| LinesData.BasicFills | src/modules/lines_data.py:57-104 | an `update_basic_data` that raises nothing sets the origin and the destination airports |
| LinesData.MarketingFills | src/modules/lines_data.py:107-161 | an `update_marketing_data` that raises nothing sets the total demand, the ideal cost, the turnover and the current cost |
| LinesData.ProcessedFills | src/modules/lines_data.py:37-50 | a run of the refreshes, the audit and the push that raises nothing leaves both airports and the four value groups set, whichever optional steps ran |
| LinesData.ReconciledFills | src/modules/lines_data.py:30-54 | an `update_line_data` that raises nothing leaves both airports, the four value groups and the last-update time set |
| LinesData.UpdateBasicData | src/modules/lines_data.py:57-104 | the manager, the line and the error are those of `Basic` |
| LinesData.UpdateMarketingData | src/modules/lines_data.py:107-161 | the manager, the line and the error are those of `Marketing` |
| LinesData.Refresh | src/modules/lines_data.py:37-41 | the manager, the line and the error are those of `Refreshed` |
| LinesData.PushPrices | src/modules/lines_data.py:48-50 | the manager, the line and the error are those of `PricePush` |
| LinesData.AuditIfNeeded | src/modules/lines_data.py:43-45 | the manager and the error are those of `AuditIfUnreliable`, and the line is not modified |
| LinesData.PushIfNeeded | src/modules/lines_data.py:47-50 | the manager, the line and the error are those of `PushIfDiffer` |
| LinesData.Process | src/modules/lines_data.py:37-50 | the manager, the line and the error are those of `Processed` |
| LinesData.UpdateLineData | src/modules/lines_data.py:30-54 | the manager, the line, the files and the error are those of `Reconciled` |
| AllLines.UpdateInterval | src/modules/lines.py:39 | the interval is 2 days when `LINE_UPDATE_INTERVAL_DAYS` is unset, the variable's integer value when it is set, and ValueError when that value is not an integer |
| AllLines.ElapsedDays | src/modules/lines.py:40 | `timedelta.days` is the number of whole days in the difference, rounded down, also when the difference is negative |
| AllLines.NeedsUpdateExactly | src/modules/lines.py:40-51 | a line is left alone exactly when it has a last update and less than the interval's worth of seconds has passed since; on the day the interval is reached it is refreshed |
| AllLines.NeedsUpdate | src/modules/lines.py:39-41 | the staleness gate: a line is refreshed when it has no last update or at least the interval's days have passed; stated in both directions by `NeedsUpdateExactly` |
| AllLines.NeedsUpdateStays | src/modules/lines.py:40-41 | a line that needs an update still needs one at any later time |
| AllLines.CreateLineObject | src/modules/lines.py:29-55 | `create_line_object` returns, when nothing fails, a line with a last-update time |
| AllLines.CreateLineObjectGate | src/modules/lines.py:37-53 | a loaded line is refreshed by `update_line_data` exactly when the gate says so; one left alone is returned as loaded, with no request and no file written |
| AllLines.CreateLineObjectFills | src/modules/lines.py:37-55 | a `create_line_object` that refreshes the line and raises nothing returns it with both airports and the four value groups set |
| AllLines.CreateLineObjectIdempotent | src/modules/lines.py:37-51 | a second `create_line_object` for the same id, inside the update interval after the first one's last-update time, makes no request, writes no file, raises nothing and returns the same line (for a stored line that carries the asked id; see Left out) |
| AllLines.CreateLine | src/modules/lines.py:29-55 | the new line, the manager, the files and the error are those of `CreateLineObject` |
| AllLines.LoadAndUpdate | src/modules/lines_data.py:25-27 | a line loaded by id and refreshed without any gate has, when nothing fails, a last-update time, and the files hold exactly that line persisted |
| AllLines.LoadAndUpdateFills | src/modules/lines_data.py:25-27 | a line loaded by id and refreshed without any gate has, when nothing fails, both airports, the four value groups and a last-update time set |
| AllLines.LoadAndUpdateLine | src/modules/lines_data.py:25-27 | the new line, the manager, the files and the error are those of `LoadAndUpdate` |
| AllLines.Ids | src/modules/lines.py:22 | the ids are those of the summary, one per entry, in order |
| AllLines.PassLines | src/modules/lines.py:22 | a loop over ids records its requests after the earlier ones; when it succeeds it yields one line per id, each with a last-update time |
| AllLines.Pass | src/modules/lines.py:22 | the loop over the summary ids, one line step per id in order, stopping at the first error; stated by `PassLines`, `PassStopsAtError` and `PassLast` |
| AllLines.PassStopsAtError | src/modules/lines.py:22 | the first error ends the loop: the ids after it are never handled |
| AllLines.PassLast | src/modules/lines_data.py:24-27 | after an error-free loop the last line is what the last id's step left, and the files are those that step left |
| AllLines.OverSummaryLines | src/modules/lines.py:21-22 | a pass over the summary that succeeds yields one line per summary entry, each with a last-update time |
| AllLines.OverSummary | src/modules/lines.py:21-22 | the summary first, then the step for each of its lines in order, an error in the summary ending the pass with no line; `OverSummaryLines` states that a successful pass yields one stamped line per summary entry |
| AllLines.AllLinesListCount | src/modules/lines.py:13-26 | `fetch_all_lines_list` returns, when it succeeds, one line per summary entry, each with a last-update time |
| AllLines.AllLinesList | src/modules/lines.py:13-26 | `fetch_all_lines_list`: the summary, then the gated `create_line_object` for each entry; stated by `AllLinesListCount` |
| AllLines.UpdatePassPersistsLast | src/modules/lines_data.py:24-27 | after an error-free `update_all_lines_data` loop the files hold the last line, persisted over the files before its refresh |
| AllLines.PassFills | src/modules/lines.py:22 | a loop over ids whose step fills every line it returns yields, when it succeeds, only lines with both airports, the four value groups and a last-update time |
| AllLines.AllLinesUpdatedFills | src/modules/lines_data.py:17-27 | after an `update_all_lines_data` that raises nothing, every line it handled has both airports, the four value groups and a last-update time set |
| AllLines.AllLinesUpdated | src/modules/lines_data.py:17-27 | `update_all_lines_data`: the summary, then `Line(id=...)` and an ungated `update_line_data` for each entry; stated by `UpdatePassPersistsLast` and `AllLinesUpdatedFills` |
| AllLines.PassLoop | src/modules/lines.py:22 | the loop over the ids, one line object at a time, leaves the manager, the files, the lines and the error of `Pass` |
| AllLines.OverSummaryLoop | src/modules/lines.py:21-22 | the manager, the files, the lines and the error are those of `OverSummary` |
| AllLines.FetchAllLinesList | src/modules/lines.py:13-26 | the manager, the files, the lines and the error are those of `AllLinesList` |
| AllLines.UpdateAllLinesData | src/modules/lines_data.py:17-27 | the manager, the files and the error are those of `AllLinesUpdated` |
| CardHolder.OpeningCall | src/modules/card_holder.py:90-104 | the opening is a POST to the free card's address carrying exactly the form id and the CSRF token |
| CardHolder.BonusType | src/modules/card_holder.py:165-179 | RESEARCH_DOLLARS exactly when the last path segment is `researchDollars.png`, DOLLARS exactly when it is `dollars.png`, UNKNOWN otherwise |
| CardHolder.BonusTypeIgnoresFolders | src/modules/card_holder.py:171-173 | only the segment after the last "/" decides the type; the folders before it do not |
| CardHolder.BonusTypeOfImage | src/modules/card_holder.py:171-179 | an image named `researchDollars.png` or `dollars.png`, in any folder, gives that type; any other name gives UNKNOWN |
| CardHolder.ParseBonus | src/modules/card_holder.py:137-162 | a card without its title div, or a title without its image, is ReferenceError; otherwise the type is read from the image |
| CardHolder.BonusTextIsSanitised | src/modules/card_holder.py:157 | the bonus text is clean and keeps the title text's non-whitespace characters in order |
| CardHolder.TextOf | src/modules/card_holder.py:157 | `str(bonus_div.string)` before sanitising: a missing string is the text "None" |
| CardHolder.ParseEach | src/modules/card_holder.py:129 | the comprehension succeeds exactly when every card parses, with one bonus per card in order |
| CardHolder.ParseEachFirstError | src/modules/card_holder.py:129 | the comprehension's error is that of the first card that fails |
| CardHolder.ParseCardHolderBonuses | src/modules/card_holder.py:114-134 | a reply without the bonus container is ReferenceError; otherwise the result holds one bonus per card in order, and `total_bonuses` is the number of cards |
| CardHolder.Availability | src/modules/card_holder.py:40-51 | a page without the title div is ReferenceError; otherwise the holder is available exactly when there is no countdown |
| CardHolder.IsAvailable | src/modules/card_holder.py:27-51 | exactly one request of the card holder page; the answer is true exactly when it succeeds on a titled page with no countdown |
| CardHolder.ModalForm | src/modules/card_holder.py:84-89 | the form reads as the form id and token exactly when the modal has both inputs; a missing input is TypeError |
| CardHolder.Open | src/modules/card_holder.py:54-111 | the requests are the card holder page, then the modal, then a POST to the free card's address; a result means all three were sent |
| CardHolder.OpenOutcome | src/modules/card_holder.py:60-107 | the POST is sent exactly when both GETs succeed and the modal has both inputs; it carries the modal's form id and token, and the result is the bonus cards of its reply |
| CardHolder.GetIfAvailable | src/modules/card_holder.py:14-24 | the holder is opened exactly when the availability answer is true; when it is false nothing else is sent, and an availability error is returned as such |
| CardHolder.IsFreeCardHolderAvailable | src/modules/card_holder.py:27-51 | the manager and the answer are those of `IsAvailable` |
| CardHolder.OpenFreeCardHolder | src/modules/card_holder.py:54-111 | the manager and the result are those of `Open` |
| CardHolder.GetFreeCardHolderIfAvailable | src/modules/card_holder.py:14-24 | the manager and the result are those of `GetIfAvailable` |
| Workshop.RackCall | src/modules/workshop.py:33-39 | the rack request is a GET of the workshop with no payload that follows redirects |
| Workshop.PurchaseCall | src/modules/workshop.py:92-99 | a purchase is a POST of the item's link, with no payload, that does not follow redirects |
| Workshop.FreeItems | src/modules/workshop.py:51-77 | the filter keeps exactly the free items: every item it keeps is free and from the rack, and every free item of the rack is kept |
| Workshop.IsFreeItem | src/modules/workshop.py:65-77 | an item is free exactly when it has a purchase link whose text holds no number; an item without a link never is. `FreeItems` keeps exactly these |
| Workshop.FreeItemsAppend | src/modules/workshop.py:59-62 | the filter keeps the rack's order: filtering two stretches one after the other is filtering them together |
| Workshop.FreeItemsOfUniform | src/modules/workshop.py:59-62 | a rack of free items is kept whole, and a rack with no free item gives nothing |
| Workshop.FreeItemsIdempotent | src/modules/workshop.py:59-62 | filtering twice is filtering once |
| Workshop.RetrieveAll | src/modules/workshop.py:26-48 | exactly one rack request; a page without the rack is ReferenceError, otherwise the rack's items are returned |
| Workshop.RetrieveItem | src/modules/workshop.py:80-107 | an item without a link is TypeError, and nothing is sent; otherwise the purchase POST comes first and, when it is answered, the rack is read again |
| Workshop.RetrieveItemSuccess | src/modules/workshop.py:101 | a retrieval that returns reports true exactly when its POST was answered with 302 |
| Workshop.RetrievalCalls | src/modules/workshop.py:22-23 | buying n items takes 2n requests |
| Workshop.RetrievalCallsAt | src/modules/workshop.py:22-23 | the i-th item's POST is request 2i, and the rack is read again right after it |
| Workshop.RetrieveEach | src/modules/workshop.py:22-23 | the loop records its requests after the earlier ones |
| Workshop.RetrieveEachCalls | src/modules/workshop.py:22-23 | a loop that ends without error bought every item once, in list order, reading the rack after each purchase |
| Workshop.FreeItemsRetrieved | src/modules/workshop.py:11-23 | `get_free_workshop_items` reads the rack first |
| Workshop.FreeItemsRetrievedCalls | src/modules/workshop.py:11-23 | a run without error read the rack, then bought each free item of that rack exactly once, in rack order, reading the rack after each purchase |
| Workshop.RetrieveAllWorkshopItems | src/modules/workshop.py:26-48 | the manager and the result are those of `RetrieveAll` |
| Workshop.RetrieveWorkshopItem | src/modules/workshop.py:80-107 | the manager and the result are those of `RetrieveItem` |
| Workshop.GetFreeWorkshopItems | src/modules/workshop.py:11-23 | the manager and the error are those of `FreeItemsRetrieved` |
| TravelCardsWheel.WheelAvailability | src/modules/travel_cards_wheel.py:36-47 | a page without the main content div is ReferenceError; otherwise the wheel is available exactly when its banner is there |
| TravelCardsWheel.IsAvailable | src/modules/travel_cards_wheel.py:26-47 | exactly one request of the home page; the answer is true exactly when the page has the main content and the banner |
| TravelCardsWheel.PyInt | src/modules/travel_cards_wheel.py:69-73 | `int()` of a JSON value: a number is itself, a boolean 0 or 1, a text its decimal value (ValueError otherwise), anything else TypeError |
| TravelCardsWheel.Field | src/modules/travel_cards_wheel.py:69-74 | a lookup succeeds exactly when the value is a dictionary with the key; a dictionary without the key is KeyError, anything else TypeError |
| TravelCardsWheel.ParseSpin | src/modules/travel_cards_wheel.py:66-75 | a reply that is not JSON is ValueError; a result holds the reply's card count, gain, score index and play flag, and the cards before plus the gain make the cards after |
| TravelCardsWheel.ParseSpinOfNonDictionary | src/modules/travel_cards_wheel.py:69 | a reply that is JSON but not a dictionary fails with TypeError |
| TravelCardsWheel.ParseSpinCounts | src/modules/travel_cards_wheel.py:68-75 | a complete reply reads back as its cards, the cards minus the gain, the gain, the index and the play flag |
| TravelCardsWheel.Spin | src/modules/travel_cards_wheel.py:50-92 | exactly one spin request; a reply that does not parse gives its error, and a parsed one is returned only when `TRAVEL_CARDS_RESULTS_FOLDER` is set (KeyError otherwise) |
| TravelCardsWheel.SpinIfAvailable | src/modules/travel_cards_wheel.py:13-23 | the wheel is spun exactly when the home page shows it; otherwise only the home page is requested and the result is None or the availability error |
| TravelCardsWheel.IsTravelCardsWheelAvailable | src/modules/travel_cards_wheel.py:26-47 | the manager and the answer are those of `IsAvailable` |
| TravelCardsWheel.SpinTravelCardsWheel | src/modules/travel_cards_wheel.py:50-79 | the manager and the result are those of `Spin` |
| TravelCardsWheel.SpinTravelCardsWheelIfAvailable | src/modules/travel_cards_wheel.py:13-23 | the manager and the result are those of `SpinIfAvailable` |

## Left out

- AllLines.CreateLineObjectIdempotent: stated only for a line whose stored file carries the id that was asked for. When `<id>.json` holds a line with another id, `Line(id=...)` takes the stored id, the refresh persists to `<stored id>.json`, and the next `create_line_object` for the asked id loads the old file again and refreshes it again.
- The HTTP transport (the `requests` session, real status codes, cookies pickled to disk) is an abstract server: a function from the manager's event log and the request to a response. The legacy login path in `src/modules/login.py` is not part of this model.
- BeautifulSoup (`find`, `find_all`, `decompose`, the positional child indexes) is not modelled. Each page is the record of what those queries read (`Pages.Page`).
- `return_only_numbers` is not part of this model. Page records carry its result (an optional integer) in place of the raw text.
- `modules.user_agent` is not part of this model. The random agent and `get_base_headers` are parameters of the world.
- `strptime`, `isoformat` and `fromisoformat` are not modelled. Dates are integers, written to the JSON document as decimal text, and `datetime.now()` is a clock over the event log.
- File output other than the model documents is left out: the CSV and JSON writers of `src/modules/common.py`, `save_card_holder_results`, `save_travel_cards_results` and the error dumps. For the travel cards wheel the model keeps only the KeyError that a missing results folder variable raises.
- Logging, the random pacing sleep (only its place in the event log is modelled), `src/modules/cli.py` and `src/main.py` (orchestration only) are left out.
- Paging.Listing: the source loops for as long as pages say there is a next one. The model stops with `PageLimit` after `fuel` pages, so a server that always says "next" is not modelled.
- TravelCardsWheel.ParseSpin: `bonusMultiplierGain` is a float; only its key lookup (a KeyError when it is absent) is modelled.
- TravelCardsWheel.PyInt: like `AllLines.UpdateInterval`, it reads only an optional minus sign followed by decimal digits. Python's `int()` also accepts surrounding whitespace, a plus sign and underscores between digits. JSON values carry no floats, so `int(2.0)` on a wheel field is not represented either.
- Lines.Unserialized: the model types each attribute. A dictionary value of the wrong type is a TypeError, where Python would store it and fail later, or never. JSON documents carry no floats (`Json.Value` has none), so a float in a saved document is not represented.
- Sessions.DoRequest: `hasattr(session, method)` is modelled as membership in the HTTP verbs. Other attribute names of a `requests.Session` are rejected with ValueError.
- LinesData.PricesDiffer: when exactly one of the two prices is unset, Python's `!=` raises AttributeError, but the model treats the prices as different. The comparison runs only after a successful marketing refresh, which sets both prices.
- Workshop.RetrieveItem: an item whose first link has no `href` (a KeyError in Python) is not represented. An item without any link is the TypeError case.
- CardHolder.ParseBonus: an image without a `src` (a KeyError in Python) is not represented. A title without an image is the ReferenceError case.
- CardHolder.ModalForm: a `form__token` or `form_id` input without a `value` (a KeyError in Python) is not represented. A missing input is the TypeError case.
- AllLines.FetchAllLinesList: like `AllLines.PassLoop`, it does not state that the returned `Line` objects are fresh or distinct. Only their records are tied to the specification.
- CategorizedValues.FromDict: the model types each bucket as an integer. A value of another type (None read back from a saved line, say) is a TypeError, where `BaseModel.unserialize` stores it as it is.
- Demands.CreateDemandFromDict: typed like `CategorizedValues.FromDict`; a non-integer bucket value is a TypeError, where Python stores it.
- Prices.CreatePriceFromDict: typed like `CategorizedValues.FromDict`; a non-integer bucket value is a TypeError, where Python stores it.
- Airports.Unserialized: the model types `abbrev` and `name` as optional texts. Any other value is a TypeError, where `BaseModel.unserialize` stores it.
- Airports.CreateAirportFromDict: it goes through `Airports.Unserialized`, so it has the same typing.
- Lines.UnserializedRejectsUnknown: the attributes are the data attributes only. `hasattr` also accepts the names of methods and class attributes (`serialize`, `load_from_file`, `serializable_fields`), which the model rejects with ValueError. The same holds for the attribute maps of `BaseModels`, `Airports` and the four-bucket values.
- Sessions.HeadersFor: built on the corrected `Sessions.UserAgent` (see Findings). As written, the first `get_headers` of a new manager is the one in the cookie probe of `get_session` (session_manager.py:44, 139). There `get_user_agent` returns None, so the probe is sent with `'User-Agent': None`, which `requests` drops. Every later call carries the cached agent, as here.
- Sessions.CheckCookies: the probe carries the chosen user agent. As written it goes out without one (see `Sessions.HeadersFor`), and the server's verdict may depend on that.
- Sessions.SessionManager.GetUserAgent: it returns the chosen agent on the first call too. As written that call returns None (`Sessions.UserAgentAsWritten`).
- Sessions.SessionManager.GetHeaders: it has the corrected agent of `Sessions.HeadersFor`.
- Sessions.SessionManager.CheckCookiesFileSanity: it has the corrected probe of `Sessions.CheckCookies`.
- LinesAudit.CostUpdated: it uses the corrected `LinesAudit.Token` (see Findings). As written, a pricing div without the token input gets past the dead guard and raises TypeError on `None['value']` (lines_audit.py:68, `LinesAudit.TokenAsWritten`), where the model raises ReferenceError. A token input without a `value` (a KeyError) is not represented.
- LinesAudit.CostUpdatedOutcome: it states the corrected ReferenceError for a missing token input, as `LinesAudit.CostUpdated` computes it. The source raises TypeError there.
- LinesAudit.UpdateLineCost: it has the corrected token lookup of `LinesAudit.CostUpdated`.
- LinesData.MarketingUpdate: the page record holds the four value groups as integers. `return_only_numbers` may yield None for a bucket, and Python stores it. `__eq__` then raises TypeError in the price comparison, and `update_line_cost` posts "None"; none of this is represented. Nor are the lookups the record assumes succeed: a child index beyond the div's children (IndexError), an audit cost input without `value` (KeyError), and a reliability class with no second word (IndexError, lines_data.py:160). `int()` of the audit cost reads only a sign and digits, like `TravelCardsWheel.PyInt`.
- LinesData.BasicUpdate: the page record assumes the `box1`/`box2` lists, their fourth items and the `b` elements are there. A page without them (AttributeError or IndexError at lines_data.py:82-88) is not represented.
- LinesSummary.ParseSummaryRow: the row record assumes the seventh cell's link, its `href`, and the first cell's flag image with `alt` and `src` are there (lines_summary.py:76-87). A row without them is not represented. `int()` of the id reads only a sign and digits, like `TravelCardsWheel.PyInt`.
- LinesSummary.SummaryPage: the page record holds the rows of the second table of `displayPro`. A `displayPro` div with fewer than two tables (IndexError, lines_summary.py:55) is not represented.
- Airplanes.ParseAirplaneRow: the row record assumes the `editAircraftName` span and its `data-url`, the model image with `data-aircraftimg`, and the hub flag image with `alt` and `src` are there (airplanes.py:78-89). A row without them is not represented. `int()` of the id reads only a sign and digits, like `TravelCardsWheel.PyInt`.
- `sanitize_text(None)` returns the text `"None"`, because the argument goes through `str()` first. The model follows the code here (`CardHolder.TextOf`), and so does not treat a missing text as empty.

## Findings

| source | as written | input that shows it | evidently intended | confidence | as-written member | corrected member |
|---|---|---|---|---|---|---|
| src/modules/session_manager.py:60-64 | when no user agent is cached, `get_user_agent` stores a random choice but falls off the end, so it returns None | the first call on a new manager (`_user_agent` is None) | return the agent it has just chosen, as it does on every later call | high, not executed | Sessions.UserAgentAsWritten (shown by Sessions.UserAgentAsWrittenLosesFirstChoice) | Sessions.UserAgent |
| src/modules/lines_audit.py:63-69 | the guard after the token lookup tests `line_pricing_div is None` again. That was already ruled out, so the guard never fires | a pricing page whose pricing div has no `line__token` input | raise ReferenceError when the token input is missing | high, not executed | LinesAudit.TokenAsWritten (shown by LinesAudit.TokenGuardNeverFires) | LinesAudit.Token |
