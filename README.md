# AI stock investment tool — verified model

This project models the deterministic logic of the AI stock investment tool: two
Python backends and three pages of its Next.js frontend. The network, the
language-model service, the sentiment analyser and the portfolio optimisers become
function-typed parameters. What the code does with their answers is modelled and
proved.

- `wrappers.dfy` — `Option`, `Result` and an HTTP `Response` (a body, or a status
  with an error message).
- `text.dfy` — the Python and JavaScript string operations the code relies on, over
  ASCII: `lower`/`toLowerCase`, `toUpperCase`, `isupper`, `strip`, `split(sep)`,
  `split()`, `join`, `splitlines`, and `in`/`includes`. It also holds the lemmas
  relating them: the split/join round trip, where the pieces sit in a string, and
  the non-whitespace projection `Visible`.
- `seqs.dfy` — order-preserving filtering, the subsequence relation, and what a
  filter keeps.
- `flask_backend.dfy` (`backend/app.py`):
  - the cleanup of page text;
  - the compound-score sentiment label;
  - the line-by-line parser of the categorisation reply, with its portfolio
    override;
  - the chat context built with `+=`;
  - the 400/500 answers of `/api/analyze-news`, `/api/optimize-portfolio` and
    `/api/chat`.
- `fastapi_backend.dfy` (`backend/main.py`):
  - the keyword reading of the analysis reply (sentiment, upper-case company
    tokens, the text after the last `topic:`);
  - the rule that a URL replaces the request text;
  - the tickers/weights length check;
  - the chat context.
- `workbench.dfy` (`frontend/pages/index.tsx`):
  - the `Home` component as a class whose fields are its state hooks;
  - the four handlers as methods;
  - the request bodies they send, as functions.
- `activity_log.dfy` (`frontend/pages/dashboard/activity.tsx`): the six activities,
  the category buttons and the filtered list.
- `profile_settings.dfy` (`frontend/pages/dashboard/profile.tsx`):
  - the form record and its initial value;
  - the three handlers, as pure record updates and as methods of a `Profile` class.

The frontend model does what the code does:

- `addToPortfolio` appends a weight that `parseFloat` cannot read as NaN instead of
  refusing it. On the page this cannot happen: the weight input has
  `type="number"` (`frontend/pages/index.tsx:157-161`), so the browser hands over
  either "" (which the handler's guard refuses) or a numeral. NaN is reachable
  only when the handler is called with some other weight text.
- The portfolio has no remove action.
- None of the handlers checks for empty inputs before calling the server.

## Model

| member | source | states |
|---|---|---|
| FlaskBackend.ExtractTextFromUrl | backend/app.py:119-145 | `None` exactly when fetching the page fails; otherwise the cleaned page text, which keeps the page's non-whitespace characters in order, has no double space, and is empty exactly when the page is all whitespace |
| FlaskBackend.CleanTextVisible | backend/app.py:138-140 | the cleaned page text keeps every non-whitespace character of the page, in order, and adds none |
| FlaskBackend.CleanTextShape | backend/app.py:138-140 | the cleaned text has no whitespace at either end and never two consecutive spaces |
| FlaskBackend.CleanTextBlank | backend/app.py:138-140 | the cleaned text is empty exactly when the page text is all whitespace |
| FlaskBackend.SentimentOf | backend/app.py:157-162 | exactly one of three labels: positive iff compound >= 0.05, negative iff <= -0.05, neutral iff strictly between |
| FlaskBackend.SentimentMonotone | backend/app.py:157-162 | a higher compound score never gets a less positive label |
| FlaskBackend.SecondField | backend/app.py:185-189 | `line.split(':')[1]` is missing (Python raises) exactly when the line has no colon |
| FlaskBackend.SecondFieldSpan | backend/app.py:185-189 | the parsed value is the text between the first colon and the next colon or the end of the line |
| FlaskBackend.ParseEntriesMeaning | backend/app.py:177-189 | the loop fails iff some entry sets a field without a value; otherwise each field is set by the last entry of its kind, or keeps its default |
| FlaskBackend.ParseLinesMeaning | backend/app.py:177-189 | over reply lines: the parse fails iff a category, companies or topic line has no colon; otherwise each field comes from the last line of its kind (defaults "global", [], "") |
| FlaskBackend.ParseStops | backend/app.py:183-189 | once a line makes the loop raise, the whole parse fails whatever follows |
| FlaskBackend.PortfolioOverride | backend/app.py:192-196 | the category becomes "portfolio" iff some lower-cased ticker occurs in some lower-cased company; with no tickers it stays as parsed |
| FlaskBackend.ParseLine | backend/app.py:184-189 | one loop turn: the first of the category, companies/company and topic tests that matches decides which field the line's second field sets |
| FlaskBackend.ParseReply | backend/app.py:182-189 | the loop over the reply split on newlines computes the parse from the defaults, or fails where Python raises |
| FlaskBackend.CategorizationMeaning | backend/app.py:147-206 | categorisation fails iff the analyser fails, the service fails or a field line has no colon; otherwise it returns the last value of each field, the category overridden by a mentioned ticker, and the score's label |
| FlaskBackend.CategorizeNews | backend/app.py:147-206 | scores the text, labels the score, sends the prompt, parses the reply and applies the override; a failing analyser or a failing service gives None |
| FlaskBackend.HoldingLineAt | backend/app.py:222-226 | the i-th holding's "- ticker: weight%" line sits in the portfolio section right after the lines of the holdings before it |
| FlaskBackend.BuildPortfolioSection | backend/app.py:222-226 | the header followed by one line per holding, in portfolio order |
| FlaskBackend.BuildChatContext | backend/app.py:211-235 | the preamble, then the portfolio section if the portfolio is non-empty, then the news section with missing fields as "unknown" (companies: none) |
| FlaskBackend.GetChatResponse | backend/app.py:208-251 | the service's answer to the context and "Question: " + question; any failure of the service gives the fixed apology |
| FlaskBackend.AnalyzeNews | backend/app.py:254-274 | 400 when text and URL are both empty; 400 when the URL's page cannot be fetched or cleans to ""; 500 when categorisation fails, including when the sentiment analyser raises; otherwise the categorisation of the URL's cleaned text or of the request text |
| FlaskBackend.OptimizePortfolio | backend/app.py:280-294 | 400 "Portfolio is required" iff the portfolio is empty; otherwise the metrics, or 500 when they cannot be calculated; risk tolerance defaults to 0.5 |
| FlaskBackend.Chat | backend/app.py:300-312 | 400 "Question is required" iff the question is empty; otherwise always an answer |
| FastApiBackend.ExtractText | backend/main.py:61-67 | a failing fetch answers 400 with "Error fetching URL: " and its error; otherwise the paragraph texts joined by spaces, which keep the paragraphs' non-whitespace characters in order |
| FastApiBackend.AnalyzeWithGpt | backend/main.py:69-88 | a failing completion service answers 500 with "Error analyzing news: " and its error; otherwise the analysis read from its reply |
| FastApiBackend.ReadReply | backend/main.py:82-86 | the sentiment is one of positive, negative, neutral; the companies are exactly the reply's upper-case words longer than one character, each a whitespace-free word, in reply order and each as often as it occurs; the topic is "general" without a "topic:" marker |
| FastApiBackend.ReplySentiment | backend/main.py:83 | positive iff the lower-cased reply contains "positive"; negative iff it contains "negative" and not "positive"; neutral iff neither |
| FastApiBackend.PositiveWins | backend/main.py:83 | a reply mentioning both words reads as positive |
| FastApiBackend.SentimentIgnoresCase | backend/main.py:83 | lower-casing the reply does not change its sentiment |
| FastApiBackend.ReplyCompaniesMeaning | backend/main.py:84 | the companies are the whitespace-separated words that are upper-case and longer than one character, in reply order, each as often as it occurs; each is a non-empty run of non-whitespace, and the words together are exactly the reply's non-whitespace characters |
| FastApiBackend.ReplyTopic | backend/main.py:85 | "general" when the reply has no "topic:" |
| FastApiBackend.TopicAfterLastMarker | backend/main.py:85 | with a marker, the topic is the stripped text after an occurrence of "topic:" that no later occurrence follows |
| FastApiBackend.AnalyzeNews | backend/main.py:120-126 | without a URL the request text is analysed; a failing fetch answers 400 with its error; otherwise the page's paragraphs joined by spaces are analysed; 500 with its error when the completion service fails |
| FastApiBackend.UrlOverridesText | backend/main.py:121-123 | with a URL the request text plays no part in the answer |
| FastApiBackend.OptimizePortfolio | backend/main.py:129-134 | 400 with the mismatch message when the tickers and weights differ in number; otherwise the optimiser's result, or 500 with its error |
| FastApiBackend.MismatchSkipsOptimiser | backend/main.py:130-131 | a mismatched request is refused before the optimiser is consulted |
| FastApiBackend.ContextIsPrefixIff | backend/main.py:140-144 | the context starts with the fixed prefix and is exactly the prefix iff neither the portfolio nor the news sentiment is present and non-empty |
| FastApiBackend.BuildContext | backend/main.py:140-144 | the prefix, the portfolio clause only for a non-empty portfolio, then the sentiment clause only for a non-empty sentiment |
| FastApiBackend.Chat | backend/main.py:137-156 | the service's answer to the context and the question, or 500 with its error; an empty question is not refused |
| Workbench.AnalyzeBodyOf | frontend/pages/index.tsx:40-43 | the text is sent as typed; the URL is left out exactly when empty, so it is never sent empty and nothing is lost |
| Workbench.OptimizeBodyOf | frontend/pages/index.tsx:60-64 | tickers and weights have the portfolio's length and zip back into the portfolio |
| Workbench.WeightsByTickerKeys | frontend/pages/index.tsx:75 | the keys of the folded portfolio map are exactly the portfolio's tickers |
| Workbench.WeightsByTickerLastWins | frontend/pages/index.tsx:75 | for a repeated ticker the weight of its last item wins |
| Workbench.ChatBodyOf | frontend/pages/index.tsx:73-77 | the portfolio map is keyed by exactly the tickers; the news sentiment is sent iff an analysis exists, and is its sentiment |
| Workbench.ChatBodyOnlySentiment | frontend/pages/index.tsx:76 | the analysis's companies and topic are not sent |
| Workbench.Home.constructor | frontend/pages/index.tsx:27-36 | empty inputs, no analysis, no optimisation, empty portfolio and transcript, risk tolerance 0.5 |
| Workbench.Home.AddToPortfolio | frontend/pages/index.tsx:50-56 | with both inputs non-empty, appends exactly one item (ticker upper-cased, weight as parsed) and clears both inputs; otherwise nothing changes; all tickers stay upper-case |
| Workbench.Home.AnalyzeNews | frontend/pages/index.tsx:38-48 | success replaces the stored analysis wholesale; failure changes nothing; all tickers stay upper-case |
| Workbench.Home.OptimizePortfolio | frontend/pages/index.tsx:58-69 | success replaces the stored optimisation wholesale; failure changes nothing; all tickers stay upper-case |
| Workbench.Home.AskChat | frontend/pages/index.tsx:71-83 | success appends exactly one question/answer pair and clears the question; failure changes nothing; all tickers stay upper-case |
| ActivityLog.FilteredMeaning | frontend/pages/dashboard/activity.tsx:83-88 | the list is a subsequence of the activities, and an activity is kept iff its category matches and the search matches |
| ActivityLog.AllWithEmptyQuery | frontend/pages/dashboard/activity.tsx:13-88 | 'all' with an empty search lists all six activities |
| ActivityLog.SearchIgnoresCase | frontend/pages/dashboard/activity.tsx:85-86 | a lower-cased query gives the same list |
| ActivityLog.TypingNarrows | frontend/pages/dashboard/activity.tsx:85-86 | extending the query only removes activities from the list |
| ActivityLog.CaseOfCategories | frontend/pages/dashboard/activity.tsx:13-77 | every activity category is capitalised; every button id begins lower-case |
| ActivityLog.CategoryButtonsShowNothing | frontend/pages/dashboard/activity.tsx:70-88 | as written, every button other than 'all' lists nothing, whatever the query |
| ActivityLog.FilteredByTypeMeaning | frontend/pages/dashboard/activity.tsx:83-88 | with the comparison against the activity type and an empty search, a button lists exactly the activities of its type, in order |
| ActivityLog.EveryButtonShowsSomething | frontend/pages/dashboard/activity.tsx:13-88 | with the comparison against the activity type, no button's list is empty |
| ProfileSettings.InitialNotifications | frontend/pages/dashboard/profile.tsx:15-19 | e-mail and push notifications start on, SMS off, and there are no other switches |
| ProfileSettings.WithInput | frontend/pages/dashboard/profile.tsx:27-33 | only the named field changes, to the typed value; notifications and preferences are unchanged |
| ProfileSettings.InputLastWins | frontend/pages/dashboard/profile.tsx:27-33 | a later edit of a field overrides an earlier one |
| ProfileSettings.WithNotificationToggled | frontend/pages/dashboard/profile.tsx:35-43 | exactly the named switch flips; a switch not on the form (and not a name JavaScript objects inherit) is added, switched on; everything else is unchanged |
| ProfileSettings.ToggleTwiceRestores | frontend/pages/dashboard/profile.tsx:35-43 | flipping a switch on the form twice restores the form |
| ProfileSettings.ToggleTwiceAddsOff | frontend/pages/dashboard/profile.tsx:40 | flipping a switch that is not on the form twice leaves it on the form, switched off |
| ProfileSettings.WithPreference | frontend/pages/dashboard/profile.tsx:45-53 | only the named preference changes, to the given value |
| ProfileSettings.PreferenceUnchanged | frontend/pages/dashboard/profile.tsx:45-53 | setting a preference to its current value changes nothing |
| ProfileSettings.Profile.constructor | frontend/pages/dashboard/profile.tsx:7-25 | the general tab and the initial form |
| ProfileSettings.Profile.SelectTab | frontend/pages/dashboard/profile.tsx:76 | the tab changes and the form does not |
| ProfileSettings.Profile.HandleInputChange | frontend/pages/dashboard/profile.tsx:27-33 | the form becomes its `WithInput` update |
| ProfileSettings.Profile.HandleNotificationChange | frontend/pages/dashboard/profile.tsx:35-43 | the form becomes its `WithNotificationToggled` update |
| ProfileSettings.Profile.HandlePreferenceChange | frontend/pages/dashboard/profile.tsx:45-53 | the form becomes its `WithPreference` update |

## Left out

- Network and I/O are parameters, and their internals are not modelled:
  - page fetching, HTML parsing (`requests`, BeautifulSoup);
  - the language-model calls (OpenAI);
  - the VADER analyser (NLTK);
  - stock data (yfinance);
  - the `axios` requests.
  A parameter stands for each result: page text or paragraph texts, a reply, a
  compound score, an answer, or a failure. The analyser's parameter can fail too,
  which stands for `SentimentIntensityAnalyzer()` or `polarity_scores` raising.
- Portfolio optimisation is the `optimise` parameter of both backends
  (`backend/app.py:52-117`, `backend/main.py:90-116`). It is floating-point numerics
  with random sampling and library calls. As written, `get_stock_data`
  (`backend/app.py:32-44`) returns either `None` or a dictionary with only the keys
  `price`, `change` and `volume`. So `calculate_returns` (`backend/app.py:50`)
  raises `KeyError` on `'Close'` for the first quote that was fetched, inside the
  `try` of `calculate_portfolio_metrics`, which then returns `None`. When no quote
  was fetched, `returns_data` stays empty and `backend/app.py:67-68` returns `None`
  first. The `pd.DataFrame` line (`backend/app.py:71`), which uses pandas without
  importing it, is never reached. So, as written, `calculate_portfolio_metrics`
  returns `None` for every portfolio, and `/api/optimize-portfolio` answers 500
  "Could not calculate portfolio metrics" to every non-empty portfolio.
  `FlaskBackend.OptimizePortfolio` states that answer for any `optimise`, this one
  included.
- Logging is not modelled: the `print` calls in the `except` branches of
  `backend/app.py` (for example `backend/app.py:43`) and the `console.error` calls
  in the `catch` blocks of `frontend/pages/index.tsx` (lines 46, 67 and 81) have no
  effect on any result.
- Python's `str` of floats and of dictionaries (the `show`, `showPortfolio` and
  `showSentiment` parameters) is not modelled.
- JavaScript object key order is not modelled: the chat body's portfolio is a map.
- String functions are modelled over ASCII. Unicode case mapping and the
  non-ASCII line boundaries of `splitlines` are not modelled.
- Framework behaviour is not modelled:
  - malformed JSON bodies and wrongly typed fields;
  - Flask's generic 500 "Internal server error" handler;
  - FastAPI/pydantic request validation (422 answers);
  - response-model validation.
- FlaskBackend.AnalyzeNews: the fetch parameter yields the page's text content
  after scripts and styles are removed. The request's `portfolio_tickers` is a
  list of strings.
- FastApiBackend.ChatContext: the two dictionaries are passed as key/value
  sequences in dictionary order.
- Workbench: rendering is not modelled:
  - the pie chart data (`frontend/pages/index.tsx:85-97`);
  - the input elements' `onChange` setters. Those of the text inputs are plain
    assignments to the class's fields. The risk-tolerance slider's setter applies
    `parseFloat` to the range input's value (`frontend/pages/index.tsx:178`), which
    is always a number from 0 to 1 in steps of 0.1; the model takes that number as
    assigned.
- Workbench: `parseFloat` can also yield `Infinity` and `-Infinity` (for
  "Infinity", or for a numeral too large for a double), and rounds every value to a
  double. `Number` is an exact real or NaN, so a weight read as an infinity or
  rounded is not represented.
- Workbench: each handler runs atomically on the state at the moment it is called.
  The interleaving of two pending requests is not modelled, and neither is a
  question typed while the chat request is pending.
- Workbench.Home.AskChat: a successful reply is taken to carry an `answer` string.
  A reply without that field would append an undefined answer, which the model does
  not represent.
- ActivityLog: the icons and the badge colours are not modelled.
- ProfileSettings.WithInput requires that the input's name is neither
  `notifications` nor `preferences`. The page has no input with such a name, and
  such an input would replace the nested record with a string.
- ProfileSettings.WithNotificationToggled: a switch name that JavaScript objects
  inherit from `Object.prototype` (`constructor`, `toString`) reads as truthy, so
  toggling it would add it switched off. The page only toggles the switches on the
  form (`frontend/pages/dashboard/profile.tsx:170`); the model reads every name not
  on the form as `undefined`.
- ProfileSettings: the password inputs and the "Save Changes" button have no
  handlers in the source, so there is nothing to model.

## Findings

| source | as written | input that shows it | evidently intended | confidence | as-written member | corrected member |
|---|---|---|---|---|---|---|
| frontend/pages/dashboard/activity.tsx:84 | `activity.category === selectedCategory` compares the lower-case button ids (`'portfolio'`, `'system'`, …) with the capitalised categories (`'Portfolio'`, `'System'`, …) | selecting the "Portfolio" button with an empty search: two activities have category `'Portfolio'` but the list is empty, as it is for every button except "All Activities" | compare the button id with the activity's `type`, whose values are exactly the button ids | medium, not executed | ActivityLog.CategoryButtonsShowNothing | ActivityLog.FilteredByTypeMeaning |
