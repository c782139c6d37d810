/** The FastAPI backend (`backend/main.py`): a keyword reading of the analysis
    reply, the URL-over-text rule, the tickers/weights length check and the chat
    context. The page fetch, the chat completion service and the optimiser are
    parameters. */
module FastApiBackend {
  import opened Wrappers
  import opened Http
  import opened Text
  import Seqs

  // ---------------------------------------------------------------- reading the reply

  /** "positive" if the lower-cased reply says so anywhere, else "negative" if it says
      that, else "neutral". */
  function ReplySentiment(analysis: String): (r: String)
    ensures r == "positive" <==> Contains(Lower(analysis), "positive")
    ensures r == "negative" <==> !Contains(Lower(analysis), "positive") && Contains(Lower(analysis), "negative")
    ensures r == "neutral" <==> !Contains(Lower(analysis), "positive") && !Contains(Lower(analysis), "negative")
  {
    var low := Lower(analysis);
    if Contains(low, "positive") then "positive"
    else if Contains(low, "negative") then "negative"
    else "neutral"
  }

  /** A reply mentioning both words reads as positive. */
  lemma PositiveWins(analysis: String)
    requires Contains(Lower(analysis), "positive") && Contains(Lower(analysis), "negative")
    ensures ReplySentiment(analysis) == "positive"
  {
  }

  /** The reading ignores case: a lower-cased reply reads the same. */
  lemma SentimentIgnoresCase(analysis: String)
    ensures ReplySentiment(Lower(analysis)) == ReplySentiment(analysis)
  {
    LowerIdempotent(analysis);
  }

  /** A token taken as a company: upper-case in Python's sense and longer than one character. */
  predicate IsCompanyToken(w: String) {
    IsUpper(w) && |w| > 1
  }

  /** The company tokens of the reply's whitespace-separated words, in reply order. */
  function ReplyCompanies(analysis: String): seq<String> {
    Seqs.Filter(Words(analysis), IsCompanyToken)
  }

  /** The companies are exactly the upper-case words longer than one character, kept
      in reply order and as often as they occur. */
  lemma ReplyCompaniesMeaning(analysis: String)
    ensures Seqs.IsSubsequence(ReplyCompanies(analysis), Words(analysis))
    ensures forall w :: w in ReplyCompanies(analysis) <==> w in Words(analysis) && IsUpper(w) && |w| > 1
    ensures forall w :: multiset(ReplyCompanies(analysis))[w] == if IsCompanyToken(w) then multiset(Words(analysis))[w] else 0
    ensures forall w | w in ReplyCompanies(analysis) :: IsWord(w)
    ensures Concat(Words(analysis)) == Visible(analysis)
  {
    WordsAreWords(analysis);
    AllWordsMembers(Words(analysis));
    WordsCoverVisible(analysis);
    Seqs.FilterIsSubsequence(Words(analysis), IsCompanyToken);
    Seqs.FilterMembership(Words(analysis), IsCompanyToken);
    Seqs.FilterCount(Words(analysis), IsCompanyToken);
  }

  const TOPIC_MARKER: String := "topic:"

  /** The stripped text after the last "topic:" (case-sensitive), or "general". */
  function ReplyTopic(analysis: String): (r: String)
    ensures !Contains(analysis, TOPIC_MARKER) ==> r == "general"
  {
    if Contains(analysis, TOPIC_MARKER) then Strip(Last(Split(analysis, TOPIC_MARKER))) else "general"
  }

  /** With a marker, the topic is the stripped remainder after an occurrence of the
      marker that no later occurrence follows. */
  lemma TopicAfterLastMarker(analysis: String) returns (k: nat)
    requires Contains(analysis, TOPIC_MARKER)
    ensures OccursAt(analysis, TOPIC_MARKER, k)
    ensures !Contains(analysis[k + |TOPIC_MARKER|..], TOPIC_MARKER)
    ensures ReplyTopic(analysis) == Strip(analysis[k + |TOPIC_MARKER|..])
  {
    k := SplitAfterLast(analysis, TOPIC_MARKER);
  }

  /** `NewsAnalysisResponse`. */
  datatype NewsAnalysis = NewsAnalysis(sentiment: String, companies: seq<String>, topic: String)

  /** The dictionary `analyze_news_with_gpt` builds from the reply. */
  function ReadReply(analysis: String): (r: NewsAnalysis)
    ensures r.sentiment == "positive" || r.sentiment == "negative" || r.sentiment == "neutral"
    ensures Seqs.IsSubsequence(r.companies, Words(analysis))
    ensures forall c :: c in r.companies <==> c in Words(analysis) && IsUpper(c) && |c| > 1
    ensures forall w :: multiset(r.companies)[w] == if IsCompanyToken(w) then multiset(Words(analysis))[w] else 0
    ensures forall c | c in r.companies :: IsWord(c)
    ensures !Contains(analysis, TOPIC_MARKER) ==> r.topic == "general"
  {
    ReplyCompaniesMeaning(analysis);
    NewsAnalysis(ReplySentiment(analysis), ReplyCompanies(analysis), ReplyTopic(analysis))
  }

  // ---------------------------------------------------------------- endpoints

  /** `NewsAnalysisRequest`. */
  datatype NewsRequest = NewsRequest(text: String, url: Option<String>)

  /** `if request.url:` -- present and not empty. */
  predicate UrlGiven(req: NewsRequest) {
    req.url.Some? && req.url.value != []
  }

  /** `extract_text_from_url`: the page's paragraph texts joined by spaces; a failing
      fetch answers 400. `fetch` yields the texts of the page's `p` elements. */
  function ExtractText(url: String, fetch: String -> Result<seq<String>>): (r: Response<String>)
    ensures r.Success? <==> fetch(url).Ok?
    ensures r.Success? ==> Visible(r.body) == Visible(Concat(fetch(url).value))
    ensures r.Failure? ==> r.status == BAD_REQUEST && r.message == "Error fetching URL: " + fetch(url).message
  {
    match fetch(url)
    case Ok(paragraphs) =>
      assert Visible(" ") == [];
      JoinVisible(" ", paragraphs);
      Success(Join(" ", paragraphs))
    case Err(e) => Failure(BAD_REQUEST, "Error fetching URL: " + e)
  }

  /** `analyze_news_with_gpt`: the reading of the reply; a failing service answers 500. */
  function AnalyzeWithGpt(text: String, complete: String -> Result<String>): (r: Response<NewsAnalysis>)
    ensures r.Success? <==> complete(text).Ok?
    ensures r.Success? ==> r.body == ReadReply(complete(text).value)
    ensures r.Failure? ==> r.status == SERVER_ERROR && r.message == "Error analyzing news: " + complete(text).message
  {
    match complete(text)
    case Ok(analysis) => Success(ReadReply(analysis))
    case Err(e) => Failure(SERVER_ERROR, "Error analyzing news: " + e)
  }

  /** `/analyze-news`: a given URL replaces the request text by the page's text. */
  function AnalyzeNews(req: NewsRequest, fetch: String -> Result<seq<String>>, complete: String -> Result<String>)
    : (resp: Response<NewsAnalysis>)
    ensures !UrlGiven(req) ==> resp == AnalyzeWithGpt(req.text, complete)
    ensures UrlGiven(req) && fetch(req.url.value).Err? ==>
      resp == Failure(BAD_REQUEST, "Error fetching URL: " + fetch(req.url.value).message)
    ensures UrlGiven(req) && fetch(req.url.value).Ok? ==>
      resp == AnalyzeWithGpt(Join(" ", fetch(req.url.value).value), complete)
  {
    if UrlGiven(req) then
      match ExtractText(req.url.value, fetch)
      case Success(text) => AnalyzeWithGpt(text, complete)
      case Failure(status, message) => Failure(status, message)
    else AnalyzeWithGpt(req.text, complete)
  }

  /** With a URL the request text plays no part in the answer. */
  lemma UrlOverridesText(req: NewsRequest, other: String, fetch: String -> Result<seq<String>>,
                         complete: String -> Result<String>)
    requires UrlGiven(req)
    ensures AnalyzeNews(req.(text := other), fetch, complete) == AnalyzeNews(req, fetch, complete)
  {
  }

  /** `PortfolioRequest`. */
  datatype PortfolioRequest = PortfolioRequest(tickers: seq<String>, weights: seq<real>, riskTolerance: real)

  /** `PortfolioResponse`. */
  datatype Optimized = Optimized(weights: map<String, real>, expectedReturn: real, expectedRisk: real)

  const LENGTH_MISMATCH: String := "Number of tickers must match number of weights"

  /** `/optimize-portfolio`; `optimise` is `optimize_portfolio`, whose failure carries
      the error text. */
  function OptimizePortfolio(req: PortfolioRequest, optimise: (seq<String>, seq<real>, real) -> Result<Optimized>)
    : (resp: Response<Optimized>)
    ensures |req.tickers| != |req.weights| ==> resp == Failure(BAD_REQUEST, LENGTH_MISMATCH)
    ensures |req.tickers| == |req.weights| ==>
      match optimise(req.tickers, req.weights, req.riskTolerance)
      case Ok(result) => resp == Success(result)
      case Err(e) => resp == Failure(SERVER_ERROR, "Error optimizing portfolio: " + e)
  {
    if |req.tickers| != |req.weights| then Failure(BAD_REQUEST, LENGTH_MISMATCH)
    else
      match optimise(req.tickers, req.weights, req.riskTolerance)
      case Ok(result) => Success(result)
      case Err(e) => Failure(SERVER_ERROR, "Error optimizing portfolio: " + e)
  }

  /** A mismatched request is answered before the optimiser is consulted: any two
      optimisers give the same answer. */
  lemma MismatchSkipsOptimiser(req: PortfolioRequest, opt1: (seq<String>, seq<real>, real) -> Result<Optimized>,
                               opt2: (seq<String>, seq<real>, real) -> Result<Optimized>)
    requires |req.tickers| != |req.weights|
    ensures OptimizePortfolio(req, opt1) == OptimizePortfolio(req, opt2)
  {
  }

  // ---------------------------------------------------------------- chat

  /** `ChatRequest`: the portfolio and the news sentiment as key/value pairs in
      dictionary order. */
  datatype ChatRequest = ChatRequest(question: String, portfolio: Option<seq<(String, real)>>,
                                     newsSentiment: Option<seq<(String, String)>>)

  const CONTEXT_PREFIX: String := "You are a financial advisor AI assistant. "

  /** Python's truth value of an optional dictionary. */
  predicate Present<T>(d: Option<seq<T>>) {
    d.Some? && d.value != []
  }

  /** The system message; `showPortfolio` and `showSentiment` are Python's `str` of the
      two dictionaries. */
  function ChatContext(req: ChatRequest, showPortfolio: seq<(String, real)> -> String,
                       showSentiment: seq<(String, String)> -> String): String
  {
    CONTEXT_PREFIX
    + (if Present(req.portfolio) then "Current portfolio: " + showPortfolio(req.portfolio.value) + ". " else "")
    + (if Present(req.newsSentiment) then "Recent news sentiment: " + showSentiment(req.newsSentiment.value) + ". " else "")
  }

  /** The context starts with the fixed prefix and is nothing more exactly when
      neither dictionary is present. */
  lemma ContextIsPrefixIff(req: ChatRequest, showPortfolio: seq<(String, real)> -> String,
                           showSentiment: seq<(String, String)> -> String)
    ensures ChatContext(req, showPortfolio, showSentiment)[..|CONTEXT_PREFIX|] == CONTEXT_PREFIX
    ensures ChatContext(req, showPortfolio, showSentiment) == CONTEXT_PREFIX <==>
      !Present(req.portfolio) && !Present(req.newsSentiment)
  {
    var context := ChatContext(req, showPortfolio, showSentiment);
    if Present(req.portfolio) || Present(req.newsSentiment) {
      assert |context| > |CONTEXT_PREFIX|;
    }
  }

  /** `chat_endpoint`'s context, built with `+=`. */
  method BuildContext(req: ChatRequest, showPortfolio: seq<(String, real)> -> String,
                      showSentiment: seq<(String, String)> -> String)
    returns (context: String)
    ensures context == ChatContext(req, showPortfolio, showSentiment)
  {
    context := CONTEXT_PREFIX;
    if req.portfolio.Some? && req.portfolio.value != [] {
      context := context + ("Current portfolio: " + showPortfolio(req.portfolio.value) + ". ");
    } else {
      assert context == CONTEXT_PREFIX + "";
    }
    ghost var before := context;
    if req.newsSentiment.Some? && req.newsSentiment.value != [] {
      context := context + ("Recent news sentiment: " + showSentiment(req.newsSentiment.value) + ". ");
    } else {
      assert context == before + "";
    }
  }

  /** `/chat`: the service's answer to the context and the question; its failure
      answers 500. An empty question is not refused. */
  method Chat(req: ChatRequest, showPortfolio: seq<(String, real)> -> String,
              showSentiment: seq<(String, String)> -> String,
              complete: (String, String) -> Result<String>)
    returns (resp: Response<String>)
    ensures var reply := complete(ChatContext(req, showPortfolio, showSentiment), req.question);
      resp == match reply
              case Ok(answer) => Success(answer)
              case Err(e) => Failure(SERVER_ERROR, "Error in chat: " + e)
  {
    var context := BuildContext(req, showPortfolio, showSentiment);
    var reply := complete(context, req.question);
    if reply.Err? {
      return Failure(SERVER_ERROR, "Error in chat: " + reply.message);
    }
    resp := Success(reply.value);
  }
}
