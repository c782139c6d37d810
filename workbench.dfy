/** The investment workbench page (`frontend/pages/index.tsx`): the component state
    of `Home`, its four handlers and the request bodies they send. The server is a
    parameter: a function from a request body to the parsed answer, or a failure for
    anything that makes `axios` throw. */
module Workbench {
  import opened Wrappers
  import opened Text

  /** A JavaScript number as `parseFloat` yields it: a value, or NaN for text that
      does not start with a number. Infinities and rounding to a double are not
      represented. */
  datatype Number = Num(value: real) | NaN

  datatype NewsAnalysis = NewsAnalysis(sentiment: String, companies: seq<String>, topic: String)

  datatype PortfolioItem = PortfolioItem(ticker: String, weight: Number)

  datatype OptimizedPortfolio = OptimizedPortfolio(optimizedWeights: map<String, real>, expectedReturn: real,
                                                   expectedRisk: real)

  /** One question of the chat transcript with the answer it got. */
  datatype Exchange = Exchange(question: String, answer: String)

  // ---------------------------------------------------------------- request bodies

  /** The `/analyze-news` body; `None` is a key left `undefined`, which JSON omits. */
  datatype AnalyzeBody = AnalyzeBody(text: String, url: Option<String>)

  /** `{ text: newsText, url: newsUrl || undefined }`: an empty URL is never sent, and
      leaving it out loses nothing. */
  function AnalyzeBodyOf(newsText: String, newsUrl: String): (b: AnalyzeBody)
    ensures b.text == newsText
    ensures b.url != Some([])
    ensures b.url.GetOr([]) == newsUrl
  {
    AnalyzeBody(newsText, if newsUrl == [] then None else Some(newsUrl))
  }

  /** The `/optimize-portfolio` body: two parallel lists and the risk tolerance. */
  datatype OptimizeBody = OptimizeBody(tickers: seq<String>, weights: seq<Number>, riskTolerance: real)

  /** `portfolio.map(p => p.ticker)`. */
  function Tickers(portfolio: seq<PortfolioItem>): seq<String> {
    seq(|portfolio|, i requires 0 <= i < |portfolio| => portfolio[i].ticker)
  }

  /** `portfolio.map(p => p.weight)`. */
  function Weights(portfolio: seq<PortfolioItem>): seq<Number> {
    seq(|portfolio|, i requires 0 <= i < |portfolio| => portfolio[i].weight)
  }

  /** Pairs two parallel lists back up, index by index. */
  function Zip(tickers: seq<String>, weights: seq<Number>): seq<PortfolioItem>
    requires |tickers| == |weights|
  {
    seq(|tickers|, i requires 0 <= i < |tickers| => PortfolioItem(tickers[i], weights[i]))
  }

  /** The two lists have the portfolio's length and zip back into the portfolio, so
      the i-th weight belongs to the i-th ticker. */
  function OptimizeBodyOf(portfolio: seq<PortfolioItem>, riskTolerance: real): (b: OptimizeBody)
    ensures |b.tickers| == |b.weights| == |portfolio|
    ensures Zip(b.tickers, b.weights) == portfolio
    ensures b.riskTolerance == riskTolerance
  {
    OptimizeBody(Tickers(portfolio), Weights(portfolio), riskTolerance)
  }

  /** `portfolio.reduce((acc, p) => ({ ...acc, [p.ticker]: p.weight }), {})`: a left
      fold in which a later item overwrites an earlier one with the same ticker. */
  function WeightsByTicker(portfolio: seq<PortfolioItem>): map<String, Number>
    decreases |portfolio|
  {
    if portfolio == [] then map[]
    else
      var last := portfolio[|portfolio| - 1];
      WeightsByTicker(portfolio[..|portfolio| - 1])[last.ticker := last.weight]
  }

  /** The keys of the folded map are exactly the portfolio's tickers. */
  lemma {:induction false} WeightsByTickerKeys(portfolio: seq<PortfolioItem>)
    ensures forall t :: t in WeightsByTicker(portfolio) <==> t in Tickers(portfolio)
    decreases |portfolio|
  {
    if portfolio != [] {
      var n := |portfolio| - 1;
      WeightsByTickerKeys(portfolio[..n]);
      assert Tickers(portfolio) == Tickers(portfolio[..n]) + [portfolio[n].ticker];
    }
  }

  /** An item that no later item shares a ticker with gives that ticker its weight:
      for a repeated ticker the last weight wins. */
  lemma {:induction false} WeightsByTickerLastWins(portfolio: seq<PortfolioItem>, i: nat)
    requires i < |portfolio|
    requires forall j | i < j < |portfolio| :: portfolio[j].ticker != portfolio[i].ticker
    ensures portfolio[i].ticker in WeightsByTicker(portfolio)
    ensures WeightsByTicker(portfolio)[portfolio[i].ticker] == portfolio[i].weight
    decreases |portfolio|
  {
    var n := |portfolio| - 1;
    if i < n {
      WeightsByTickerLastWins(portfolio[..n], i);
    }
  }

  /** The `/chat` body; `None` is the `undefined` news sentiment, which JSON omits. */
  datatype ChatBody = ChatBody(question: String, portfolio: map<String, Number>, newsSentiment: Option<String>)

  /** The chat body: the portfolio as a map keyed by exactly its tickers, and the news
      sentiment only when an analysis is on the page. */
  function ChatBodyOf(question: String, portfolio: seq<PortfolioItem>, analysis: Option<NewsAnalysis>): (b: ChatBody)
    ensures b.question == question
    ensures forall t :: t in b.portfolio <==> t in Tickers(portfolio)
    ensures b.newsSentiment.Some? <==> analysis.Some?
    ensures analysis.Some? ==> b.newsSentiment.value == analysis.value.sentiment
  {
    WeightsByTickerKeys(portfolio);
    ChatBody(question, WeightsByTicker(portfolio),
             if analysis.Some? then Some(analysis.value.sentiment) else None)
  }

  /** Only the sentiment of the analysis is sent: its companies and topic play no part. */
  lemma ChatBodyOnlySentiment(question: String, portfolio: seq<PortfolioItem>, a1: NewsAnalysis, a2: NewsAnalysis)
    requires a1.sentiment == a2.sentiment
    ensures ChatBodyOf(question, portfolio, Some(a1)) == ChatBodyOf(question, portfolio, Some(a2))
  {
  }

  // ---------------------------------------------------------------- page state

  /** The values of the component's state hooks. */
  datatype Page = Page(newsText: String, newsUrl: String, newsAnalysis: Option<NewsAnalysis>,
                       portfolio: seq<PortfolioItem>, newTicker: String, newWeight: String,
                       riskTolerance: real, optimizedPortfolio: Option<OptimizedPortfolio>,
                       chatQuestion: String, chatHistory: seq<Exchange>)

  /** Every ticker in the portfolio is upper-case. */
  predicate UpperTickers(portfolio: seq<PortfolioItem>) {
    forall i | 0 <= i < |portfolio| :: Upper(portfolio[i].ticker) == portfolio[i].ticker
  }

  /** The `Home` component; each field is one `useState` hook. The text inputs'
      setters are plain assignments to these fields, and the slider's sets the
      number it reads from the range input. */
  class Home {
    var newsText: String
    var newsUrl: String
    var newsAnalysis: Option<NewsAnalysis>
    var portfolio: seq<PortfolioItem>
    var newTicker: String
    var newWeight: String
    var riskTolerance: real
    var optimizedPortfolio: Option<OptimizedPortfolio>
    var chatQuestion: String
    var chatHistory: seq<Exchange>

    /** The whole state at once. */
    function Current(): Page
      reads this
    {
      Page(newsText, newsUrl, newsAnalysis, portfolio, newTicker, newWeight, riskTolerance,
           optimizedPortfolio, chatQuestion, chatHistory)
    }

    /** Items enter the portfolio only through `AddToPortfolio`, which upper-cases them. */
    ghost predicate Valid()
      reads this
    {
      UpperTickers(portfolio)
    }

    /** The initial hook values: empty inputs, no results, risk tolerance 0.5. */
    constructor ()
      ensures Valid()
      ensures Current() == Page([], [], None, [], [], [], 0.5, None, [], [])
    {
      newsText, newsUrl, newsAnalysis := [], [], None;
      portfolio, newTicker, newWeight := [], [], [];
      riskTolerance, optimizedPortfolio := 0.5, None;
      chatQuestion, chatHistory := [], [];
    }

    /** `addToPortfolio`: with both inputs filled in, appends one item with the ticker
        upper-cased and the weight as `parseFloat` reads it, and clears both inputs;
        otherwise nothing changes. A weight that is not a number is appended as NaN. */
    method AddToPortfolio(parseFloat: String -> Number)
      requires Valid()
      modifies this
      ensures Valid()
      ensures old(newTicker) != [] && old(newWeight) != [] ==>
        Current() == old(Current()).(portfolio := old(portfolio) + [PortfolioItem(Upper(old(newTicker)), parseFloat(old(newWeight)))],
                                     newTicker := [], newWeight := [])
      ensures old(newTicker) == [] || old(newWeight) == [] ==> Current() == old(Current())
    {
      if newTicker != [] && newWeight != [] {
        var item := PortfolioItem(Upper(newTicker), parseFloat(newWeight));
        UpperIdempotent(newTicker);
        portfolio := portfolio + [item];
        newTicker := [];
        newWeight := [];
      }
    }

    /** `analyzeNews`: a successful answer replaces the stored analysis wholesale; a
        failure changes nothing. */
    method AnalyzeNews(post: AnalyzeBody -> Result<NewsAnalysis>)
      requires Valid()
      modifies this
      ensures Valid()
      ensures var reply := post(AnalyzeBodyOf(old(newsText), old(newsUrl)));
        Current() == if reply.Ok? then old(Current()).(newsAnalysis := Some(reply.value)) else old(Current())
    {
      var reply := post(AnalyzeBodyOf(newsText, newsUrl));
      if reply.Ok? {
        newsAnalysis := Some(reply.value);
      }
    }

    /** `optimizePortfolio`: a successful answer replaces the stored optimisation
        wholesale; a failure changes nothing. */
    method OptimizePortfolio(post: OptimizeBody -> Result<OptimizedPortfolio>)
      requires Valid()
      modifies this
      ensures Valid()
      ensures var reply := post(OptimizeBodyOf(old(portfolio), old(riskTolerance)));
        Current() == if reply.Ok? then old(Current()).(optimizedPortfolio := Some(reply.value)) else old(Current())
    {
      var reply := post(OptimizeBodyOf(portfolio, riskTolerance));
      if reply.Ok? {
        optimizedPortfolio := Some(reply.value);
      }
    }

    /** `askChat`: a successful answer appends exactly one exchange, the question asked
        with its answer, and clears the question; a failure changes nothing. */
    method AskChat(post: ChatBody -> Result<String>)
      requires Valid()
      modifies this
      ensures Valid()
      ensures var reply := post(ChatBodyOf(old(chatQuestion), old(portfolio), old(newsAnalysis)));
        Current() == if reply.Ok?
                     then old(Current()).(chatHistory := old(chatHistory) + [Exchange(old(chatQuestion), reply.value)],
                                          chatQuestion := [])
                     else old(Current())
    {
      var reply := post(ChatBodyOf(chatQuestion, portfolio, newsAnalysis));
      if reply.Ok? {
        chatHistory := chatHistory + [Exchange(chatQuestion, reply.value)];
        chatQuestion := [];
      }
    }
  }
}
