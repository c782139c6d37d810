/** The Flask backend (`backend/app.py`): page-text cleanup, sentiment labelling,
    the line-oriented parser of the categorisation reply with its portfolio
    override, the chat context, and the guards of the three endpoints. The
    network fetch, the sentiment analyser, the chat completion service and the
    portfolio optimiser are parameters. */
module FlaskBackend {
  import opened Wrappers
  import opened Http
  import opened Text

  // ---------------------------------------------------------------- page text cleanup

  /** The stripped phrases of `ps` that are not empty, in order. */
  function KeptPhrases(ps: seq<String>): seq<String> {
    if ps == [] then []
    else (if Strip(ps[0]) == [] then [] else [Strip(ps[0])]) + KeptPhrases(ps[1..])
  }

  /** The chunks one line contributes: the stripped line split on double spaces,
      each phrase stripped, empty phrases dropped. */
  function LineChunks(line: String): seq<String> {
    KeptPhrases(Split(Strip(line), "  "))
  }

  /** The chunks of all lines, line after line. */
  function Chunks(lines: seq<String>): seq<String> {
    if lines == [] then [] else LineChunks(lines[0]) + Chunks(lines[1..])
  }

  /** The text `extract_text_from_url` returns for a page whose text content is `text`. */
  function CleanText(text: String): String {
    Join(" ", Chunks(SplitLines(text)))
  }

  /** No two consecutive spaces. */
  predicate NoDoubleSpace(s: String) {
    forall k | 0 <= k < |s| - 1 :: !(s[k] == ' ' && s[k + 1] == ' ')
  }

  /** A chunk as the cleanup emits it: non-empty, no whitespace at either end,
      no double space inside. */
  predicate IsChunk(c: String) {
    c != [] && !IsSpace(c[0]) && !IsSpace(c[|c| - 1]) && NoDoubleSpace(c)
  }

  predicate AllChunks(cs: seq<String>) {
    cs == [] || (IsChunk(cs[0]) && AllChunks(cs[1..]))
  }

  lemma NoDoubleSpaceIff(s: String)
    ensures NoDoubleSpace(s) <==> !Contains(s, "  ")
  {
    if !NoDoubleSpace(s) {
      var k :| 0 <= k < |s| - 1 && s[k] == ' ' && s[k + 1] == ' ';
      DoubleSpaceAt(s, k);
    }
    if Contains(s, "  ") {
      var k :| 0 <= k <= |s| && OccursAt(s, "  ", k);
      DoubleSpaceAt(s, k);
    }
  }

  lemma NoDoubleAppend(a: String, b: String)
    requires NoDoubleSpace(a) && NoDoubleSpace(b)
    requires a == [] || b == [] || a[|a| - 1] != ' ' || b[0] != ' '
    ensures NoDoubleSpace(a + b)
  {
    var s := a + b;
    forall k | 0 <= k < |s| - 1
      ensures !(s[k] == ' ' && s[k + 1] == ' ')
    {
      if k + 1 < |a| {
        assert s[k] == a[k] && s[k + 1] == a[k + 1];
      } else if k + 1 == |a| {
        assert s[k] == a[|a| - 1] && s[k + 1] == b[0];
      } else {
        assert s[k] == b[k - |a|] && s[k + 1] == b[k + 1 - |a|];
      }
    }
  }

  /** A stripped phrase of a piece without double spaces is a chunk. */
  lemma StrippedChunk(p: String)
    requires !Contains(p, "  ") && Strip(p) != []
    ensures IsChunk(Strip(p))
  {
    var i, j := StripBounds(p);
    if Contains(Strip(p), "  ") {
      ContainsInSlice(p, i, j, "  ");
    }
    NoDoubleSpaceIff(Strip(p));
  }

  lemma {:induction false} KeptPhrasesChunks(ps: seq<String>)
    requires NoneContain(ps, "  ")
    ensures AllChunks(KeptPhrases(ps))
  {
    if ps != [] {
      KeptPhrasesChunks(ps[1..]);
      if Strip(ps[0]) != [] {
        StrippedChunk(ps[0]);
        assert KeptPhrases(ps) == [Strip(ps[0])] + KeptPhrases(ps[1..]);
      } else {
        assert KeptPhrases(ps) == KeptPhrases(ps[1..]);
      }
    }
  }

  lemma {:induction false} AllChunksAppend(a: seq<String>, b: seq<String>)
    requires AllChunks(a) && AllChunks(b)
    ensures AllChunks(a + b)
  {
    if a != [] {
      AllChunksAppend(a[1..], b);
      assert (a + b)[0] == a[0] && (a + b)[1..] == a[1..] + b;
    } else {
      assert a + b == b;
    }
  }

  lemma {:induction false} ChunksAreChunks(lines: seq<String>)
    ensures AllChunks(Chunks(lines))
  {
    if lines != [] {
      ChunksAreChunks(lines[1..]);
      SplitPieces(Strip(lines[0]), "  ");
      KeptPhrasesChunks(Split(Strip(lines[0]), "  "));
      AllChunksAppend(LineChunks(lines[0]), Chunks(lines[1..]));
    }
  }

  /** Chunks joined by single spaces: empty only without chunks, no whitespace at
      either end, no double space. */
  lemma {:induction false} JoinChunks(cs: seq<String>)
    requires AllChunks(cs)
    ensures var j := Join(" ", cs);
      (j == [] <==> cs == []) && (j != [] ==> !IsSpace(j[0]) && !IsSpace(j[|j| - 1])) && NoDoubleSpace(j)
  {
    if |cs| >= 2 {
      var rest := Join(" ", cs[1..]);
      JoinChunks(cs[1..]);
      assert Join(" ", cs) == cs[0] + " " + rest;
      NoDoubleAppend(cs[0], " ");
      NoDoubleAppend(cs[0] + " ", rest);
      assert (cs[0] + " " + rest)[0] == cs[0][0];
    }
  }

  lemma {:induction false} KeptPhrasesVisible(ps: seq<String>)
    ensures Visible(Concat(KeptPhrases(ps))) == Visible(Concat(ps))
  {
    if ps != [] {
      KeptPhrasesVisible(ps[1..]);
      var c := Strip(ps[0]);
      var rest := KeptPhrases(ps[1..]);
      VisibleAppend(ps[0], Concat(ps[1..]));
      StripVisible(ps[0]);
      if c == [] {
        assert KeptPhrases(ps) == rest;
      } else {
        assert KeptPhrases(ps) == [c] + rest;
        ConcatCons(c, rest);
        VisibleAppend(c, Concat(rest));
      }
    }
  }

  lemma LineChunksVisible(line: String)
    ensures Visible(Concat(LineChunks(line))) == Visible(line)
  {
    var pieces := Split(Strip(line), "  ");
    KeptPhrasesVisible(pieces);
    assert Visible("  ") == [];
    JoinVisible("  ", pieces);
    SplitJoin(Strip(line), "  ");
    StripVisible(line);
  }

  lemma {:induction false} ChunksVisible(lines: seq<String>)
    ensures Visible(Concat(Chunks(lines))) == Visible(Concat(lines))
  {
    if lines != [] {
      ChunksVisible(lines[1..]);
      LineChunksVisible(lines[0]);
      ConcatAppend(LineChunks(lines[0]), Chunks(lines[1..]));
      VisibleAppend(Concat(LineChunks(lines[0])), Concat(Chunks(lines[1..])));
      VisibleAppend(lines[0], Concat(lines[1..]));
    }
  }

  /** The cleanup only adds, removes and replaces whitespace: the non-whitespace
      characters of the page text survive, in order, and nothing else is added. */
  lemma CleanTextVisible(text: String)
    ensures Visible(CleanText(text)) == Visible(text)
  {
    var lines := SplitLines(text);
    assert Visible(" ") == [];
    JoinVisible(" ", Chunks(lines));
    ChunksVisible(lines);
    SplitLinesVisible(text);
  }

  /** The cleaned text has no whitespace at either end and no two consecutive spaces. */
  lemma CleanTextShape(text: String)
    ensures var r := CleanText(text);
      (r == [] || (!IsSpace(r[0]) && !IsSpace(r[|r| - 1]))) && !Contains(r, "  ")
  {
    ChunksAreChunks(SplitLines(text));
    JoinChunks(Chunks(SplitLines(text)));
    NoDoubleSpaceIff(CleanText(text));
  }

  /** A page whose text is only whitespace, and only such a page, cleans to "". */
  lemma CleanTextBlank(text: String)
    ensures CleanText(text) == [] <==> AllSpace(text)
  {
    var r := CleanText(text);
    CleanTextVisible(text);
    CleanTextShape(text);
    VisibleEmptyIffAllSpace(text);
    VisibleEmptyIffAllSpace(r);
  }

  // ---------------------------------------------------------------- sentiment label

  /** The label of a compound polarity score. */
  function SentimentOf(compound: real): (r: String)
    ensures r == "positive" || r == "negative" || r == "neutral"
    ensures r == "positive" <==> compound >= 0.05
    ensures r == "negative" <==> compound <= -0.05
    ensures r == "neutral" <==> -0.05 < compound < 0.05
  {
    if compound >= 0.05 then "positive"
    else if compound <= -0.05 then "negative"
    else "neutral"
  }

  /** The labels in increasing order of polarity. */
  function SentimentRank(name: String): nat {
    if name == "negative" then 0 else if name == "neutral" then 1 else 2
  }

  /** A higher score never gets a less positive label. */
  lemma SentimentMonotone(c1: real, c2: real)
    requires c1 <= c2
    ensures SentimentRank(SentimentOf(c1)) <= SentimentRank(SentimentOf(c2))
  {
  }

  // ---------------------------------------------------------------- categorisation reply

  /** The user message sent to the chat completion service for a news text. */
  function NewsPrompt(text: String): String {
    "Analyze this text and categorize it:\n\n" + text
  }

  /** Which field a reply line sets. */
  datatype LineKind = CategoryLine | CompaniesLine | TopicLine | OtherLine

  /** The tests run in this order on the lower-cased line, so the first that
      matches decides. */
  function KindOf(line: String): LineKind {
    var low := Lower(line);
    if Contains(low, "category") then CategoryLine
    else if Contains(low, "companies") || Contains(low, "company") then CompaniesLine
    else if Contains(low, "topic") then TopicLine
    else OtherLine
  }

  /** `line.split(':')[1]`; absent (Python raises `IndexError`) when the line has no colon. */
  function SecondField(line: String): (r: Option<String>)
    ensures r.None? <==> ':' !in line
  {
    SplitSingle(line, ":");
    ContainsChar(line, ':');
    var parts := Split(line, ":");
    if |parts| >= 2 then Some(parts[1]) else None
  }

  lemma ColonAt(line: String, k: int)
    requires 0 <= k < |line|
    ensures OccursAt(line, ":", k) <==> line[k] == ':'
  {
    OccursAtIff(line, ":", k);
    assert line[k..k + 1] == [line[k]];
  }

  /** Positions where no ":" occurs hold no colon. */
  lemma NoColonBetween(line: String, lo: int, hi: int)
    requires 0 <= lo && hi <= |line|
    requires forall k | lo <= k < hi :: !OccursAt(line, ":", k)
    ensures forall m | lo <= m < hi :: line[m] != ':'
  {
    forall m | lo <= m < hi
      ensures line[m] != ':'
    {
      ColonAt(line, m);
    }
  }

  /** The first colon of `line` at or after `from`, if any. */
  lemma NextColon(line: String, from: nat) returns (j: nat)
    requires from <= |line|
    ensures from <= j <= |line| && (j == |line| || line[j] == ':')
    ensures forall m | from <= m < j :: line[m] != ':'
    ensures j == |line| ==> SplitFrom(line, ":", from) == [line[from..]]
    ensures j < |line| ==> SplitFrom(line, ":", from) == [line[from..j]] + SplitFrom(line, ":", j + 1)
  {
    IndexFromFirst(line, ":", from);
    match IndexFrom(line, ":", from)
    case None =>
      j := |line|;
      SplitFromNone(line, ":", from);
      NoColonBetween(line, from, j);
    case Some(n) =>
      j := n;
      ColonAt(line, j);
      SplitFromSome(line, ":", from, j);
      NoColonBetween(line, from, j);
  }

  /** The second field is the text between the first colon and the next colon
      (or the end of the line). */
  lemma SecondFieldSpan(line: String) returns (i: nat, j: nat)
    requires ':' in line
    ensures i < j <= |line| && line[i] == ':' && (j == |line| || line[j] == ':')
    ensures forall m | 0 <= m < i :: line[m] != ':'
    ensures forall m | i < m < j :: line[m] != ':'
    ensures SecondField(line) == Some(line[i + 1..j])
  {
    i := NextColon(line, 0);
    j := NextColon(line, i + 1);
    var rest := SplitFrom(line, ":", i + 1);
    assert Split(line, ":") == [line[0..i]] + rest;
    assert rest[0] == line[i + 1..j];
  }

  /** What the loop holds after a prefix of the reply's lines. */
  datatype Parsed = Parsed(category: String, companies: seq<String>, topic: String)

  const DEFAULTS: Parsed := Parsed("global", [], "")

  function StripEach(ps: seq<String>): seq<String> {
    seq(|ps|, i requires 0 <= i < |ps| => Strip(ps[i]))
  }

  /** The value a line of the given kind assigns, from its second field `v`. */
  function Assign(p: Parsed, kind: LineKind, v: String): Parsed {
    match kind
    case CategoryLine => p.(category := Lower(Strip(v)))
    case CompaniesLine => p.(companies := StripEach(Split(v, ",")))
    case TopicLine => p.(topic := Strip(v))
    case OtherLine => p
  }

  /** A reply line as the loop sees it: the field it sets and its second field. */
  datatype Entry = Entry(kind: LineKind, field: Option<String>)

  function Entries(lines: seq<String>): seq<Entry> {
    seq(|lines|, i requires 0 <= i < |lines| => Entry(KindOf(lines[i]), SecondField(lines[i])))
  }

  /** One turn of the parse loop; None when the line sets a field but has no colon. */
  function Step(p: Parsed, e: Entry): Option<Parsed> {
    if e.kind == OtherLine then Some(p)
    else match e.field
      case None => None
      case Some(v) => Some(Assign(p, e.kind, v))
  }

  /** The loop from the defaults, one entry after another. */
  function ParseEntries(es: seq<Entry>): Option<Parsed> {
    if es == [] then Some(DEFAULTS)
    else match ParseEntries(es[..|es| - 1])
      case None => None
      case Some(p) => Step(p, es[|es| - 1])
  }

  /** The parse of the lines of a reply. */
  function ParseLines(lines: seq<String>): Option<Parsed> {
    ParseEntries(Entries(lines))
  }

  /** An entry that makes the parse raise. */
  predicate Broken(e: Entry) {
    e.kind != OtherLine && e.field.None?
  }

  /** The position of the last entry of the given kind. */
  function LastIndex(es: seq<Entry>, kind: LineKind): (r: Option<nat>)
    ensures r.None? <==> forall i | 0 <= i < |es| :: es[i].kind != kind
    ensures r.Some? ==> r.value < |es| && es[r.value].kind == kind
    ensures r.Some? ==> forall m | r.value < m < |es| :: es[m].kind != kind
  {
    if es == [] then None
    else if es[|es| - 1].kind == kind then Some(|es| - 1)
    else LastIndex(es[..|es| - 1], kind)
  }

  /** `p` with the field of the given kind set by the last entry of that kind, if any. */
  function Latest(es: seq<Entry>, kind: LineKind, p: Parsed): Parsed {
    match LastIndex(es, kind)
    case None => p
    case Some(i) => Assign(p, kind, es[i].field.GetOr([]))
  }

  /** The parse without the loop: each field is set by the last entry of its kind. */
  function FinalFields(es: seq<Entry>): Parsed {
    Parsed(Latest(es, CategoryLine, DEFAULTS).category,
           Latest(es, CompaniesLine, DEFAULTS).companies,
           Latest(es, TopicLine, DEFAULTS).topic)
  }

  /** The loop fails exactly when some entry sets a field without a value; otherwise
      every field holds the value of the last entry of its kind, or its default. */
  lemma {:induction false} ParseEntriesMeaning(es: seq<Entry>)
    ensures ParseEntries(es) ==
      if exists i | 0 <= i < |es| :: Broken(es[i]) then None else Some(FinalFields(es))
  {
    if es != [] {
      var n := |es| - 1;
      var init, last := es[..n], es[n];
      assert es == init + [last];
      ParseEntriesMeaning(init);
      BrokenSnoc(init, last);
      if !Broken(last) && !exists i | 0 <= i < n :: Broken(init[i]) {
        StepFinal(init, last);
      }
    }
  }

  lemma BrokenSnoc(init: seq<Entry>, last: Entry)
    ensures (exists i | 0 <= i < |init + [last]| :: Broken((init + [last])[i])) <==>
      (exists i | 0 <= i < |init| :: Broken(init[i])) || Broken(last)
  {
    var es := init + [last];
    if exists i | 0 <= i < |es| :: Broken(es[i]) {
      var i :| 0 <= i < |es| && Broken(es[i]);
      if i < |init| { assert Broken(init[i]); }
    }
    if exists i | 0 <= i < |init| :: Broken(init[i]) {
      var i :| 0 <= i < |init| && Broken(init[i]);
      assert es[i] == init[i];
    }
    if Broken(last) {
      assert es[|init|] == last;
    }
  }

  /** One more entry changes exactly the field of its kind. */
  lemma StepFinal(init: seq<Entry>, e: Entry)
    requires !Broken(e)
    ensures Step(FinalFields(init), e) == Some(FinalFields(init + [e]))
  {
    var es := init + [e];
    assert es[..|init|] == init;
    forall k ensures LastIndex(es, k) == if k == e.kind then Some(|init|) else LastIndex(init, k) {
    }
  }

  /** The parse of a reply's lines fails exactly when a line that sets a field has no
      colon; otherwise each field holds the value of the last line of its kind, or its
      default when no line has that kind. */
  lemma ParseLinesMeaning(lines: seq<String>)
    ensures ParseLines(lines) ==
      if exists i | 0 <= i < |lines| :: KindOf(lines[i]) != OtherLine && ':' !in lines[i]
      then None else Some(FinalFields(Entries(lines)))
  {
    var es := Entries(lines);
    ParseEntriesMeaning(es);
    forall i | 0 <= i < |lines|
      ensures Broken(es[i]) <==> KindOf(lines[i]) != OtherLine && ':' !in lines[i]
    {
      assert es[i] == Entry(KindOf(lines[i]), SecondField(lines[i]));
    }
  }

  /** Once a prefix of the entries makes the loop raise, the whole parse fails. */
  lemma ParseStops(es: seq<Entry>, i: nat)
    requires i <= |es| && ParseEntries(es[..i]).None?
    ensures ParseEntries(es).None?
  {
    ParseEntriesMeaning(es[..i]);
    ParseEntriesMeaning(es);
    var j :| 0 <= j < i && Broken(es[..i][j]);
    assert es[..i][j] == es[j];
  }

  // ---------------------------------------------------------------- categorisation

  /** The dictionary `categorize_news` returns. */
  datatype NewsAnalysis = NewsAnalysis(category: String, sentiment: String, companies: seq<String>, topic: String)

  /** Some lower-cased company name contains the lower-cased ticker. */
  predicate MentionedIn(ticker: String, companies: seq<String>) {
    exists j | 0 <= j < |companies| :: Contains(Lower(companies[j]), Lower(ticker))
  }

  predicate AnyMentioned(tickers: seq<String>, companies: seq<String>) {
    exists t | 0 <= t < |tickers| :: MentionedIn(tickers[t], companies)
  }

  /** What `categorize_news` returns, given the analyser's compound score (or the
      failure of the analyser) and the categorisation reply (or the failure of the
      service). */
  function Categorization(tickers: seq<String>, compound: Result<real>, reply: Result<String>): Option<NewsAnalysis> {
    match (compound, reply)
    case (Err(_), _) => None
    case (_, Err(_)) => None
    case (Ok(score), Ok(analysis)) =>
      match ParseLines(Split(analysis, "\n"))
      case None => None
      case Some(p) =>
        var category := if AnyMentioned(tickers, p.companies) then "portfolio" else p.category;
        Some(NewsAnalysis(category, SentimentOf(score), p.companies, p.topic))
  }

  /** The categorisation without the loops: it fails when the analyser fails, the
      service fails or a field line has no colon; otherwise each field comes from the
      last line of its kind (or its default), and the category is "portfolio"
      whenever a ticker is mentioned in a company name. */
  lemma CategorizationMeaning(tickers: seq<String>, compound: Result<real>, reply: Result<String>)
    ensures compound.Err? || reply.Err? ==> Categorization(tickers, compound, reply) == None
    ensures compound.Ok? && reply.Ok? ==>
      var lines := Split(reply.value, "\n");
      var p := FinalFields(Entries(lines));
      Categorization(tickers, compound, reply) ==
        if exists i | 0 <= i < |lines| :: KindOf(lines[i]) != OtherLine && ':' !in lines[i] then None
        else Some(NewsAnalysis(if AnyMentioned(tickers, p.companies) then "portfolio" else p.category,
                               SentimentOf(compound.value), p.companies, p.topic))
  {
    if reply.Ok? {
      ParseLinesMeaning(Split(reply.value, "\n"));
    }
  }

  /** The `portfolio_tickers` loop: the category becomes "portfolio" as soon as one
      ticker is mentioned in a company name, and stays as parsed otherwise. */
  method PortfolioOverride(category: String, tickers: seq<String>, companies: seq<String>) returns (r: String)
    ensures r == if AnyMentioned(tickers, companies) then "portfolio" else category
  {
    r := category;
    if |tickers| > 0 {
      var t := 0;
      while t < |tickers|
        invariant 0 <= t <= |tickers| && r == category
        invariant forall u | 0 <= u < t :: !MentionedIn(tickers[u], companies)
      {
        if MentionedIn(tickers[t], companies) {
          r := "portfolio";
          break;
        }
        t := t + 1;
      }
    }
  }

  lemma ParseEntriesNext(es: seq<Entry>, i: nat)
    requires i < |es|
    ensures ParseEntries(es[..i + 1]) ==
      match ParseEntries(es[..i]) case None => None case Some(p) => Step(p, es[i])
  {
    assert es[..i + 1][..i] == es[..i];
  }

  /** One turn of the parse loop on the fields parsed so far. */
  method ParseLine(p: Parsed, line: String) returns (r: Option<Parsed>)
    ensures r == Step(p, Entry(KindOf(line), SecondField(line)))
  {
    var low := Lower(line);
    if Contains(low, "category") {
      assert KindOf(line) == CategoryLine;
      var field := SecondField(line);
      if field.None? {
        return None;
      }
      r := Some(p.(category := Lower(Strip(field.value))));
    } else if Contains(low, "companies") || Contains(low, "company") {
      assert KindOf(line) == CompaniesLine;
      var field := SecondField(line);
      if field.None? {
        return None;
      }
      r := Some(p.(companies := StripEach(Split(field.value, ","))));
    } else if Contains(low, "topic") {
      assert KindOf(line) == TopicLine;
      var field := SecondField(line);
      if field.None? {
        return None;
      }
      r := Some(p.(topic := Strip(field.value)));
    } else {
      assert KindOf(line) == OtherLine;
      r := Some(p);
    }
  }

  /** The parse loop over the lines of the reply, from the defaults; None where
      Python raises. */
  method ParseReply(analysis: String) returns (r: Option<Parsed>)
    ensures r == ParseLines(Split(analysis, "\n"))
  {
    var lines := Split(analysis, "\n");
    ghost var es := Entries(lines);
    var parsed := DEFAULTS;
    var i := 0;
    while i < |lines|
      invariant 0 <= i <= |lines|
      invariant ParseEntries(es[..i]) == Some(parsed)
    {
      ParseEntriesNext(es, i);
      var next := ParseLine(parsed, lines[i]);
      if next.None? {
        ParseStops(es, i + 1);
        return None;
      }
      parsed := next.value;
      i := i + 1;
    }
    assert es[..|lines|] == es;
    r := Some(parsed);
  }

  /** `categorize_news`: score the text, label the score, ask the service, parse its
      reply line by line, then apply the portfolio override. The analyser raising
      gives None before the service is asked. */
  method CategorizeNews(text: String, tickers: seq<String>, score: String -> Result<real>,
                        complete: String -> Result<String>)
    returns (r: Option<NewsAnalysis>)
    ensures score(text).Err? ==> r == None
    ensures r == Categorization(tickers, score(text), complete(NewsPrompt(text)))
  {
    var compound := score(text);
    if compound.Err? {
      return None;
    }
    var sentiment := SentimentOf(compound.value);
    var reply := complete(NewsPrompt(text));
    if reply.Err? {
      return None;
    }
    var parsed := ParseReply(reply.value);
    if parsed.None? {
      return None;
    }
    var p := parsed.value;
    var category := PortfolioOverride(p.category, tickers, p.companies);
    r := Some(NewsAnalysis(category, sentiment, p.companies, p.topic));
  }

  // ---------------------------------------------------------------- chat context

  /** One portfolio entry: a ticker and its weight in percent. */
  datatype Holding = Holding(ticker: String, weight: real)

  const PREAMBLE: String :=
    "You are a knowledgeable financial advisor with expertise in stock market analysis and portfolio management. \n" +
    "        Your role is to provide insightful analysis and recommendations based on the user's portfolio and current market news.\n" +
    "        Focus on:\n" +
    "        1. Analyzing how news affects specific stocks in the portfolio\n" +
    "        2. Providing context about market conditions\n" +
    "        3. Suggesting potential portfolio adjustments based on news\n" +
    "        4. Explaining the implications of news on different sectors\n" +
    "        Be clear, concise, and professional in your responses."

  const PORTFOLIO_HEADER: String := "\nCurrent Portfolio:\n"

  const NEWS_HEADER: String := "\nLatest News Analysis:\n"

  const APOLOGY: String :=
    "I apologize, but I'm having trouble processing your request at the moment. Please try again later."

  /** The line of one holding; `show` is Python's `str` of the weight. */
  function HoldingLine(h: Holding, show: real -> String): String {
    "- " + h.ticker + ": " + show(h.weight) + "%\n"
  }

  /** The line of each holding, in portfolio order. */
  function HoldingLines(ps: seq<Holding>, show: real -> String): seq<String> {
    seq(|ps|, i requires 0 <= i < |ps| => HoldingLine(ps[i], show))
  }

  /** The portfolio part of the context: absent for an empty (or missing) portfolio. */
  function PortfolioSection(ps: seq<Holding>, show: real -> String): String {
    if ps == [] then [] else PORTFOLIO_HEADER + Concat(HoldingLines(ps, show))
  }

  /** The keys of the news-analysis dictionary the chat request may carry; `otherKeys`
      says whether it holds any other key. */
  datatype NewsFields = NewsFields(category: Option<String>, sentiment: Option<String>,
                                   companies: Option<seq<String>>, topic: Option<String>,
                                   otherKeys: bool)

  /** Python's truth value of the dictionary. */
  predicate NonEmpty(n: NewsFields) {
    n.category.Some? || n.sentiment.Some? || n.companies.Some? || n.topic.Some? || n.otherKeys
  }

  /** The news part of the context; a missing field reads "unknown" (companies: none). */
  function NewsSection(news: Option<NewsFields>): String {
    match news
    case None => []
    case Some(n) =>
      if !NonEmpty(n) then []
      else
        NEWS_HEADER
        + "Category: " + n.category.GetOr("unknown") + "\n"
        + "Sentiment: " + n.sentiment.GetOr("unknown") + "\n"
        + "Companies: " + Join(", ", n.companies.GetOr([])) + "\n"
        + "Topic: " + n.topic.GetOr("unknown") + "\n"
  }

  /** The system message of a chat request. */
  function ChatContext(portfolio: seq<Holding>, news: Option<NewsFields>, show: real -> String): String {
    PREAMBLE + PortfolioSection(portfolio, show) + NewsSection(news)
  }

  lemma HoldingLinesSplit(ps: seq<Holding>, show: real -> String, i: nat)
    requires i < |ps|
    ensures HoldingLines(ps, show) == HoldingLines(ps[..i], show) + [HoldingLine(ps[i], show)] + HoldingLines(ps[i + 1..], show)
    ensures HoldingLines(ps[..i + 1], show) == HoldingLines(ps[..i], show) + [HoldingLine(ps[i], show)]
  {
  }

  /** The `i`-th holding's line sits in the portfolio section right after the lines
      of the holdings before it, so the entries appear once each and in portfolio order. */
  lemma HoldingLineAt(portfolio: seq<Holding>, show: real -> String, i: nat) returns (k: nat)
    requires i < |portfolio|
    ensures k == |PORTFOLIO_HEADER| + |Concat(HoldingLines(portfolio[..i], show))|
    ensures OccursAt(PortfolioSection(portfolio, show), HoldingLine(portfolio[i], show), k)
  {
    var lines := HoldingLines(portfolio, show);
    var j := PieceAt(lines, i);
    assert lines[..i] == HoldingLines(portfolio[..i], show);
    OccursAfter(PORTFOLIO_HEADER, Concat(lines), lines[i], j);
    k := |PORTFOLIO_HEADER| + j;
  }

  /** The holdings' lines, appended one by one after the header. */
  method BuildPortfolioSection(portfolio: seq<Holding>, show: real -> String) returns (section: String)
    requires |portfolio| > 0
    ensures section == PortfolioSection(portfolio, show)
  {
    section := PORTFOLIO_HEADER;
    var i := 0;
    while i < |portfolio|
      invariant 0 <= i <= |portfolio|
      invariant section == PORTFOLIO_HEADER + Concat(HoldingLines(portfolio[..i], show))
    {
      var line := HoldingLine(portfolio[i], show);
      HoldingLinesSplit(portfolio, show, i);
      ConcatAppend(HoldingLines(portfolio[..i], show), [line]);
      assert Concat([line]) == line;
      section := section + line;
      i := i + 1;
    }
    assert portfolio[..i] == portfolio;
  }

  /** `get_chat_response`'s context: the preamble, then the holdings one line each,
      then the news fields, each appended with `+=`. */
  method BuildChatContext(portfolio: seq<Holding>, news: Option<NewsFields>, show: real -> String)
    returns (context: String)
    ensures context == ChatContext(portfolio, news, show)
  {
    context := PREAMBLE;
    if |portfolio| > 0 {
      var portfolioStr := BuildPortfolioSection(portfolio, show);
      context := context + portfolioStr;
    } else {
      assert context == PREAMBLE + PortfolioSection(portfolio, show);
    }
    ghost var before := context;
    if news.Some? && NonEmpty(news.value) {
      var n := news.value;
      var newsStr := NEWS_HEADER;
      newsStr := newsStr + "Category: " + n.category.GetOr("unknown") + "\n";
      newsStr := newsStr + "Sentiment: " + n.sentiment.GetOr("unknown") + "\n";
      newsStr := newsStr + "Companies: " + Join(", ", n.companies.GetOr([])) + "\n";
      newsStr := newsStr + "Topic: " + n.topic.GetOr("unknown") + "\n";
      assert newsStr == NewsSection(news);
      context := context + newsStr;
    } else {
      assert context == before + NewsSection(news);
    }
  }

  /** The answer `get_chat_response` returns: the service's reply to the context and
      the question, or the fixed apology when the service fails. */
  function ChatReply(question: String, portfolio: seq<Holding>, news: Option<NewsFields>,
                     show: real -> String, complete: (String, String) -> Result<String>): String
  {
    match complete(ChatContext(portfolio, news, show), "Question: " + question)
    case Ok(answer) => answer
    case Err(_) => APOLOGY
  }

  method GetChatResponse(question: String, portfolio: seq<Holding>, news: Option<NewsFields>,
                         show: real -> String, complete: (String, String) -> Result<String>)
    returns (answer: String)
    ensures answer == ChatReply(question, portfolio, news, show, complete)
    ensures complete(ChatContext(portfolio, news, show), "Question: " + question).Err? ==> answer == APOLOGY
  {
    var context := BuildChatContext(portfolio, news, show);
    var reply := complete(context, "Question: " + question);
    answer := if reply.Ok? then reply.value else APOLOGY;
  }

  // ---------------------------------------------------------------- endpoints

  /** The body of `/api/analyze-news`; a missing key reads as its default. */
  datatype AnalyzeRequest = AnalyzeRequest(text: String, url: String, tickers: seq<String>)

  /** `extract_text_from_url`: the cleaned text content of the fetched page, or None
      when fetching fails. */
  function ExtractTextFromUrl(url: String, fetch: String -> Result<String>): (r: Option<String>)
    ensures r.None? <==> fetch(url).Err?
    ensures r.Some? ==> Visible(r.value) == Visible(fetch(url).value)
    ensures r.Some? ==> !Contains(r.value, "  ")
    ensures r.Some? ==> (r.value == [] <==> AllSpace(fetch(url).value))
  {
    match fetch(url)
    case Ok(page) =>
      CleanTextVisible(page);
      CleanTextShape(page);
      CleanTextBlank(page);
      Some(CleanText(page))
    case Err(_) => None
  }

  /** The fetched page gives no usable text: the fetch failed or the text is blank. */
  predicate Unreadable(url: String, fetch: String -> Result<String>) {
    fetch(url).Err? || AllSpace(fetch(url).value)
  }

  /** `/api/analyze-news`. */
  method AnalyzeNews(req: AnalyzeRequest, fetch: String -> Result<String>, score: String -> Result<real>,
                     complete: String -> Result<String>)
    returns (resp: Response<NewsAnalysis>)
    ensures req.text == [] && req.url == [] ==>
      resp == Failure(BAD_REQUEST, "Please provide either news text or URL")
    ensures req.url != [] && Unreadable(req.url, fetch) ==>
      resp == Failure(BAD_REQUEST, "Could not extract text from URL")
    ensures (req.text != [] || req.url != []) && !(req.url != [] && Unreadable(req.url, fetch)) ==>
      var text := if req.url != [] then CleanText(fetch(req.url).value) else req.text;
      resp == match Categorization(req.tickers, score(text), complete(NewsPrompt(text)))
              case None => Failure(SERVER_ERROR, "Could not analyze news content")
              case Some(a) => Success(a)
  {
    var text := req.text;
    if req.text == [] && req.url == [] {
      return Failure(BAD_REQUEST, "Please provide either news text or URL");
    }
    if req.url != [] {
      var extracted := ExtractTextFromUrl(req.url, fetch);
      if fetch(req.url).Ok? {
        CleanTextBlank(fetch(req.url).value);
      }
      if extracted.None? || extracted.value == [] {
        return Failure(BAD_REQUEST, "Could not extract text from URL");
      }
      text := extracted.value;
    }
    var analysis := CategorizeNews(text, req.tickers, score, complete);
    if analysis.None? {
      return Failure(SERVER_ERROR, "Could not analyze news content");
    }
    resp := Success(analysis.value);
  }

  /** The body of `/api/optimize-portfolio`; `riskTolerance` is None when the key is missing. */
  datatype OptimizeRequest = OptimizeRequest(portfolio: seq<Holding>, riskTolerance: Option<real>)

  /** What `calculate_portfolio_metrics` returns. */
  datatype Metrics = Metrics(expectedReturn: real, expectedRisk: real, optimizedWeights: map<String, real>)

  const DEFAULT_RISK_TOLERANCE: real := 0.5

  /** `/api/optimize-portfolio`; `optimise` is `calculate_portfolio_metrics`. */
  function OptimizePortfolio(req: OptimizeRequest, optimise: (seq<Holding>, real) -> Option<Metrics>)
    : (resp: Response<Metrics>)
    ensures resp == Failure(BAD_REQUEST, "Portfolio is required") <==> req.portfolio == []
    ensures req.portfolio != [] ==>
      var metrics := optimise(req.portfolio, req.riskTolerance.GetOr(DEFAULT_RISK_TOLERANCE));
      (resp.Success? <==> metrics.Some?) &&
      (resp.Success? ==> resp.body == metrics.value) &&
      (resp.Failure? ==> resp == Failure(SERVER_ERROR, "Could not calculate portfolio metrics"))
  {
    if req.portfolio == [] then Failure(BAD_REQUEST, "Portfolio is required")
    else
      match optimise(req.portfolio, req.riskTolerance.GetOr(DEFAULT_RISK_TOLERANCE))
      case None => Failure(SERVER_ERROR, "Could not calculate portfolio metrics")
      case Some(metrics) => Success(metrics)
  }

  /** The body of `/api/chat`; a missing or empty portfolio is the empty sequence. */
  datatype ChatRequest = ChatRequest(question: String, portfolio: seq<Holding>, news: Option<NewsFields>)

  /** `/api/chat`: only an empty question is refused; a failing service still
      answers, with the apology. */
  method Chat(req: ChatRequest, show: real -> String, complete: (String, String) -> Result<String>)
    returns (resp: Response<String>)
    ensures resp.Failure? <==> req.question == []
    ensures resp.Failure? ==> resp == Failure(BAD_REQUEST, "Question is required")
    ensures resp.Success? ==> resp.body == ChatReply(req.question, req.portfolio, req.news, show, complete)
  {
    if req.question == [] {
      return Failure(BAD_REQUEST, "Question is required");
    }
    var answer := GetChatResponse(req.question, req.portfolio, req.news, show, complete);
    resp := Success(answer);
  }
}
