/** The marketing agent's graph nodes. Each node reads the agent state and returns the keys
    it sets; the language model's and the web search's outputs are parameters, so what is
    modelled is the text handling around them: accepting extracted product details, turning
    cited model output into numbered strategies, picking the strategy the user named,
    classifying the user's satisfaction, and assembling the e-mailed guide. */
module MarketingNodes {
  import opened Common
  import opened GraphMessages

  /** `AgentState`. */
  datatype AgentState = AgentState(messages: seq<Message>, productDetails: Option<string>,
                                   strategies: Option<seq<string>>, selectedStrategy: Option<string>,
                                   satisfaction: bool, guided: bool, userEmail: Option<string>,
                                   strategyGuide: Option<string>)

  /** The dictionary a node returns: messages to append, and the keys it sets (`None`
      leaves a key alone; `selectedStrategy` may be set to null). */
  datatype Update = Update(messages: seq<Message>, productDetails: Option<string>, strategies: Option<seq<string>>,
                           selectedStrategy: Option<Option<string>>, satisfaction: Option<bool>,
                           guided: Option<bool>, strategyGuide: Option<string>)

  /** A node that only answers. */
  function Say(text: string): (u: Update)
    ensures u.messages == [Message(Ai, text)]
  {
    Update([Message(Ai, text)], None, None, None, None, None, None)
  }

  /** The graph applying a node's update: messages are appended, set keys overwritten. */
  function Apply(s: AgentState, u: Update): AgentState
  {
    AgentState(s.messages + u.messages,
               if u.productDetails.Some? then u.productDetails else s.productDetails,
               if u.strategies.Some? then u.strategies else s.strategies,
               if u.selectedStrategy.Some? then u.selectedStrategy.value else s.selectedStrategy,
               if u.satisfaction.Some? then u.satisfaction.value else s.satisfaction,
               if u.guided.Some? then u.guided.value else s.guided,
               s.userEmail,
               if u.strategyGuide.Some? then u.strategyGuide else s.strategyGuide)
  }

  // ---------------------------------------------------------------- gather_product_details

  /** `line.split(':', 1)`: the key stripped, the value stripped and lower-cased. */
  function DetailOf(line: string): (string, string)
    requires ':' in line
  {
    var i := IndexOf(line, ':');
    (Strip(Py, line[..i]), ToLowerAscii(Strip(Py, line[i + 1..])))
  }

  /** `details_map` after the loop over the lines: later lines with the same key win. */
  function DetailsOf(lines: seq<string>): map<string, string>
  {
    if lines == [] then map[]
    else
      var m := DetailsOf(lines[..|lines| - 1]);
      var line := lines[|lines| - 1];
      if ':' in line then m[DetailOf(line).0 := DetailOf(line).1] else m
  }

  /** The loop that fills `details_map`. */
  method ParseDetails(raw: string) returns (details: map<string, string>)
    ensures details == DetailsOf(Split(raw, '\n'))
  {
    var lines := Split(raw, '\n');
    details := map[];
    var i := 0;
    while i < |lines|
      invariant 0 <= i <= |lines|
      invariant details == DetailsOf(lines[..i])
    {
      assert lines[..i + 1][..i] == lines[..i];
      var line := lines[i];
      if ':' in line {
        var (key, val) := DetailOf(line);
        details := details[key := val];
      }
      i := i + 1;
    }
    assert lines[..|lines|] == lines;
  }

  /** The fields whose value does not mention "unknown". */
  function KnownCount(details: map<string, string>): nat
  {
    |set k | k in details && !Contains(details[k], "unknown")|
  }

  /** The number of lines holding a `:`. */
  function ColonLines(lines: seq<string>): nat
  {
    if lines == [] then 0 else ColonLines(lines[..|lines| - 1]) + (if ':' in lines[|lines| - 1] then 1 else 0)
  }

  /** Only fields that exist can be known. */
  lemma KnownBelowFields(d: map<string, string>)
    ensures KnownCount(d) <= |d.Keys|
  {
    var known := set k | k in d && !Contains(d[k], "unknown");
    assert known <= d.Keys;
    assert d.Keys == known + (d.Keys - known);
  }

  /** Each line adds at most one field, so three known fields need three lines with a `:`. */
  lemma {:induction false} FieldsBelowColonLines(lines: seq<string>)
    ensures |DetailsOf(lines).Keys| <= ColonLines(lines)
  {
    if lines != [] {
      var init := lines[..|lines| - 1];
      FieldsBelowColonLines(init);
      var line := lines[|lines| - 1];
      if ':' in line {
        var m := DetailsOf(init);
        var key := DetailOf(line).0;
        assert DetailsOf(lines).Keys == m.Keys + {key};
      }
    }
  }

  function DetailsConfirmation(details: string): string
  {
    "Understood. Based on your input, here's what I've gathered about your product:\n\n" + details
    + "\n\nShall I proceed with generating strategies based on this?"
  }

  /** When the extracted details are accepted: the last message is the user's, the
      stripped extraction starts with `Name:`, holds a line break, and has at least three
      fields whose value does not mention "unknown". */
  predicate DetailsAccepted(messages: seq<Message>, extraction: string)
  {
    && EndsWithHuman(messages)
    && StartsWith(Strip(Py, extraction), "Name:") && '\n' in extraction
    && KnownCount(DetailsOf(Split(extraction, '\n'))) >= 3
  }

  /** `gather_product_details`, given the extraction the model returned for the user's last
      message and the follow-up questions it would ask instead. */
  method GatherProductDetails(messages: seq<Message>, extraction: string, followUp: string) returns (u: Update)
    ensures DetailsAccepted(messages, extraction) ==>
              u == Update([Message(Ai, DetailsConfirmation(Strip(Py, extraction)))], Some(Strip(Py, extraction)),
                          None, None, None, None, None)
    ensures !DetailsAccepted(messages, extraction) ==> u == Say(followUp)
    ensures u.productDetails.Some? ==> ColonLines(Split(extraction, '\n')) >= 3
  {
    if EndsWithHuman(messages) && StartsWith(Strip(Py, extraction), "Name:") && '\n' in extraction {
      var details := ParseDetails(extraction);
      if KnownCount(details) >= 3 {
        KnownBelowFields(details);
        FieldsBelowColonLines(Split(extraction, '\n'));
        assert DetailsAccepted(messages, extraction);
        var stripped := Strip(Py, extraction);
        return Update([Message(Ai, DetailsConfirmation(stripped))], Some(stripped), None, None, None, None, None);
      }
    }
    u := Say(followUp);
  }

  // ---------------------------------------------------------------- generate_strategies

  /** The first index at or after `p` that is not white space. */
  function SkipSpace(s: string, p: nat): (q: nat)
    requires p <= |s|
    ensures p <= q <= |s| && (q < |s| ==> !IsSpace(Py, s[q]))
    ensures forall k :: p <= k < q ==> IsSpace(Py, s[k])
    decreases |s| - p
  {
    if p == |s| || !IsSpace(Py, s[p]) then p else SkipSpace(s, p + 1)
  }

  /** The first index at or after `p` that is not an ASCII digit. */
  function SkipDigits(s: string, p: nat): (q: nat)
    requires p <= |s|
    ensures p <= q <= |s| && (q < |s| ==> !IsAsciiDigit(s[q]))
    ensures AllDigits(s[p..q])
    decreases |s| - p
  {
    if p == |s| || !IsAsciiDigit(s[p]) then p
    else
      var q := SkipDigits(s, p + 1);
      assert s[p..q] == [s[p]] + s[p + 1..q];
      q
  }

  const CitationOpen := "(Source:"

  /** A match of `\(Source:\s*\[?(\d+)\]?\)` starting at `p`: the cited number's digits and
      the index just past the match. Each part of the pattern has one way to match, so the
      match is found without backtracking. */
  function CitationAt(s: string, p: nat): (m: Option<(string, nat)>)
    requires p <= |s|
    ensures m.Some? ==> p < m.value.1 <= |s| && m.value.0 != [] && AllDigits(m.value.0)
    ensures m.Some? ==> OccursAt(s, p, CitationOpen) && s[m.value.1 - 1] == ')'
  {
    if !OccursAt(s, p, CitationOpen) then None
    else
      var q := SkipSpace(s, p + |CitationOpen|);
      var r := if q < |s| && s[q] == '[' then q + 1 else q;
      var e := SkipDigits(s, r);
      var f := if e < |s| && s[e] == ']' then e + 1 else e;
      if e > r && f < |s| && s[f] == ')' then Some((s[r..e], f + 1)) else None
  }

  /** `pattern.search(s[p..])`: the digits of the leftmost citation. */
  function FirstCitation(s: string, p: nat): (n: Option<string>)
    requires p <= |s|
    ensures n.Some? ==> p + |CitationOpen| <= |s| && n.value != [] && AllDigits(n.value)
    decreases |s| - p
  {
    match CitationAt(s, p)
    case Some((digits, _)) => Some(digits)
    case None => if p == |s| then None else FirstCitation(s, p + 1)
  }

  /** `pattern.sub('', s[p..])`: every citation removed, left to right. */
  function RemoveCitations(s: string, p: nat): (r: string)
    requires p <= |s|
    ensures |r| <= |s| - p
    decreases |s| - p
  {
    if p == |s| then []
    else match CitationAt(s, p)
      case Some((_, e)) => RemoveCitations(s, e)
      case None => [s[p]] + RemoveCitations(s, p + 1)
  }

  /** `re.sub(r'^\d+\.\s*', '', s)`: a leading list number, its dot and the white space
      after it removed. */
  function StripNumbering(s: string): (r: string)
    ensures |r| <= |s|
    ensures r != s ==> |r| < |s| && s[|s| - |r|..] == r && IsAsciiDigit(s[0])
  {
    var e := SkipDigits(s, 0);
    if e > 0 && e < |s| && s[e] == '.' then s[SkipSpace(s, e + 1)..] else s
  }

  /** `source_map.get(n, "Source not found")` over the 1-based numbering of the results. */
  function SourceUrl(links: seq<string>, n: nat): (url: string)
    ensures 1 <= n <= |links| ==> url == links[n - 1]
    ensures !(1 <= n <= |links|) ==> url == "Source not found"
  {
    if 1 <= n <= |links| then links[n - 1] else "Source not found"
  }

  function StrategyLabel(k: nat): string
  {
    "**Strategy " + NatToString(k) + ":** "
  }

  /** The strategies kept so far and the response lines written for them. */
  datatype Parsed = Parsed(strategies: seq<string>, lines: seq<string>)

  lemma Affixes(a: string, b: string)
    ensures StartsWith(a + b, a) && EndsWith(a + b, b)
  {
    assert (a + b)[..|a|] == a;
    assert (a + b)[|a + b| - |b|..] == b;
  }

  /** What one line of the model's output contributes when `k` strategies precede it: the
      strategy text and its response line, or nothing. A blank line gives nothing; a line
      with a citation gives its text, with the citations and the list number removed, and
      the cited source; an uncited line longer than 10 characters that starts with a digit
      gives its text without the list number; any other line gives nothing. Every response
      line starts with its number and its strategy, and a cited line's ends with the cited
      source or says it was not found. */
  function LineEntry(raw: string, k: nat, links: seq<string>): (e: Option<(string, string)>)
    ensures e.Some? ==> StartsWith(e.value.1, StrategyLabel(k) + e.value.0)
    ensures var line := Strip(Py, raw);
            && (FirstCitation(line, 0).Some? ==>
                  e.Some? && EndsWith(e.value.1, "\n*Source: " + SourceUrl(links, DigitsValue(FirstCitation(line, 0).value)) + "*"))
            && (FirstCitation(line, 0).None? ==> (e.Some? <==> |line| > 10 && IsAsciiDigit(line[0])))
  {
    var line := Strip(Py, raw);
    match FirstCitation(line, 0)
    case Some(digits) =>
      var text := StripNumbering(Strip(Py, RemoveCitations(line, 0)));
      var tail := "\n*Source: " + SourceUrl(links, DigitsValue(digits)) + "*";
      Affixes(StrategyLabel(k) + text, tail);
      Some((text, StrategyLabel(k) + text + tail))
    case None =>
      if |line| > 10 && IsAsciiDigit(line[0]) then
        var text := StripNumbering(line);
        Affixes(StrategyLabel(k) + text, "");
        assert StrategyLabel(k) + text + "" == StrategyLabel(k) + text;
        Some((text, StrategyLabel(k) + text))
      else None
  }

  /** Adds the line's entry, numbered after the strategies kept so far. */
  function ParseLine(acc: Parsed, raw: string, links: seq<string>): Parsed
  {
    match LineEntry(raw, |acc.strategies| + 1, links)
    case None => acc
    case Some((text, out)) => Parsed(acc.strategies + [text], acc.lines + [out])
  }

  function ParseAll(pieces: seq<string>, links: seq<string>): Parsed
  {
    if pieces == [] then Parsed([], [])
    else ParseLine(ParseAll(pieces[..|pieces| - 1], links), pieces[|pieces| - 1], links)
  }

  /** The loop of `generate_strategies` that fills `final_strategies` and
      `final_response_lines`. */
  method ParseStrategies(text: string, links: seq<string>) returns (strategies: seq<string>, lines: seq<string>)
    ensures Parsed(strategies, lines) == ParseAll(Split(text, '\n'), links)
  {
    var pieces := Split(text, '\n');
    strategies, lines := [], [];
    var i := 0;
    while i < |pieces|
      invariant 0 <= i <= |pieces|
      invariant Parsed(strategies, lines) == ParseAll(pieces[..i], links)
    {
      var next := ParseLine(Parsed(strategies, lines), pieces[i], links);
      assert pieces[..i + 1][..i] == pieces[..i] && pieces[..i + 1][i] == pieces[i];
      assert ParseAll(pieces[..i + 1], links) == next;
      strategies, lines := next.strategies, next.lines;
      i := i + 1;
    }
    assert pieces[..|pieces|] == pieces;
  }

  /** The k-th kept strategy's response line starts with "**Strategy k:** " and its text. */
  predicate Labelled(p: Parsed)
  {
    && |p.strategies| == |p.lines|
    && forall i :: 0 <= i < |p.lines| ==> StartsWith(p.lines[i], StrategyLabel(i + 1) + p.strategies[i])
  }

  /** Adding one labelled entry after the `k` kept so far keeps every line labelled. */
  lemma LabelledStep(acc: Parsed, text: string, out: string)
    requires Labelled(acc)
    requires StartsWith(out, StrategyLabel(|acc.strategies| + 1) + text)
    ensures Labelled(Parsed(acc.strategies + [text], acc.lines + [out]))
  {
    var r := Parsed(acc.strategies + [text], acc.lines + [out]);
    var k := |acc.strategies|;
    forall i | 0 <= i < |r.lines|
      ensures StartsWith(r.lines[i], StrategyLabel(i + 1) + r.strategies[i])
    {
      if i < k {
        assert r.lines[i] == acc.lines[i] && r.strategies[i] == acc.strategies[i];
      }
    }
  }

  lemma {:induction false} ParseAllLabelled(pieces: seq<string>, links: seq<string>)
    ensures Labelled(ParseAll(pieces, links))
    ensures |ParseAll(pieces, links).strategies| <= |pieces|
  {
    if pieces != [] {
      var acc := ParseAll(pieces[..|pieces| - 1], links);
      ParseAllLabelled(pieces[..|pieces| - 1], links);
      var entry := LineEntry(pieces[|pieces| - 1], |acc.strategies| + 1, links);
      if entry.Some? {
        LabelledStep(acc, entry.value.0, entry.value.1);
      }
    }
  }

  predicate EndsWith(s: string, suffix: string)
  {
    |suffix| <= |s| && s[|s| - |suffix|..] == suffix
  }

  const StrategiesIntro := "Here are some killer strategies I found for you! \U{1F525}\n\n"
  const StrategiesOutro := "\n\nWhich of these strategies resonates with you the most? Reply with the number or name! \U{1F447}"
  const FormattingTrouble := "I researched some strategies, but had trouble formatting them with specific sources. Please try describing your product again."

  /** `generate_strategies`, given the links of the search results in order and the model's
      cited strategies. Nothing kept gives the retry message and leaves `strategies` alone;
      otherwise the kept strategies are stored and presented, numbered. */
  method GenerateStrategies(links: seq<string>, modelText: string) returns (u: Update)
    ensures var p := ParseAll(Split(modelText, '\n'), links);
            && (p.lines == [] ==> u == Say(FormattingTrouble))
            && (p.lines != [] ==> u == Update([Message(Ai, StrategiesIntro + Join(p.lines, "\n\n") + StrategiesOutro)],
                                              None, Some(p.strategies), None, None, None, None))
    ensures u.strategies.Some? ==> Labelled(ParseAll(Split(modelText, '\n'), links)) && u.strategies.value != []
  {
    var strategies, lines := ParseStrategies(modelText, links);
    ParseAllLabelled(Split(modelText, '\n'), links);
    if lines == [] {
      return Say(FormattingTrouble);
    }
    u := Update([Message(Ai, StrategiesIntro + Join(lines, "\n\n") + StrategiesOutro)], None, Some(strategies),
                None, None, None, None);
  }

  // ---------------------------------------------------------------- select_strategy

  /** The digits of a Python integer literal body: digits, with single underscores allowed
      between them. */
  predicate DigitGroup(b: string)
  {
    && b != [] && IsAsciiDigit(b[0]) && IsAsciiDigit(b[|b| - 1])
    && (forall i :: 0 <= i < |b| ==> IsAsciiDigit(b[i]) || b[i] == '_')
    && (forall i :: 0 <= i < |b| - 1 ==> !(b[i] == '_' && b[i + 1] == '_'))
  }

  /** The digits of a digit group with its underscores removed: its digits, in order. */
  function DropUnderscores(b: string): (r: string)
    requires forall i :: 0 <= i < |b| ==> IsAsciiDigit(b[i]) || b[i] == '_'
    ensures AllDigits(r)
    ensures r == KeepDigits(b)
  {
    if b == [] then [] else (if b[0] == '_' then [] else [b[0]]) + DropUnderscores(b[1..])
  }

  lemma DropUnderscoresOfDigits(b: string)
    requires AllDigits(b)
    ensures DropUnderscores(b) == b
  {
    KeepDigitsOfDigits(b);
  }

  /** `int(s)` on already stripped text: an optional sign and a digit group; `None` where
      Python raises `ValueError`. */
  function PyInt(s: string): (n: Option<int>)
    ensures AllDigits(s) && s != [] ==> n == Some(DigitsValue(s))
  {
    var negative := s != [] && s[0] == '-';
    var body := if s != [] && (s[0] == '+' || s[0] == '-') then s[1..] else s;
    if !DigitGroup(body) then None
    else
      var magnitude: int := DigitsValue(DropUnderscores(body));
      if AllDigits(s) && s != [] then DropUnderscoresOfDigits(s); Some(magnitude)
      else
        var v: int := if negative then -magnitude else magnitude;
        Some(v)
  }

  const NoStrategiesYet := "I don't have any strategies to select from yet. Let's generate some first!"
  const UnclearSelection := "I'm not sure which strategy you mean. You can simply reply with the number (e.g., '1') or the name of the strategy."
  const WhichStrategy := "Which strategy do you like best? You can tell me the number or just say the name! \U{1F3C6}"

  /** `not strategies` on `state.get("strategies", [])`. */
  predicate HasStrategies(s: AgentState)
  {
    s.strategies.Some? && s.strategies.value != []
  }

  /** `select_strategy`, given the index the model read from the user's reply. Only an
      integer between 1 and the number of strategies selects, and selects that strategy. */
  function SelectStrategy(s: AgentState, modelReply: string): (u: Update)
    ensures !HasStrategies(s) ==> u == Say(NoStrategiesYet)
    ensures HasStrategies(s) && !EndsWithHuman(s.messages) ==> u == Say(WhichStrategy)
    ensures u.selectedStrategy.Some? <==>
              && HasStrategies(s) && EndsWithHuman(s.messages) && PyInt(Strip(Py, modelReply)).Some?
              && 1 <= PyInt(Strip(Py, modelReply)).value <= |s.strategies.value|
    ensures u.selectedStrategy.Some? ==>
              u == Update([], None, None, Some(Some(s.strategies.value[PyInt(Strip(Py, modelReply)).value - 1])),
                          None, None, None)
    ensures HasStrategies(s) && EndsWithHuman(s.messages) && u.selectedStrategy.None? ==> u == Say(UnclearSelection)
  {
    if !HasStrategies(s) then Say(NoStrategiesYet)
    else if !EndsWithHuman(s.messages) then Say(WhichStrategy)
    else
      var num := PyInt(Strip(Py, modelReply));
      if num.Some? && 0 < num.value <= |s.strategies.value| then
        Update([], None, None, Some(Some(s.strategies.value[num.value - 1])), None, None, None)
      else Say(UnclearSelection)
  }

  /** The model answering with the number k, possibly padded with white space, selects the
      k-th strategy. */
  lemma {:induction false} SelectByNumber(s: AgentState, k: nat, pad: string)
    requires HasStrategies(s) && EndsWithHuman(s.messages) && 1 <= k <= |s.strategies.value|
    requires forall i :: 0 <= i < |pad| ==> IsSpace(Py, pad[i])
    ensures SelectStrategy(s, NatToString(k) + pad).selectedStrategy == Some(Some(s.strategies.value[k - 1]))
  {
    var digits := NatToString(k);
    assert IsAsciiDigit(digits[0]) && IsAsciiDigit(digits[|digits| - 1]);
    StripTrailing(digits, pad);
    assert PyInt(Strip(Py, digits + pad)) == Some(k);
  }

  // ---------------------------------------------------------------- guide_strategy

  const GuideOffer := "\n\nReady to execute this? Or would you like me to email this guide to you? \U{1F4E7}"

  /** `guide_strategy`, given the model's guide: the guide with the offer appended is shown
      and also kept as the strategy guide. */
  function GuideStrategy(modelGuide: string): (u: Update)
    ensures u.strategyGuide.Some? && u.messages == [Message(Ai, u.strategyGuide.value)]
    ensures u.guided == Some(true) && EndsWith(u.strategyGuide.value, GuideOffer)
  {
    var response := modelGuide + GuideOffer;
    assert response[|response| - |GuideOffer|..] == GuideOffer;
    Update([Message(Ai, response)], None, None, None, None, Some(true), Some(response))
  }

  // ---------------------------------------------------------------- check_satisfaction

  const Satisfied := "SATISFIED"
  const Dissatisfied := "DISSATISFIED"
  const SendingGuide := "Awesome! I'm sending this guide to your email right now! \U{1F4E7}"
  const Pivot := "No worries! Let's pivot. Please select another strategy from the list I provided earlier."
  const AskSatisfaction := "Does this strategy and guide work for you? Reply 'yes' if you're happy, or 'no' to try another."

  function SatisfiedUpdate(): Update
  {
    Update([Message(Ai, SendingGuide)], None, None, None, Some(true), None, None)
  }

  function PivotUpdate(): Update
  {
    Update([Message(Ai, Pivot)], None, None, Some(None), Some(false), Some(false), None)
  }

  /** `check_satisfaction` as written: the test for "SATISFIED" comes first, so the branch
      for "DISSATISFIED" is dead and every other reply is passed on stripped. */
  function CheckSatisfactionAsWritten(s: AgentState, modelReply: string): (u: Update)
    ensures !EndsWithHuman(s.messages) ==> u == Say(AskSatisfaction)
    ensures EndsWithHuman(s.messages) && Contains(ToUpperAscii(Strip(Py, modelReply)), Satisfied) ==> u == SatisfiedUpdate()
    ensures EndsWithHuman(s.messages) && !Contains(ToUpperAscii(Strip(Py, modelReply)), Satisfied) ==>
              u == Say(Strip(Py, modelReply))
  {
    if !EndsWithHuman(s.messages) then Say(AskSatisfaction)
    else
      var cleaned := Strip(Py, modelReply);
      var upper := ToUpperAscii(cleaned);
      if Contains(upper, Satisfied) then SatisfiedUpdate()
      else if Contains(upper, Dissatisfied) then
        DissatisfiedContainsSatisfied(upper);
        assert false;
        PivotUpdate()
      else Say(cleaned)
  }

  /** "SATISFIED" is the tail of "DISSATISFIED". */
  lemma DissatisfiedContainsSatisfied(t: string)
    requires Contains(t, Dissatisfied)
    ensures Contains(t, Satisfied)
  {
    var i :| 0 <= i <= |t| - |Dissatisfied| && OccursAt(t, i, Dissatisfied);
    assert t[i + 3..i + 12] == t[i..i + 12][3..];
    assert OccursAt(t, i + 3, Satisfied);
  }

  /** As written, the dissatisfied branch is never taken. */
  lemma {:induction false} AsWrittenNeverPivots(s: AgentState, modelReply: string)
    ensures CheckSatisfactionAsWritten(s, modelReply).satisfaction != Some(false)
  {
    if EndsWithHuman(s.messages) {
      var upper := ToUpperAscii(Strip(Py, modelReply));
      if Contains(upper, Dissatisfied) {
        DissatisfiedContainsSatisfied(upper);
      }
    }
  }

  lemma DissatisfiedStripped()
    ensures Strip(Py, Dissatisfied) == Dissatisfied
  {
    StripTrailing(Dissatisfied, "");
    assert Dissatisfied + "" == Dissatisfied;
  }

  lemma DissatisfiedUpper()
    ensures ToUpperAscii(Dissatisfied) == Dissatisfied
  {
    forall i | 0 <= i < |Dissatisfied|
      ensures !IsAsciiLower(Dissatisfied[i])
    {
    }
    UpperFixed(Dissatisfied);
  }

  /** As written, a reply of "DISSATISFIED" marks the user satisfied and sends the guide. */
  lemma AsWrittenSatisfiesDissatisfied(s: AgentState)
    requires EndsWithHuman(s.messages)
    ensures CheckSatisfactionAsWritten(s, Dissatisfied) == SatisfiedUpdate()
  {
    DissatisfiedReadsSatisfied();
  }

  /** The cleaned, upper-cased reply "DISSATISFIED" contains "SATISFIED". */
  lemma DissatisfiedReadsSatisfied()
    ensures Contains(ToUpperAscii(Strip(Py, Dissatisfied)), Satisfied)
  {
    DissatisfiedStripped();
    DissatisfiedUpper();
    assert Dissatisfied[..|Dissatisfied|] == Dissatisfied;
    assert OccursAt(Dissatisfied, 0, Dissatisfied);
    DissatisfiedContainsSatisfied(Dissatisfied);
  }

  /** `check_satisfaction` with the tests in the intended order: a reply naming
      "DISSATISFIED" pivots, one naming only "SATISFIED" sends the guide, any other reply is
      passed on. */
  function CheckSatisfaction(s: AgentState, modelReply: string): (u: Update)
    ensures !EndsWithHuman(s.messages) ==> u == Say(AskSatisfaction)
    ensures EndsWithHuman(s.messages) ==>
              var upper := ToUpperAscii(Strip(Py, modelReply));
              && (u.satisfaction == Some(false) <==> Contains(upper, Dissatisfied))
              && (u.satisfaction == Some(true) <==> Contains(upper, Satisfied) && !Contains(upper, Dissatisfied))
              && (u.satisfaction.None? ==> u == Say(Strip(Py, modelReply)))
    ensures u.satisfaction == Some(false) ==> u.selectedStrategy == Some(None) && u.guided == Some(false)
  {
    if !EndsWithHuman(s.messages) then Say(AskSatisfaction)
    else
      var cleaned := Strip(Py, modelReply);
      var upper := ToUpperAscii(cleaned);
      if Contains(upper, Dissatisfied) then PivotUpdate()
      else if Contains(upper, Satisfied) then SatisfiedUpdate()
      else Say(cleaned)
  }

  // ---------------------------------------------------------------- send_email_node

  /** The three escapes `markdown_to_html` starts with, ampersands first. */
  function EscapeHtml(s: string): (r: string)
    ensures '<' !in r && '>' !in r
  {
    var amp := ReplaceChar(s, '&', "&amp;");
    var lt := ReplaceChar(amp, '<', "&lt;");
    ReplaceChar(lt, '>', "&gt;")
  }

  /** Reading the three entities back. */
  function UnescapeHtml(s: string): string
  {
    if s == [] then []
    else if |s| >= 5 && s[..5] == "&amp;" then "&" + UnescapeHtml(s[5..])
    else if |s| >= 4 && s[..4] == "&lt;" then "<" + UnescapeHtml(s[4..])
    else if |s| >= 4 && s[..4] == "&gt;" then ">" + UnescapeHtml(s[4..])
    else [s[0]] + UnescapeHtml(s[1..])
  }

  function EscapeChar(c: char): string
  {
    if c == '&' then "&amp;" else if c == '<' then "&lt;" else if c == '>' then "&gt;" else [c]
  }

  lemma {:induction false} ReplaceCharAppend(a: string, b: string, c: char, rep: string)
    ensures ReplaceChar(a + b, c, rep) == ReplaceChar(a, c, rep) + ReplaceChar(b, c, rep)
  {
    if a != [] {
      assert (a + b)[1..] == a[1..] + b;
      ReplaceCharAppend(a[1..], b, c, rep);
    } else {
      assert a + b == b;
    }
  }

  lemma {:induction false} ReplaceCharAbsent(s: string, c: char, rep: string)
    requires c !in s
    ensures ReplaceChar(s, c, rep) == s
  {
    if s != [] {
      assert s[0] in s;
      assert forall x :: x in s[1..] ==> x in s;
      ReplaceCharAbsent(s[1..], c, rep);
    }
  }

  /** Escaping a concatenation escapes each part. */
  lemma EscapeAppend(a: string, b: string)
    ensures EscapeHtml(a + b) == EscapeHtml(a) + EscapeHtml(b)
  {
    ReplaceCharAppend(a, b, '&', "&amp;");
    var a1, b1 := ReplaceChar(a, '&', "&amp;"), ReplaceChar(b, '&', "&amp;");
    ReplaceCharAppend(a1, b1, '<', "&lt;");
    ReplaceCharAppend(ReplaceChar(a1, '<', "&lt;"), ReplaceChar(b1, '<', "&lt;"), '>', "&gt;");
  }

  lemma ReplaceOne(c: char, d: char, rep: string)
    ensures ReplaceChar([c], d, rep) == if c == d then rep else [c]
  {
    assert [c][1..] == [];
  }

  /** Since ampersands are escaped first, the ampersands of the later entities are not
      escaped again. */
  lemma EscapeSingle(c: char)
    ensures EscapeHtml([c]) == EscapeChar(c)
  {
    ReplaceOne(c, '&', "&amp;");
    if c == '&' {
      ReplaceCharAbsent("&amp;", '<', "&lt;");
      ReplaceCharAbsent("&amp;", '>', "&gt;");
    } else {
      ReplaceOne(c, '<', "&lt;");
      if c == '<' {
        ReplaceCharAbsent("&lt;", '>', "&gt;");
      } else {
        ReplaceOne(c, '>', "&gt;");
      }
    }
  }

  /** Escaping works character by character. */
  lemma EscapeCons(s: string)
    requires s != []
    ensures EscapeHtml(s) == EscapeChar(s[0]) + EscapeHtml(s[1..])
  {
    assert s == [s[0]] + s[1..];
    EscapeAppend([s[0]], s[1..]);
    EscapeSingle(s[0]);
  }

  lemma UnescapeAmp(rest: string)
    ensures UnescapeHtml("&amp;" + rest) == "&" + UnescapeHtml(rest)
  {
    var t := "&amp;" + rest;
    assert t[..5] == "&amp;" && t[5..] == rest;
  }

  lemma UnescapeLt(rest: string)
    ensures UnescapeHtml("&lt;" + rest) == "<" + UnescapeHtml(rest)
  {
    var t := "&lt;" + rest;
    assert t[1] == 'l' && t[..4] == "&lt;" && t[4..] == rest;
  }

  lemma UnescapeGt(rest: string)
    ensures UnescapeHtml("&gt;" + rest) == ">" + UnescapeHtml(rest)
  {
    var t := "&gt;" + rest;
    assert t[1] == 'g' && t[2] == 't' && t[..4] == "&gt;" && t[4..] == rest;
  }

  lemma UnescapePlain(c: char, rest: string)
    requires c != '&'
    ensures UnescapeHtml([c] + rest) == [c] + UnescapeHtml(rest)
  {
    var t := [c] + rest;
    assert t[0] == c && t[1..] == rest;
  }

  /** One escaped character is read back as that character. */
  lemma UnescapeChar(c: char, rest: string)
    ensures UnescapeHtml(EscapeChar(c) + rest) == [c] + UnescapeHtml(rest)
  {
    if c == '&' {
      UnescapeAmp(rest);
    } else if c == '<' {
      UnescapeLt(rest);
    } else if c == '>' {
      UnescapeGt(rest);
    } else {
      UnescapePlain(c, rest);
    }
  }

  /** What the escapes write can be read back: nothing of the guide is lost. */
  lemma {:induction false} UnescapeEscape(s: string)
    ensures UnescapeHtml(EscapeHtml(s)) == s
  {
    if s != [] {
      EscapeCons(s);
      UnescapeEscape(s[1..]);
      UnescapeChar(s[0], EscapeHtml(s[1..]));
      assert s == [s[0]] + s[1..];
    }
  }

  /** `markdown_to_html`: the escapes, then the regular-expression rewrites of headers,
      emphasis, lists and links (`rewrite`), then every line break as `<br>`. The result
      holds no line break. */
  method MarkdownToHtml(text: string, rewrite: string -> string) returns (html: string)
    ensures html == ReplaceChar(rewrite(EscapeHtml(text)), '\n', "<br>")
    ensures '\n' !in html
  {
    var t := ReplaceChar(text, '&', "&amp;");
    t := ReplaceChar(t, '<', "&lt;");
    t := ReplaceChar(t, '>', "&gt;");
    t := rewrite(t);
    t := ReplaceChar(t, '\n', "<br>");
    html := t;
  }

  const GuidePhrase := "Great choice!"
  const DefaultGuide := "Here is your marketing strategy guide."
  const NoAddress := "I wanted to email you the guide, but I don't have your email address handy. You can copy the guide above!"

  /** The newest AI message that contains "Great choice!". */
  function NewestGuide(ms: seq<Message>): (g: Option<string>)
    ensures g.Some? ==> exists i :: 0 <= i < |ms| && ms[i].kind == Ai && ms[i].content == g.value
                                    && Contains(g.value, GuidePhrase)
                                    && forall j :: i < j < |ms| ==> !(ms[j].kind == Ai && Contains(ms[j].content, GuidePhrase))
    ensures g.None? <==> forall i :: 0 <= i < |ms| ==> !(ms[i].kind == Ai && Contains(ms[i].content, GuidePhrase))
  {
    if ms == [] then None
    else
      var last := ms[|ms| - 1];
      if last.kind == Ai && Contains(last.content, GuidePhrase) then Some(last.content)
      else
        var g := NewestGuide(ms[..|ms| - 1]);
        assert forall i :: 0 <= i < |ms| - 1 ==> ms[..|ms| - 1][i] == ms[i];
        g
  }

  /** The newest guide among the first `i` messages: the `i`-th when it is one, and
      otherwise the newest among the ones before it. */
  lemma NewestGuideStep(ms: seq<Message>, i: nat)
    requires 0 < i <= |ms|
    ensures NewestGuide(ms[..i]) == if ms[i - 1].kind == Ai && Contains(ms[i - 1].content, GuidePhrase)
                                    then Some(ms[i - 1].content) else NewestGuide(ms[..i - 1])
  {
    assert ms[..i][..i - 1] == ms[..i - 1];
    assert ms[..i][i - 1] == ms[i - 1];
  }

  /** The loop over `reversed(state["messages"])` that stops at the first guide. */
  method FindGuide(ms: seq<Message>) returns (g: Option<string>)
    ensures g == NewestGuide(ms)
  {
    var i := |ms|;
    assert ms[..i] == ms;
    while i > 0
      invariant 0 <= i <= |ms|
      invariant NewestGuide(ms) == NewestGuide(ms[..i])
    {
      var m := ms[i - 1];
      NewestGuideStep(ms, i);
      if m.kind == Ai && Contains(m.content, GuidePhrase) {
        return Some(m.content);
      }
      i := i - 1;
    }
    g := None;
  }

  /** The guide that is mailed: the stored one, else the newest guide message, else a
      default text. */
  function ChosenGuide(s: AgentState): (g: string)
    ensures Truthy(s.strategyGuide) ==> g == s.strategyGuide.value
    ensures g != ""
  {
    if Truthy(s.strategyGuide) then s.strategyGuide.value
    else match NewestGuide(s.messages)
      case Some(text) => assert OccursAt(text, 0, GuidePhrase) || text != ""; text
      case None => DefaultGuide
  }

  /** Without a stored guide, the guide the backward search finds (or else the default) is
      the chosen one. */
  lemma FoundGuideChosen(s: AgentState, found: Option<string>)
    requires !Truthy(s.strategyGuide) && found == NewestGuide(s.messages)
    ensures (if Truthy(found) then found.value else DefaultGuide) == ChosenGuide(s)
  {
    if found.Some? {
      assert found.value != "";
    }
  }

  /** Python's `str()` of an optional string, as the subject line writes it. */
  function PyStr(v: Option<string>): string
  {
    if v.Some? then v.value else "None"
  }

  datatype GuideMail = GuideMail(recipient: string, subject: string, formattedBody: string)

  function SentConfirmation(email: string, guide: string): string
  {
    "Sent! \U{1F680}\n\n**Here is the draft I sent to " + email + ":**\n\n---\n" + guide + "\n---\n\nCheck your inbox!"
  }

  /** `send_email_node`. Without an address nothing is mailed; with one the chosen guide is
      mailed as HTML and echoed back in the confirmation. */
  method SendEmailNode(s: AgentState, rewrite: string -> string) returns (u: Update, mail: Option<GuideMail>)
    ensures !Truthy(s.userEmail) ==> mail.None? && u == Say(NoAddress)
    ensures Truthy(s.userEmail) ==>
              && mail.Some? && mail.value.recipient == s.userEmail.value
              && mail.value.subject == "Your Marketing Strategy: " + PyStr(s.selectedStrategy)
              && mail.value.formattedBody == ReplaceChar(rewrite(EscapeHtml(ChosenGuide(s))), '\n', "<br>")
              && u == Say(SentConfirmation(s.userEmail.value, ChosenGuide(s)))
  {
    if !Truthy(s.userEmail) {
      return Say(NoAddress), None;
    }
    var email := s.userEmail.value;
    var guide := s.strategyGuide;
    if !Truthy(guide) {
      guide := FindGuide(s.messages);
    }
    var text := if Truthy(guide) then guide.value else DefaultGuide;
    if !Truthy(s.strategyGuide) {
      FoundGuideChosen(s, guide);
    }
    assert text == ChosenGuide(s);
    var body := MarkdownToHtml(text, rewrite);
    mail := Some(GuideMail(email, "Your Marketing Strategy: " + PyStr(s.selectedStrategy), body));
    u := Say(SentConfirmation(email, text));
  }

  /** The guide mailed after `guide_strategy` is the guide the user was shown. */
  lemma GuideShownIsMailed(s: AgentState, modelGuide: string)
    ensures var after := Apply(s, GuideStrategy(modelGuide));
            ChosenGuide(after) == modelGuide + GuideOffer
            && after.messages[|after.messages| - 1] == Message(Ai, ChosenGuide(after))
  {
  }
}
