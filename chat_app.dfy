/**
 * How the components fit together: the composer feeding the transcript,
 * the transcript's tags deciding which bubbles carry a chart, the chart's
 * request reaching the price provider, and the mock backend's choice of
 * canned reply against the front end's detection.
 */
module ChatApp {
  import opened Wrappers
  import opened Text
  import Detector
  import opened ChatInterface
  import ChatMessages
  import ChatInput
  import CryptoData
  import CryptoChart
  import Bedrock

  /**
   * One accepted exchange renders the user bubble without a chart and the
   * reply bubble with the question's detected asset exactly when the backend
   * answered and something was detected.
   */
  lemma ExchangeCharts(content: string, reply: ChatReply, sentAt: int, repliedAt: int, now: int)
    ensures ChatMessages.RenderMessages(Exchange(content, reply, sentAt, repliedAt), now)[0].chart == None
    ensures ChatMessages.RenderMessages(Exchange(content, reply, sentAt, repliedAt), now)[1].chart.Some?
      <==> reply.Replied? && Detector.Detect(content).Some?
    ensures ChatMessages.RenderMessages(Exchange(content, reply, sentAt, repliedAt), now)[1].chart.Some? ==>
      ChatMessages.RenderMessages(Exchange(content, reply, sentAt, repliedAt), now)[1].chart == Detector.Detect(content)
  {
    var ex := Exchange(content, reply, sentAt, repliedAt);
    if Detector.Detect(content).Some? {
      Detector.RegistryNamesDistinct();
      assert Detector.Detect(content).value != "";
    }
  }

  /** Rendering after an exchange: the earlier bubbles are unchanged and the two new ones follow. */
  lemma RenderAfterExchange(ms: seq<Message>, content: string, reply: ChatReply, sentAt: int, repliedAt: int, now: int)
    ensures ChatMessages.RenderMessages(ms + Exchange(content, reply, sentAt, repliedAt), now)
      == ChatMessages.RenderMessages(ms, now) + ChatMessages.RenderMessages(Exchange(content, reply, sentAt, repliedAt), now)
    ensures |ChatMessages.RenderMessages(ms + Exchange(content, reply, sentAt, repliedAt), now)| == |ms| + 2
  {
    ChatMessages.RenderAppend(ms, Exchange(content, reply, sentAt, repliedAt), now);
  }

  /**
   * The send button or the shortcut, wired to `handleSendMessage`: whatever
   * the composer lets through is not blank, so the transcript grows by one
   * exchange; while a reply is awaited nothing is sent.
   */
  method SubmitDraft(composer: ChatInput.Composer, session: ChatSession,
                     backend: seq<Message> -> ChatReply, sentAt: int, repliedAt: int)
    modifies composer, session
    ensures ChatInput.SendDisabled(old(composer.draft), old(session.isLoading)) ==>
      composer.draft == old(composer.draft) && session.messages == old(session.messages)
    ensures ChatInput.SendDisabled(old(composer.draft), old(session.isLoading)) ==>
      session.isLoading == old(session.isLoading) && session.currentCrypto == old(session.currentCrypto)
    ensures ChatInput.SendDisabled(old(composer.draft), old(session.isLoading)) ==>
      session.storage == old(session.storage) && session.announced == old(session.announced)
    ensures !ChatInput.SendDisabled(old(composer.draft), old(session.isLoading)) ==>
      composer.draft == "" && !session.isLoading &&
      session.messages == old(session.messages) + Exchange(old(composer.draft),
        backend(old(session.messages) + [UserTurn(old(composer.draft), sentAt)]), sentAt, repliedAt)
    ensures old(session.isLoading) ==> session.messages == old(session.messages)
  {
    var sent := composer.HandleSubmit(session.isLoading);
    if sent.Some? {
      session.HandleSendMessage(sent.value, backend, sentAt, repliedAt);
    }
  }

  /**
   * What the user can do to the composer while a reply is awaited: typing is
   * ignored, and neither the send button, the shortcut nor a suggestion lets
   * anything out.
   */
  method TypeAndSubmitWhileLoading(composer: ChatInput.Composer, typed: string, pick: nat)
    returns (viaButton: Option<string>, viaShortcut: Option<string>, viaSuggestion: Option<string>)
    requires pick < |ChatInput.Suggestions|
    modifies composer
    ensures viaButton.None? && viaShortcut.None? && viaSuggestion.None?
    ensures composer.draft == old(composer.draft)
  {
    composer.Edit(typed, true);
    viaButton := composer.HandleSubmit(true);
    viaShortcut := composer.HandleKeyDown(true, false, "Enter", true);
    viaSuggestion := composer.HandleSuggestionClick(pick, true);
  }

  /**
   * A second submit while the first reply is awaited: the first send starts
   * loading, typing is ignored and the second submit (button, shortcut or
   * suggestion) is refused, and the settled reply leaves exactly one exchange.
   */
  method DoubleSubmit(composer: ChatInput.Composer, session: ChatSession, typed: string, pick: nat,
                      reply: ChatReply, sentAt: int, repliedAt: int)
    modifies composer, session
    requires !session.isLoading && !IsBlank(composer.draft) && pick < |ChatInput.Suggestions|
    ensures session.messages == old(session.messages) + Exchange(old(composer.draft), reply, sentAt, repliedAt)
    ensures !session.isLoading && composer.draft == ""
  {
    ghost var before := session.messages;
    var content := SubmitFirst(composer, session, sentAt);
    var again, viaShortcut, viaSuggestion := TypeAndSubmitWhileLoading(composer, typed, pick);
    session.FinishSend(Detector.Detect(content), reply, repliedAt);
    ExchangeInTwoSteps(before, content, reply, sentAt, repliedAt);
  }

  /** The question appended first and the reply later make up one exchange. */
  lemma ExchangeInTwoSteps(ms: seq<Message>, content: string, reply: ChatReply, sentAt: int, repliedAt: int)
    ensures ms + [UserTurn(content, sentAt)] + [ReplyTurn(reply, Detector.Detect(content), repliedAt)]
         == ms + Exchange(content, reply, sentAt, repliedAt)
  {
  }

  /** The first submit of a non-blank draft with nothing in flight: the draft goes out, the question is appended and loading starts. */
  method SubmitFirst(composer: ChatInput.Composer, session: ChatSession, sentAt: int) returns (content: string)
    modifies composer, session
    requires !session.isLoading && !IsBlank(composer.draft)
    ensures content == old(composer.draft) && composer.draft == ""
    ensures session.messages == old(session.messages) + [UserTurn(content, sentAt)] && session.isLoading
  {
    content := composer.draft;
    var first := composer.HandleSubmit(false);
    assert first == Some(content);
    var request := session.BeginSend(content, sentAt);
  }

  /**
   * A suggestion button wired to `handleSendMessage`: shown only for an empty
   * draft with nothing in flight, and then it appends one exchange for that
   * suggestion; otherwise nothing changes.
   */
  method ClickSuggestion(composer: ChatInput.Composer, session: ChatSession, pick: nat,
                         backend: seq<Message> -> ChatReply, sentAt: int, repliedAt: int)
    requires pick < |ChatInput.Suggestions|
    modifies session
    ensures !ChatInput.SuggestionsVisible(composer.draft, old(session.isLoading)) ==>
      session.messages == old(session.messages) && session.isLoading == old(session.isLoading)
    ensures !ChatInput.SuggestionsVisible(composer.draft, old(session.isLoading)) ==>
      session.currentCrypto == old(session.currentCrypto) && session.storage == old(session.storage)
      && session.announced == old(session.announced)
    ensures ChatInput.SuggestionsVisible(composer.draft, old(session.isLoading)) ==>
      !session.isLoading &&
      session.messages == old(session.messages) + Exchange(ChatInput.Suggestions[pick],
        backend(old(session.messages) + [UserTurn(ChatInput.Suggestions[pick], sentAt)]), sentAt, repliedAt)
  {
    var sent := composer.HandleSuggestionClick(pick, session.isLoading);
    if sent.Some? {
      session.HandleSendMessage(sent.value, backend, sentAt, repliedAt);
    }
  }

  /** Every asset the detector can name is a market-data id as it stands. */
  lemma DetectedAssetsHaveIds(text: string)
    ensures Detector.Detect(text).Some? ==>
      Detector.Detect(text).value in CryptoData.SymbolMap &&
      CryptoData.CoinId(Detector.Detect(text).value) == Detector.Detect(text).value
  {
    if Detector.Detect(text).Some? {
      var j :| 0 <= j < |Detector.Registry| && Detector.Detect(text).value == Detector.Registry[j].name;
      RegistryNamesAreIds(j);
    }
  }

  /** Registry row j's name is a key of the market-data table that maps to itself. */
  lemma RegistryNamesAreIds(j: nat)
    requires j < |Detector.Registry|
    ensures Detector.Registry[j].name in CryptoData.SymbolMap
    ensures CryptoData.CoinId(Detector.Registry[j].name) == Detector.Registry[j].name
  {
    var name := Detector.Registry[j].name;
    forall i | 0 <= i < |name|
      ensures !('A' <= name[i] <= 'Z')
    {
    }
    LowerKeepsLowerCase(name);
  }

  /**
   * In a well-tagged transcript every bubble that draws a chart carries the
   * detection of the question before it, so the price request it starts uses
   * a market-data id as it stands.
   */
  lemma TranscriptChartsHaveIds(ms: seq<Message>)
    requires WellTagged(ms)
    ensures forall i :: 0 <= i < |ms| && ChatMessages.ShowsChart(ms[i]) ==>
      ms[i].cryptoSymbol.value in CryptoData.SymbolMap &&
      CryptoData.CoinId(ms[i].cryptoSymbol.value) == ms[i].cryptoSymbol.value
  {
    forall i | 0 <= i < |ms| && ChatMessages.ShowsChart(ms[i])
      ensures ms[i].cryptoSymbol.value in CryptoData.SymbolMap
      ensures CryptoData.CoinId(ms[i].cryptoSymbol.value) == ms[i].cryptoSymbol.value
    {
      assert ms[i - 1].role == User && ms[i - 1].cryptoSymbol == ms[i].cryptoSymbol;
      DetectedAssetsHaveIds(ms[i - 1].content);
    }
  }

  /**
   * The chart under bubble i mounts asking for the bubble's tag over the
   * default month; in a well-tagged transcript the provider then queries
   * that very tag as its id, for thirty days.
   */
  method ChartForReply(ms: seq<Message>, i: nat) returns (panel: CryptoChart.ChartPanel)
    requires i < |ms| && ChatMessages.ShowsChart(ms[i])
    ensures fresh(panel)
    ensures panel.requests == [(ms[i].cryptoSymbol.value, CryptoChart.DefaultTimeframe)]
    ensures WellTagged(ms) ==>
      (CryptoData.CoinId(panel.requests[0].0), CryptoData.Days(panel.requests[0].1)) == (ms[i].cryptoSymbol.value, 30)
  {
    panel := new CryptoChart.ChartPanel(ms[i].cryptoSymbol);
    if WellTagged(ms) {
      TranscriptChartsHaveIds(ms);
    }
  }

  /** The canned names of the mock are the registry's names, in the registry's order. */
  lemma MockNamesAreRegistryNames()
    ensures |Bedrock.CannedNames| == |Detector.Registry|
    ensures forall i :: 0 <= i < |Detector.Registry| ==>
      Bedrock.CannedNames[i] == Detector.Registry[i].name == Detector.Registry[i].keywords[0]
  {
  }

  /**
   * When the mock answers with the canned reply of name `k`, the front end
   * has tagged the question with that asset or one declared before it.
   */
  lemma MockAnswerImpliesDetection(prompt: string, choice: nat, k: nat)
    requires choice < Bedrock.GeneralCount
    requires Bedrock.MockChoice(prompt, choice) == Bedrock.Canned(k)
    ensures exists j :: 0 <= j <= k && Detector.Detect(prompt) == Some(Detector.Registry[j].name)
  {
    var lower := Lower(prompt);
    var found := Bedrock.MockMatchFrom(lower, 0);
    assert found == Some(k);
    // The canned name is row k's first keyword, so row k is mentioned and detection is not null.
    MockNamesAreRegistryNames();
    ContainsIff(lower, Detector.Registry[k].name);
    var at: nat :| OccursAt(lower, Detector.Registry[k].name, at);
    assert Detector.Registry[k].keywords[0] in Detector.Registry[k].keywords;
    assert Detector.Mentions(lower, Detector.Registry[k]);
    Detector.DetectNoneIff(prompt);
    // The detected row j is the first mentioned one, so it cannot come after row k.
    var name := Detector.Detect(prompt).value;
    var j :| 0 <= j < |Detector.Registry| && Detector.Registry[j].name == name;
    Detector.DetectIsFirstMatch(prompt, j);
  }

  /** The two halves disagree on tickers: "btc price" is tagged bitcoin, yet the mock answers generally. */
  lemma TickerTaggedButAnsweredGenerally(choice: nat)
    requires choice < Bedrock.GeneralCount
    ensures Detector.Detect("btc price") == Some("bitcoin")
    ensures Bedrock.MockChoice("btc price", choice) == Bedrock.General(choice)
  {
    assert Lower("btc price") == "btc price";
    assert OccursAt("btc price", "btc", 0);
    ContainsIff("btc price", "btc");
    Bedrock.TickerGetsGeneralReply(choice);
  }
}
