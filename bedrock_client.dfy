/**
 * The language-model backend client (bedrock_client.py): credential and
 * client selection at construction, the agent-then-model-then-mock choice
 * when generating a reply, assembly of the agent's streamed chunks, and the
 * keyword-matched mock replies. The remote services and the random choice
 * among general replies are parameters.
 */
module Bedrock {
  import opened Wrappers
  import opened Text

  const AgentId: string := "BSY3YKE00M"
  const AgentAliasId: string := "SNAFJHANNX"
  const ModelId: string := "anthropic.claude-v2"
  const NoAgentText: string := "No response from agent."
  const NoModelText: string := "No response from model."

  /** The full asset names the mock recognises, in the dictionary's insertion order. */
  const CannedNames: seq<string> := ["bitcoin", "ethereum", "cardano", "solana", "dogecoin"]
  /** How many general replies `random.choice` picks among. */
  const GeneralCount: nat := 5

  /** The canned reply for the name at position `asset` of `CannedNames`. */
  function CannedReply(asset: nat): string
    requires asset < |CannedNames|
  {
    if asset == 0 then
      "Bitcoin is a decentralized digital currency created in 2009. It uses blockchain technology to secure transactions and control the creation of new units. Bitcoin has become the most valuable and widely-adopted cryptocurrency, often referred to as digital gold."
    else if asset == 1 then
      "Ethereum is a decentralized blockchain platform that enables smart contracts and decentralized applications (dApps). Unlike Bitcoin, Ethereum was designed to be programmable, allowing developers to build and deploy various applications on its network."
    else if asset == 2 then
      "Cardano is a proof-of-stake blockchain platform that aims to enable smart contracts, decentralized applications, and multi-asset transactions. It was founded by Charles Hoskinson, a co-founder of Ethereum, and emphasizes a research-driven approach to design."
    else if asset == 3 then
      "Solana is a high-performance blockchain that focuses on fast transactions and high throughput. It uses a proof-of-history consensus combined with proof-of-stake, allowing it to process thousands of transactions per second with minimal fees."
    else
      "Dogecoin started as a meme cryptocurrency in 2013, based on the popular 'Doge' Shiba Inu meme. Despite its humorous origins, it gained significant popularity and value, partly due to endorsements from figures like Elon Musk."
  }

  /** The general reply at position `index` of the list. */
  function GeneralReply(index: nat): string
    requires index < GeneralCount
  {
    if index == 0 then
      "Cryptocurrencies are digital or virtual currencies that use cryptography for security and operate on decentralized networks called blockchains."
    else if index == 1 then
      "Blockchain technology is a distributed ledger that records all transactions across a network of computers, making it secure, transparent, and resistant to modification."
    else if index == 2 then
      "Crypto trading involves buying and selling digital currencies on exchanges, with prices determined by market supply and demand."
    else if index == 3 then
      "NFTs (Non-Fungible Tokens) are unique digital assets that represent ownership of specific items like art, collectibles, or music on a blockchain."
    else
      "DeFi (Decentralized Finance) refers to financial applications built on blockchain technology that aim to recreate traditional financial systems without centralized intermediaries."
  }

  /** Which reply the mock gives: a canned one by name position, or a general one by list position. */
  datatype MockReply = Canned(asset: nat) | General(index: nat)

  /** The position of the first name, from `i` on, that occurs in the lower-cased prompt. */
  function MockMatchFrom(lower: string, i: nat): (r: Option<nat>)
    requires i <= |CannedNames|
    ensures r.Some? ==> i <= r.value < |CannedNames| && Contains(lower, CannedNames[r.value])
    decreases |CannedNames| - i
  {
    if i == |CannedNames| then None
    else if Contains(lower, CannedNames[i]) then Some(i)
    else MockMatchFrom(lower, i + 1)
  }

  /** The scan finds the first occurring name, and finds nothing exactly when no name occurs. */
  lemma {:induction false} MockMatchFromIsFirst(lower: string, i: nat)
    requires i <= |CannedNames|
    ensures MockMatchFrom(lower, i).Some? ==>
      forall j :: i <= j < MockMatchFrom(lower, i).value ==> !Contains(lower, CannedNames[j])
    ensures MockMatchFrom(lower, i).None? <==>
      forall j :: i <= j < |CannedNames| ==> !Contains(lower, CannedNames[j])
    decreases |CannedNames| - i
  {
    if i < |CannedNames| && !Contains(lower, CannedNames[i]) {
      MockMatchFromIsFirst(lower, i + 1);
    }
  }

  /**
   * The selection of `generate_mock_response(prompt)`, with `choice` the
   * index `random.choice` picks: the first full name in the lower-cased
   * prompt, or the chosen general reply.
   */
  function MockChoice(prompt: string, choice: nat): (r: MockReply)
    requires choice < GeneralCount
    ensures r.Canned? ==> r.asset < |CannedNames|
    ensures r.General? ==> r.index == choice
  {
    match MockMatchFrom(Lower(prompt), 0)
    case Some(k) => Canned(k)
    case None => General(choice)
  }

  /** `generate_mock_response(prompt)`: the text of the selected reply. */
  function MockResponse(prompt: string, choice: nat): string
    requires choice < GeneralCount
  {
    match MockChoice(prompt, choice)
    case Canned(k) => CannedReply(k)
    case General(k) => GeneralReply(k)
  }

  /**
   * The mock gives the canned reply of name `i` exactly when name `i` is the
   * first that occurs in the lower-cased prompt, and the chosen general
   * reply exactly when no name occurs.
   */
  lemma MockChoiceIsFirstName(prompt: string, choice: nat)
    requires choice < GeneralCount
    ensures forall i :: 0 <= i < |CannedNames| ==>
      (MockChoice(prompt, choice) == Canned(i) <==>
        Contains(Lower(prompt), CannedNames[i]) &&
        forall j :: 0 <= j < i ==> !Contains(Lower(prompt), CannedNames[j]))
    ensures MockChoice(prompt, choice) == General(choice) <==>
      forall j :: 0 <= j < |CannedNames| ==> !Contains(Lower(prompt), CannedNames[j])
  {
    MockMatchFromIsFirst(Lower(prompt), 0);
  }

  /** The mock ignores case. */
  lemma MockIgnoresCase(prompt: string, choice: nat)
    requires choice < GeneralCount
    ensures MockChoice(prompt, choice) == MockChoice(Lower(prompt), choice)
    ensures MockResponse(prompt, choice) == MockResponse(Lower(prompt), choice)
  {
    LowerIdempotent(prompt);
  }

  /** Tickers are not names here: "btc price" gets a general reply. */
  lemma TickerGetsGeneralReply(choice: nat)
    requires choice < GeneralCount
    ensures MockChoice("btc price", choice) == General(choice)
  {
    var lower := "btc price";
    assert Lower("btc price") == lower;
    NoNameFindsNothing(lower);
  }

  /** Every name holds one of these characters, so a text lacking all of them matches no name. */
  lemma NoNameFindsNothing(lower: string)
    requires 'o' !in lower && 'h' !in lower && 'a' !in lower && 's' !in lower && 'd' !in lower
    ensures MockMatchFrom(lower, 0) == None
  {
    AbsentCharBlocks(lower, "bitcoin", 'o');
    AbsentCharBlocks(lower, "ethereum", 'h');
    AbsentCharBlocks(lower, "cardano", 'a');
    AbsentCharBlocks(lower, "solana", 's');
    AbsentCharBlocks(lower, "dogecoin", 'd');
  }

  /**
   * The bytes of one streamed chunk, as the parsing code classifies them. A
   * chunk event without `bytes` is none of these: the error handler's own
   * print of the missing bytes raises again, the exception leaves the loop,
   * and the whole reply becomes the mock; the model expresses that only as
   * the agent call failing (`AgentFailed`).
   */
  datatype Payload =
    | JsonContent(content: string)   // a JSON object whose `content` string is appended
    | JsonOther                      // JSON without a usable `content`: the chunk is skipped
    | PlainText(text: string)        // not JSON, valid UTF-8: appended as is
    | Unreadable                     // not JSON and not UTF-8: the chunk is skipped

  /** One event of the agent's completion stream. */
  datatype CompletionEvent = Chunk(payload: Payload) | OtherEvent

  /** What one event adds to the reply text. */
  function Contribution(e: CompletionEvent): string {
    match e
    case Chunk(JsonContent(c)) => c
    case Chunk(PlainText(t)) => t
    case _ => ""
  }

  /** The concatenated contributions, in stream order. */
  function AssembledText(events: seq<CompletionEvent>): string {
    if events == [] then ""
    else AssembledText(events[..|events| - 1]) + Contribution(events[|events| - 1])
  }

  /** Assembly distributes over concatenation of streams. */
  lemma {:induction false} AssembledAppend(a: seq<CompletionEvent>, b: seq<CompletionEvent>)
    ensures AssembledText(a + b) == AssembledText(a) + AssembledText(b)
    decreases |b|
  {
    if b == [] {
      assert a + b == a;
    } else {
      assert (a + b)[..|a + b| - 1] == a + b[..|b| - 1];
      AssembledAppend(a, b[..|b| - 1]);
    }
  }

  /** The assembled text is empty exactly when no event contributes anything. */
  lemma {:induction false} AssembledEmptyIff(events: seq<CompletionEvent>)
    ensures AssembledText(events) == "" <==> forall i :: 0 <= i < |events| ==> Contribution(events[i]) == ""
  {
    if events != [] {
      var init := events[..|events| - 1];
      AssembledEmptyIff(init);
      assert forall i :: 0 <= i < |init| ==> init[i] == events[i];
    }
  }

  /** The chunk loop of the agent path. */
  method AssembleAgentText(events: seq<CompletionEvent>) returns (text: string)
    ensures text == AssembledText(events)
  {
    text := "";
    var i := 0;
    while i < |events|
      invariant 0 <= i <= |events|
      invariant text == AssembledText(events[..i])
    {
      match events[i] {
        case Chunk(payload) =>
          match payload {
            case JsonContent(c) => text := text + c;
            case PlainText(t) => text := text + t;
            case _ =>
          }
        case OtherEvent =>
      }
      assert events[..i + 1][..i] == events[..i];
      i := i + 1;
    }
    assert events[..i] == events;
  }

  /** The agent invocation: its completion stream, or an exception from the call or the stream. */
  datatype AgentReply = AgentCompletion(events: seq<CompletionEvent>) | AgentFailed
  /** The `completion` field of the decoded model body: absent, a string, or any other JSON value (null included). */
  datatype Completion = NoCompletion | StringCompletion(value: string) | NonStringCompletion
  /** The model invocation: the decoded body's `completion` field, or an exception. */
  datatype ModelReply = ModelBody(completion: Completion) | ModelFailed
  /**
   * What `generate_response` returns: a string, or a `completion` that is
   * not a string (None for a JSON null), handed back unchanged.
   */
  datatype Response = TextResponse(text: string) | NonStringResponse

  /** The request sent to the agent runtime (the random session id is not modelled). */
  datatype AgentRequest = AgentRequest(agentId: string, aliasId: string, inputText: string)
  /** The request sent to the model runtime. */
  datatype ModelRequest = ModelRequest(modelId: string, prompt: string, maxTokens: int, temperature: real)

  function AgentRequestFor(prompt: string): AgentRequest {
    AgentRequest(AgentId, AgentAliasId, prompt)
  }

  /** The turn markers around the prompt of the model request. */
  const HumanMarker: string := "\n\nHuman: "
  const AssistantMarker: string := "\n\nAssistant:"

  /** The model request: the prompt wrapped in the Human/Assistant turn markers. */
  function ModelRequestFor(prompt: string, maxTokens: int, temperature: real): (req: ModelRequest)
    ensures |req.prompt| == |HumanMarker| + |prompt| + |AssistantMarker|
    ensures req.prompt[|HumanMarker|..|HumanMarker| + |prompt|] == prompt
    ensures req.maxTokens == maxTokens && req.temperature == temperature
  {
    ModelRequest(ModelId, HumanMarker + prompt + AssistantMarker, maxTokens, temperature)
  }

  /** Reads the prompt back out of a wrapped model prompt, when both markers are in place. */
  function UnwrapPrompt(wrapped: string): (r: Option<string>)
    ensures r.Some? ==> |r.value| + |HumanMarker| + |AssistantMarker| == |wrapped|
  {
    var h, a := |HumanMarker|, |AssistantMarker|;
    if |wrapped| >= h + a && wrapped[..h] == HumanMarker && wrapped[|wrapped| - a..] == AssistantMarker
    then Some(wrapped[h..|wrapped| - a])
    else None
  }

  /** The wrapping loses nothing: the prompt is recovered from the model request. */
  lemma UnwrapModelPrompt(prompt: string, maxTokens: int, temperature: real)
    ensures UnwrapPrompt(ModelRequestFor(prompt, maxTokens, temperature).prompt) == Some(prompt)
  {
    var w := HumanMarker + prompt + AssistantMarker;
    var h, a := |HumanMarker|, |AssistantMarker|;
    assert w[..h] == HumanMarker;
    assert w[|w| - a..] == AssistantMarker;
    assert w[h..|w| - a] == prompt;
  }

  /** Different prompts give different model requests. */
  lemma ModelRequestInjective(p: string, q: string, maxTokens: int, temperature: real)
    ensures ModelRequestFor(p, maxTokens, temperature) == ModelRequestFor(q, maxTokens, temperature) ==> p == q
  {
    UnwrapModelPrompt(p, maxTokens, temperature);
    UnwrapModelPrompt(q, maxTokens, temperature);
  }

  class BedrockClient {
    /** Both keys present and non-empty, and the session and a client created. */
    const hasCredentials: bool
    /** Whether the agent runtime client exists. */
    const hasAgentRuntime: bool
    /** Whether the fallback model runtime client exists. */
    const hasModelRuntime: bool

    /** Credentials present means exactly one client exists; absent means none. */
    predicate Valid()
    {
      (hasAgentRuntime || hasModelRuntime) == hasCredentials && !(hasAgentRuntime && hasModelRuntime)
    }

    /**
     * `__init__`: the keys from the environment and whether the session, the
     * agent client and the model client could each be created.
     */
    constructor (accessKey: Option<string>, secretKey: Option<string>,
                 sessionOk: bool, agentClientOk: bool, modelClientOk: bool)
      ensures Valid()
      ensures hasCredentials <==>
        accessKey.GetOr("") != "" && secretKey.GetOr("") != "" && sessionOk && (agentClientOk || modelClientOk)
      ensures hasAgentRuntime <==> hasCredentials && agentClientOk
    {
      var keys := accessKey.GetOr("") != "" && secretKey.GetOr("") != "";
      if keys && sessionOk && agentClientOk {
        hasCredentials, hasAgentRuntime, hasModelRuntime := true, true, false;
      } else if keys && sessionOk && modelClientOk {
        hasCredentials, hasAgentRuntime, hasModelRuntime := true, false, true;
      } else {
        hasCredentials, hasAgentRuntime, hasModelRuntime := false, false, false;
      }
    }

    /**
     * `generate_response(prompt, max_tokens, temperature)`: the mock without
     * credentials; the agent when its client exists, else the model; the
     * mock when neither exists or the call fails. A model body whose
     * `completion` is present but not a string is the only way to get
     * something other than a string back.
     */
    method GenerateResponse(prompt: string, maxTokens: int, temperature: real,
                            agent: AgentRequest -> AgentReply, model: ModelRequest -> ModelReply,
                            choice: nat) returns (response: Response)
      requires choice < GeneralCount
      ensures !hasCredentials ==> response == TextResponse(MockResponse(prompt, choice))
      ensures hasCredentials && hasAgentRuntime ==>
        match agent(AgentRequestFor(prompt))
        case AgentCompletion(events) =>
          response == TextResponse(if AssembledText(events) == "" then NoAgentText else AssembledText(events))
        case AgentFailed => response == TextResponse(MockResponse(prompt, choice))
      ensures hasCredentials && !hasAgentRuntime && hasModelRuntime ==>
        match model(ModelRequestFor(prompt, maxTokens, temperature))
        case ModelBody(NoCompletion) => response == TextResponse(NoModelText)
        case ModelBody(StringCompletion(value)) => response == TextResponse(value)
        case ModelBody(NonStringCompletion) => response == NonStringResponse
        case ModelFailed => response == TextResponse(MockResponse(prompt, choice))
      ensures hasCredentials && !hasAgentRuntime && !hasModelRuntime ==>
        response == TextResponse(MockResponse(prompt, choice))
      ensures response.NonStringResponse? <==>
        hasCredentials && !hasAgentRuntime && hasModelRuntime &&
        model(ModelRequestFor(prompt, maxTokens, temperature)) == ModelBody(NonStringCompletion)
    {
      if !hasCredentials {
        return TextResponse(MockResponse(prompt, choice));
      }
      if hasAgentRuntime {
        var reply := agent(AgentRequestFor(prompt));
        match reply {
          case AgentCompletion(events) =>
            var assembled := AssembleAgentText(events);
            response := TextResponse(if assembled == "" then NoAgentText else assembled);
          case AgentFailed =>
            response := TextResponse(MockResponse(prompt, choice));
        }
      } else if hasModelRuntime {
        var reply := model(ModelRequestFor(prompt, maxTokens, temperature));
        match reply {
          case ModelBody(NoCompletion) =>
            response := TextResponse(NoModelText);
          case ModelBody(StringCompletion(value)) =>
            response := TextResponse(value);
          case ModelBody(NonStringCompletion) =>
            response := NonStringResponse;
          case ModelFailed =>
            response := TextResponse(MockResponse(prompt, choice));
        }
      } else {
        response := TextResponse(MockResponse(prompt, choice));
      }
    }
  }
}
