/**
 * The cryptocurrency mention detector of the chat transcript
 * (`detectCryptocurrency` in ChatInterface.tsx): a fixed, ordered keyword
 * registry scanned for the first asset one of whose keywords occurs, as a
 * plain substring, in the lower-cased text.
 */
module Detector {
  import opened Wrappers
  import opened Text

  /** One registry row: the canonical asset name and the keywords that indicate it. */
  datatype Asset = Asset(name: string, keywords: seq<string>)

  /** The registry, in declaration order; the order decides ambiguous texts. */
  const Registry: seq<Asset> := [
    Asset("bitcoin", ["bitcoin", "btc"]),
    Asset("ethereum", ["ethereum", "eth"]),
    Asset("cardano", ["cardano", "ada"]),
    Asset("solana", ["solana", "sol"]),
    Asset("dogecoin", ["dogecoin", "doge"])
  ]

  /** `keywords.some(keyword => text.includes(keyword))`, scanned from the left. */
  predicate SomeKeywordIn(text: string, keywords: seq<string>) {
    |keywords| > 0 && (Contains(text, keywords[0]) || SomeKeywordIn(text, keywords[1..]))
  }

  /** Declarative reading of a match: some keyword of `a` occurs at some position of `text`. */
  ghost predicate Mentions(text: string, a: Asset) {
    exists k, i: nat :: k in a.keywords && OccursAt(text, k, i)
  }

  /** The scan over a keyword list agrees with the declarative reading. */
  lemma {:induction false} SomeKeywordInIff(text: string, a: Asset)
    ensures SomeKeywordIn(text, a.keywords) <==> Mentions(text, a)
  {
    KeywordsIff(text, a.keywords);
  }

  lemma {:induction false} KeywordsIff(text: string, keywords: seq<string>)
    ensures SomeKeywordIn(text, keywords) <==> exists k, i: nat :: k in keywords && OccursAt(text, k, i)
  {
    if |keywords| > 0 {
      ContainsIff(text, keywords[0]);
      KeywordsIff(text, keywords[1..]);
      if k, i: nat :| k in keywords && OccursAt(text, k, i) {
        if k != keywords[0] {
          assert k in keywords[1..];
        }
      }
      if SomeKeywordIn(text, keywords[1..]) {
        var k, i: nat :| k in keywords[1..] && OccursAt(text, k, i);
        assert k in keywords;
      }
    }
  }

  /** The loop of lines 83-87 from registry index `i` on, over already lower-cased text. */
  function DetectFrom(lower: string, i: nat): (r: Option<string>)
    requires i <= |Registry|
    ensures r.Some? ==> exists j :: i <= j < |Registry| && r.value == Registry[j].name
    decreases |Registry| - i
  {
    if i == |Registry| then None
    else if SomeKeywordIn(lower, Registry[i].keywords) then Some(Registry[i].name)
    else DetectFrom(lower, i + 1)
  }

  /** `detectCryptocurrency(text)`: `None` stands for `null`. */
  function Detect(text: string): (r: Option<string>)
    ensures r.Some? ==> exists j :: 0 <= j < |Registry| && r.value == Registry[j].name
  {
    DetectFrom(Lower(text), 0)
  }

  /** No two registry rows share a name. */
  lemma RegistryNamesDistinct()
    ensures forall i, j :: 0 <= i < j < |Registry| ==> Registry[i].name != Registry[j].name
  {
  }

  lemma {:induction false} DetectFromFirstMatch(lower: string, start: nat, i: nat)
    requires start <= i < |Registry|
    ensures DetectFrom(lower, start) == Some(Registry[i].name)
        <==> Mentions(lower, Registry[i]) && forall j :: start <= j < i ==> !Mentions(lower, Registry[j])
    decreases i - start
  {
    RegistryNamesDistinct();
    SomeKeywordInIff(lower, Registry[start]);
    if start < i {
      DetectFromFirstMatch(lower, start + 1, i);
      if SomeKeywordIn(lower, Registry[start].keywords) {
        assert Registry[start].name != Registry[i].name;
      }
    }
  }

  lemma {:induction false} DetectFromNone(lower: string, start: nat)
    requires start <= |Registry|
    ensures DetectFrom(lower, start) == None
        <==> forall j :: start <= j < |Registry| ==> !Mentions(lower, Registry[j])
    decreases |Registry| - start
  {
    if start < |Registry| {
      SomeKeywordInIff(lower, Registry[start]);
      DetectFromNone(lower, start + 1);
    }
  }

  /**
   * Detection yields asset `i` exactly when one of its keywords occurs in the
   * lower-cased text and no keyword of an asset declared before it does.
   */
  lemma DetectIsFirstMatch(text: string, i: nat)
    requires i < |Registry|
    ensures Detect(text) == Some(Registry[i].name)
        <==> Mentions(Lower(text), Registry[i]) && forall j :: 0 <= j < i ==> !Mentions(Lower(text), Registry[j])
  {
    DetectFromFirstMatch(Lower(text), 0, i);
  }

  /** Detection yields `null` exactly when no keyword of any asset occurs in the lower-cased text. */
  lemma DetectNoneIff(text: string)
    ensures Detect(text) == None <==> forall j :: 0 <= j < |Registry| ==> !Mentions(Lower(text), Registry[j])
  {
    DetectFromNone(Lower(text), 0);
  }

  /** Detection ignores case: the text and its lower-cased form detect the same asset. */
  lemma DetectIgnoresCase(text: string)
    ensures Detect(text) == Detect(Lower(text))
  {
    LowerIdempotent(text);
  }

  /** Two assets mentioned: the one declared first wins. */
  lemma DetectPrefersEarlierAsset()
    ensures Detect("btc and eth") == Some("bitcoin")
  {
    assert Lower("btc and eth") == "btc and eth";
    assert OccursAt("btc and eth", "btc", 0);
    ContainsIff("btc and eth", "btc");
  }

  /** A keyword inside a longer word still counts: "eth" in "method". */
  lemma DetectMatchesInsideWords()
    ensures Detect("method") == Some("ethereum")
  {
    var lower := "method";
    LowerKeepsLowerCase(lower);
    assert 'b' !in lower;
    assert OccursAt(lower, "eth", 1);
    ScanReachesEthereum(lower, 1);
  }

  /** Text without 'b' in which "eth" occurs passes the bitcoin row and stops at ethereum. */
  lemma ScanReachesEthereum(lower: string, at: nat)
    requires 'b' !in lower
    requires OccursAt(lower, "eth", at)
    ensures DetectFrom(lower, 0) == Some("ethereum")
  {
    ContainsIff(lower, "eth");
    AbsentCharBlocks(lower, "bitcoin", 'b');
    AbsentCharBlocks(lower, "btc", 'b');
    KeywordPair(lower, "bitcoin", "btc");
    KeywordPair(lower, "ethereum", "eth");
    assert DetectFrom(lower, 1) == Some("ethereum");
  }

  /** The scan of a two-keyword row is a disjunction of two substring tests. */
  lemma KeywordPair(text: string, first: string, second: string)
    ensures SomeKeywordIn(text, [first, second]) <==> Contains(text, first) || Contains(text, second)
  {
    assert [first, second][1..] == [second];
    assert [second][1..] == [];
    assert SomeKeywordIn(text, [second]) <==> Contains(text, second) || SomeKeywordIn(text, []);
  }

  /** A question naming Solana detects solana, whatever the capitalisation. */
  lemma DetectSolanaQuestion()
    ensures Detect("Tell me about Solana") == Some("solana")
  {
    var lower := "tell me about solana";
    LowerSolanaQuestion();
    assert 'c' !in lower && 'h' !in lower && 'd' !in lower;
    assert OccursAt(lower, "solana", 14);
    ScanReachesSolana(lower, 14);
  }

  lemma LowerSolanaQuestion()
    ensures Lower("Tell me about Solana") == "tell me about solana"
  {
    var s, t := "Tell me about Solana", "tell me about solana";
    forall i | 0 <= i < |s|
      ensures Lower(s)[i] == t[i]
    {
    }
  }

  /** Text without 'c', 'h' and 'd' in which "solana" occurs passes the first three rows and stops at solana. */
  lemma ScanReachesSolana(lower: string, at: nat)
    requires 'c' !in lower && 'h' !in lower && 'd' !in lower
    requires OccursAt(lower, "solana", at)
    ensures DetectFrom(lower, 0) == Some("solana")
  {
    ContainsIff(lower, "solana");
    AbsentCharBlocks(lower, "bitcoin", 'c');
    AbsentCharBlocks(lower, "btc", 'c');
    KeywordPair(lower, "bitcoin", "btc");
    AbsentCharBlocks(lower, "ethereum", 'h');
    AbsentCharBlocks(lower, "eth", 'h');
    KeywordPair(lower, "ethereum", "eth");
    AbsentCharBlocks(lower, "cardano", 'c');
    AbsentCharBlocks(lower, "ada", 'd');
    KeywordPair(lower, "cardano", "ada");
    KeywordPair(lower, "solana", "sol");
    assert DetectFrom(lower, 3) == Some("solana");
    assert DetectFrom(lower, 2) == Some("solana");
    assert DetectFrom(lower, 1) == Some("solana");
  }

  /** A text with no keyword of any asset detects nothing. */
  lemma DetectNoMention()
    ensures Detect("what is a hash function") == None
  {
    var lower := "what is a hash function";
    forall i | 0 <= i < |lower|
      ensures !('A' <= lower[i] <= 'Z') && lower[i] !in "bedl"
    {
    }
    LowerKeepsLowerCase(lower);
    ScanFindsNothing(lower);
  }

  /** Text without 'b', 'e', 'd' and 'l' holds no keyword of any row. */
  lemma ScanFindsNothing(lower: string)
    requires forall i :: 0 <= i < |lower| ==> lower[i] !in "bedl"
    ensures DetectFrom(lower, 0) == None
  {
    assert 'b' !in lower && 'e' !in lower && 'd' !in lower && 'l' !in lower by {
      forall c | c in "bedl"
        ensures c !in lower
      {
        if i :| 0 <= i < |lower| && lower[i] == c {
        }
      }
    }
    AbsentCharBlocks(lower, "bitcoin", 'b');
    AbsentCharBlocks(lower, "btc", 'b');
    KeywordPair(lower, "bitcoin", "btc");
    AbsentCharBlocks(lower, "ethereum", 'e');
    AbsentCharBlocks(lower, "eth", 'e');
    KeywordPair(lower, "ethereum", "eth");
    AbsentCharBlocks(lower, "cardano", 'd');
    AbsentCharBlocks(lower, "ada", 'd');
    KeywordPair(lower, "cardano", "ada");
    AbsentCharBlocks(lower, "solana", 'l');
    AbsentCharBlocks(lower, "sol", 'l');
    KeywordPair(lower, "solana", "sol");
    AbsentCharBlocks(lower, "dogecoin", 'd');
    AbsentCharBlocks(lower, "doge", 'd');
    KeywordPair(lower, "dogecoin", "doge");
    assert DetectFrom(lower, 4) == None;
    assert DetectFrom(lower, 3) == None;
    assert DetectFrom(lower, 2) == None;
    assert DetectFrom(lower, 1) == None;
  }
}
