/**
 * The streaming callbacks handed to the graphrag search engines: one
 * accumulates the answer token by token for live display, the other keeps
 * the map-phase contexts and outputs of a global search.
 */
module Search {

  import opened Wrappers

  /** The concatenation of the tokens, in arrival order. */
  function Concat(tokens: seq<string>): string {
    if tokens == [] then "" else Concat(tokens[..|tokens| - 1]) + tokens[|tokens| - 1]
  }

  /** Concatenation splits at any point of the token stream. */
  lemma {:induction false} ConcatAppend(a: seq<string>, b: seq<string>)
    ensures Concat(a + b) == Concat(a) + Concat(b)
  {
    if b == [] {
      assert a + b == a;
    } else {
      var k := |b| - 1;
      assert (a + b)[..|a + b| - 1] == a + b[..k];
      ConcatAppend(a, b[..k]);
    }
  }

  /** Every token is part of the buffer, at the offset given by the tokens before it. */
  lemma {:induction false} ConcatHoldsToken(tokens: seq<string>, i: nat)
    requires i < |tokens|
    ensures var start := |Concat(tokens[..i])|;
      start + |tokens[i]| <= |Concat(tokens)| && Concat(tokens)[start..start + |tokens[i]|] == tokens[i]
  {
    assert tokens == tokens[..i] + [tokens[i]] + tokens[i + 1..];
    ConcatAppend(tokens[..i] + [tokens[i]], tokens[i + 1..]);
    ConcatAppend(tokens[..i], [tokens[i]]);
    assert [tokens[i]][..0] == [];
  }

  /** `LLMCallback`: the answer so far, and what the placeholder on the page shows. */
  class LLMCallback {
    var buffer: string
    /** The text last written to the page placeholder; None while it is empty. */
    var shown: Option<string>
    /** The tokens received so far. */
    ghost var tokens: seq<string>

    ghost predicate Valid()
      reads this
    {
      buffer == Concat(tokens)
    }

    constructor()
      ensures Valid() && tokens == [] && buffer == "" && shown.None?
    {
      buffer := "";
      shown := None;
      tokens := [];
    }

    /** `on_llm_new_token`: the token is appended and the whole answer so far is shown. */
    method OnLlmNewToken(token: string)
      requires Valid()
      modifies this
      ensures Valid()
      ensures tokens == old(tokens) + [token]
      ensures buffer == old(buffer) + token
      ensures shown == Some(buffer)
    {
      buffer := buffer + token;
      shown := Some(buffer);
      tokens := tokens + [token];
      assert tokens[..|tokens| - 1] == old(tokens);
    }
  }

  /** The part of a graphrag `SearchResult` the callbacks pass on. */
  datatype SearchResult = SearchResult(response: string, contextText: string, llmCalls: nat, promptTokens: nat)

  /** `GlobalSearchLLMCallback`: the latest map-phase contexts and outputs. */
  class GlobalSearchLLMCallback {
    var mapResponseContexts: seq<string>
    var mapResponseOutputs: seq<SearchResult>

    constructor()
      ensures mapResponseContexts == [] && mapResponseOutputs == []
    {
      mapResponseContexts := [];
      mapResponseOutputs := [];
    }

    /** `on_map_response_start`: the contexts are replaced, the outputs kept. */
    method OnMapResponseStart(contexts: seq<string>)
      modifies this
      ensures mapResponseContexts == contexts
      ensures mapResponseOutputs == old(mapResponseOutputs)
    {
      mapResponseContexts := contexts;
    }

    /** `on_map_response_end`: the outputs are replaced, the contexts kept. */
    method OnMapResponseEnd(outputs: seq<SearchResult>)
      modifies this
      ensures mapResponseOutputs == outputs
      ensures mapResponseContexts == old(mapResponseContexts)
    {
      mapResponseOutputs := outputs;
    }
  }
}
