/**
  The static allow-list of model families: a request is served only when
  some listed family name is a prefix of the requested model.
*/
module AllowList {
  import opened Strings

  /** The families the proxy forwards, in declaration order. */
  const AllowedModelPrefixes: seq<string> := ["gpt-4o", "gpt-4-1106-preview", "gpt-4.1", "o3", "o4", "gpt-3.5"]

  /** Some element of `prefixes` is a prefix of `model`, found by scanning them in order. */
  function MatchesAnyPrefix(prefixes: seq<string>, model: string): (r: bool)
    ensures r <==> exists i :: 0 <= i < |prefixes| && HasPrefix(model, prefixes[i])
    decreases |prefixes|
  {
    if |prefixes| == 0 then false
    else HasPrefix(model, prefixes[0]) || MatchesAnyPrefix(prefixes[1..], model)
  }

  /** `isModelAllowed`. */
  function IsModelAllowed(model: string): (allowed: bool)
    ensures allowed <==> exists i :: 0 <= i < |AllowedModelPrefixes| && HasPrefix(model, AllowedModelPrefixes[i])
  {
    MatchesAnyPrefix(AllowedModelPrefixes, model)
  }

  /** Dated releases of an allowed family stay allowed. */
  lemma AllowedIsClosedUnderExtension(model: string, suffix: string)
    requires IsModelAllowed(model)
    ensures IsModelAllowed(model + suffix)
  {
    var i :| 0 <= i < |AllowedModelPrefixes| && HasPrefix(model, AllowedModelPrefixes[i]);
    HasPrefixExtends(model, AllowedModelPrefixes[i], suffix);
  }

  /** The families themselves are allowed; names outside them, and the empty name, are not. */
  lemma AllowListExamples()
    ensures IsModelAllowed("gpt-4o") && IsModelAllowed("gpt-4o-mini") && IsModelAllowed("gpt-4.1")
    ensures IsModelAllowed("o3") && IsModelAllowed("o4") && IsModelAllowed("gpt-3.5")
    ensures !IsModelAllowed("") && !IsModelAllowed("claude-3") && !IsModelAllowed("llama-2")
    ensures !IsModelAllowed("gpt-4")
  {
    assert HasPrefix("gpt-4o-mini", "gpt-4o");
    RejectedByFirstChar("claude-3");
    RejectedByFirstChar("llama-2");
    forall i | 0 <= i < |AllowedModelPrefixes|
      ensures !HasPrefix("gpt-4", AllowedModelPrefixes[i])
    {
      if i == 3 || i == 4 {
        assert AllowedModelPrefixes[i][0] == 'o';
        assert "gpt-4"[0] == 'g';
      } else {
        assert |AllowedModelPrefixes[i]| > |"gpt-4"|;
      }
    }
  }

  /** Every allowed family starts with 'g' or 'o', so a name starting otherwise is rejected. */
  lemma RejectedByFirstChar(model: string)
    requires |model| > 0 && model[0] != 'g' && model[0] != 'o'
    ensures !IsModelAllowed(model)
  {
    forall i | 0 <= i < |AllowedModelPrefixes|
      ensures !HasPrefix(model, AllowedModelPrefixes[i])
    {
      assert AllowedModelPrefixes[i][0] == 'g' || AllowedModelPrefixes[i][0] == 'o';
    }
  }
}
