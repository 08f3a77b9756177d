/**
 * The fallback question answerer the chat service calls in normal mode
 * (backend/services/ragService.js): a keyword test on the lowered question and one
 * of two fixed answers. It keeps no state and never fails.
 */
module RagStub {
  import opened Outcomes
  import opened Text

  /** The object `query` resolves to; `suggestion` is absent from the second answer. */
  datatype StubAnswer = StubAnswer(response: string, sources: seq<string>, relevant: bool, suggestion: Option<string>)

  /** The answer to a question about APIs, pointing at the exploration mode (first sentence). */
  const ApiHint: string := "Il semble que vous parliez d'APIs."

  /** The answer to any other question (first sentence). */
  const NotImplemented: string := "Je ne peux pas répondre à cette question pour le moment."

  const ApiSuggestion: string := "api_exploration"

  /** The six keywords of the API test. */
  const ApiKeywords: seq<string> := ["api", "endpoint", "explorer", "jsonplaceholder", "github", "publicapis"]

  /** The question mentions APIs: its lowered form contains one of the six keywords. */
  predicate IsApiRelated(question: string) {
    var n := Lower(question);
    Contains(n, "api") || Contains(n, "endpoint") || Contains(n, "explorer")
    || Contains(n, "jsonplaceholder") || Contains(n, "github") || Contains(n, "publicapis")
  }

  /** `query`. */
  function Query(question: string): (r: StubAnswer)
    ensures r.sources == [] && !r.relevant
    ensures r.suggestion.Some? <==> ContainsAny(Lower(question), ApiKeywords)
    ensures r.suggestion.Some? ==> r.suggestion.value == ApiSuggestion
    ensures r.response == ApiHint <==> ContainsAny(Lower(question), ApiKeywords)
    ensures r.response == ApiHint || r.response == NotImplemented
  {
    ApiKeywordsListed(Lower(question));
    if IsApiRelated(question) then
      StubAnswer(ApiHint, [], false, Some(ApiSuggestion))
    else
      StubAnswer(NotImplemented, [], false, None)
  }

  /** Containing one of the keywords is containing the first, or ..., or the sixth. */
  lemma ApiKeywordsListed(n: string)
    ensures ContainsAny(n, ApiKeywords) <==>
      Contains(n, "api") || Contains(n, "endpoint") || Contains(n, "explorer")
      || Contains(n, "jsonplaceholder") || Contains(n, "github") || Contains(n, "publicapis")
  {
    if ContainsAny(n, ApiKeywords) {
      var k :| 0 <= k < |ApiKeywords| && Contains(n, ApiKeywords[k]);
      assert k == 0 || k == 1 || k == 2 || k == 3 || k == 4 || k == 5;
    }
    if Contains(n, "api") { assert Contains(n, ApiKeywords[0]); }
    if Contains(n, "endpoint") { assert Contains(n, ApiKeywords[1]); }
    if Contains(n, "explorer") { assert Contains(n, ApiKeywords[2]); }
    if Contains(n, "jsonplaceholder") { assert Contains(n, ApiKeywords[3]); }
    if Contains(n, "github") { assert Contains(n, ApiKeywords[4]); }
    if Contains(n, "publicapis") { assert Contains(n, ApiKeywords[5]); }
  }

  /** "publicapis" is redundant in the keyword list: it contains "api". */
  lemma {:induction false} PublicApisRedundant(question: string)
    ensures IsApiRelated(question) <==>
      var n := Lower(question);
      Contains(n, "api") || Contains(n, "endpoint") || Contains(n, "explorer")
      || Contains(n, "jsonplaceholder") || Contains(n, "github")
  {
    var n := Lower(question);
    if Contains(n, "publicapis") {
      assert OccursAt("publicapis", "api", 6);
      ContainsTransitive(n, "publicapis", "api");
    }
  }

  /** The answer depends on the question only through the keyword test. */
  lemma QueryDependsOnlyOnKeywords(q1: string, q2: string)
    requires IsApiRelated(q1) == IsApiRelated(q2)
    ensures Query(q1) == Query(q2)
  {
  }

  /** Case does not matter. */
  lemma QueryIgnoresCase(question: string)
    ensures Query(Lower(question)) == Query(question)
  {
    LowerIdempotent(question);
  }
}
