/**
 * The keyword and pattern classifiers of the chat service (backend/services/chatService.js):
 * the exit phrases, the API-exploration request, the special commands, the follow-up
 * commands of API mode, and the regular expressions that find an endpoint reference,
 * a URL, a favourite number or a domain in a message.
 *
 * Each regular expression is modelled by a function saying what it matches at one
 * position, in the order JavaScript's backtracking tries the alternatives, and by
 * `FirstMatch`, which takes the leftmost position that matches, as `String.match` does.
 */
module Intent {
  import opened Outcomes
  import opened Text

  // ---------------------------------------------------------------------------
  // Regular expressions
  // ---------------------------------------------------------------------------

  /** The regular expressions of chatService.js. */
  datatype Pattern =
    | UrlPattern            // /(https?:\/\/[^\s]+)/g
    | EndpointCallPattern   // /appel(?:le)?\s+(?:l'?endpoint\s+)?(\d+|\/[^\s]+)/i
    | CallPattern           // /(?:appel|requête|montre|affiche)\s+(?:l'?endpoint\s+)?(\d+|\/[^\s]+)/i
    | RemoveFavoritePattern // /supprime\s+le\s+favori\s+(\d+)/i
    | AddDomainPattern      // /ajoute\s+le\s+domaine\s+([^\s]+)/i

  /** The lower-case literal `lit` matches case-insensitively at index `i` of `s`. */
  predicate LitAt(s: string, i: nat, lit: string) {
    OccursAt(Lower(s), lit, i)
  }

  /** `\s+` at index `i`: the index after the longest run of white space, if there is one. */
  function Spaces(s: string, i: nat): (r: Option<nat>)
    ensures r.Some? ==> i < r.value <= |s|
  {
    if i < |s| && IsSpace(s[i]) then Some(RunEnd(s, i, Space)) else None
  }

  /** A capture that can follow `\s+`: it is never empty and holds no white space. */
  predicate SpaceFree(x: string) {
    |x| > 0 && forall k :: 0 <= k < |x| ==> !IsSpace(x[k])
  }

  /** The group `(\d+|\/[^\s]+)`: digits first, else a slash and at least one more character. */
  function Identifier(s: string, i: nat): (r: Option<string>)
    ensures r.Some? ==> SpaceFree(r.value)
    ensures r.Some? ==> IsNumeral(r.value) || (|r.value| >= 2 && r.value[0] == '/')
  {
    if i < |s| && IsDigit(s[i]) then Some(s[i..RunEnd(s, i, Digit)])
    else if i + 1 < |s| && s[i] == '/' && !IsSpace(s[i + 1]) then Some(s[i..RunEnd(s, i, NonSpace)])
    else None
  }

  /** The optional group `(?:l'?endpoint\s+)` followed by the identifier. */
  function WordThenIdentifier(s: string, k: nat): Option<string> {
    var after :=
      if LitAt(s, k, "l'endpoint") then Some(k + 10)
      else if LitAt(s, k, "lendpoint") then Some(k + 9)
      else None;
    match after
    case None => None
    case Some(w) =>
      match Spaces(s, w)
      case None => None
      case Some(k2) => Identifier(s, k2)
  }

  /** `\s+(?:l'?endpoint\s+)?(\d+|\/[^\s]+)` after a verb ending at `j`: the optional group is tried first. */
  function Target(s: string, j: nat): Option<string> {
    match Spaces(s, j)
    case None => None
    case Some(k) =>
      var viaWord := WordThenIdentifier(s, k);
      if viaWord.Some? then viaWord else Identifier(s, k)
  }

  function OrElse<T>(a: Option<T>, b: Option<T>): Option<T> {
    if a.Some? then a else b
  }

  /** A verb followed by a target, at index `i`. */
  function VerbTarget(s: string, i: nat, verb: string): Option<string> {
    if LitAt(s, i, verb) then Target(s, i + |verb|) else None
  }

  /**
   * Words separated by `\s+` and followed by `\s+`: the index after the last run of
   * white space. A run is always taken whole, since what follows it starts with a letter.
   */
  function Words(s: string, i: nat, words: seq<string>): Option<nat>
    decreases |words|
  {
    if |words| == 0 then Some(i)
    else if LitAt(s, i, words[0]) then
      match Spaces(s, i + |words[0]|)
      case None => None
      case Some(k) => Words(s, k, words[1..])
    else None
  }

  /** What pattern `p` captures when its match starts at index `i`. */
  function MatchAt(p: Pattern, s: string, i: nat): Option<string> {
    match p
    case UrlPattern =>
      if (OccursAt(s, "https://", i) && i + 8 < |s| && !IsSpace(s[i + 8]))
         || (OccursAt(s, "http://", i) && i + 7 < |s| && !IsSpace(s[i + 7]))
      then Some(s[i..RunEnd(s, i, NonSpace)])
      else None
    case EndpointCallPattern =>
      if LitAt(s, i, "appel") then
        OrElse(if LitAt(s, i + 5, "le") then Target(s, i + 7) else None, Target(s, i + 5))
      else None
    case CallPattern =>
      OrElse(VerbTarget(s, i, "appel"),
        OrElse(VerbTarget(s, i, "requête"),
          OrElse(VerbTarget(s, i, "montre"), VerbTarget(s, i, "affiche"))))
    case RemoveFavoritePattern =>
      (match Words(s, i, ["supprime", "le", "favori"])
       case None => None
       case Some(k) => if k < |s| && IsDigit(s[k]) then Some(s[k..RunEnd(s, k, Digit)]) else None)
    case AddDomainPattern =>
      match Words(s, i, ["ajoute", "le", "domaine"])
      case None => None
      case Some(k) => if k < |s| then Some(s[k..RunEnd(s, k, NonSpace)]) else None
  }

  /** The leftmost index at or after `i` where `p` matches. */
  function LeftmostAt(p: Pattern, s: string, i: nat): (r: Option<nat>)
    decreases |s| - i
    ensures r.Some? ==> i <= r.value < |s| && MatchAt(p, s, r.value).Some?
    ensures r.Some? ==> forall j :: i <= j < r.value ==> MatchAt(p, s, j).None?
    ensures r.None? ==> forall j :: i <= j < |s| ==> MatchAt(p, s, j).None?
  {
    if i >= |s| then None
    else if MatchAt(p, s, i).Some? then Some(i)
    else LeftmostAt(p, s, i + 1)
  }

  /** `s.match(p)`: the capture of the leftmost match, if any. */
  function FirstMatch(p: Pattern, s: string): Option<string> {
    match LeftmostAt(p, s, 0)
    case None => None
    case Some(k) => MatchAt(p, s, k)
  }

  /** `FirstMatch` is the capture at the leftmost matching position, and finds one whenever any position matches. */
  lemma FirstMatchIsLeftmost(p: Pattern, s: string, k: nat)
    requires k < |s| && MatchAt(p, s, k).Some?
    requires forall j :: 0 <= j < k ==> MatchAt(p, s, j).None?
    ensures FirstMatch(p, s) == MatchAt(p, s, k)
  {
    var r := LeftmostAt(p, s, 0);
    assert r.Some?;
    assert r.value == k;
  }

  // ---------------------------------------------------------------------------
  // Exit phrases
  // ---------------------------------------------------------------------------

  const ExitPhrases: seq<string> := [
    "quitte le mode api", "quitter le mode api", "reviens au chat normal",
    "revenir au chat normal", "mode normal", "arrête l'exploration", "arrêter l'exploration"
  ]

  /** Containing one of the exit phrases is containing the first, or the second, ..., or the seventh. */
  lemma ExitPhrasesListed(n: string)
    ensures ContainsAny(n, ExitPhrases) <==>
      || Contains(n, "quitte le mode api")
      || Contains(n, "quitter le mode api")
      || Contains(n, "reviens au chat normal")
      || Contains(n, "revenir au chat normal")
      || Contains(n, "mode normal")
      || Contains(n, "arrête l'exploration")
      || Contains(n, "arrêter l'exploration")
  {
    if ContainsAny(n, ExitPhrases) {
      var k :| 0 <= k < |ExitPhrases| && Contains(n, ExitPhrases[k]);
      assert k == 0 || k == 1 || k == 2 || k == 3 || k == 4 || k == 5 || k == 6;
    }
    if Contains(n, "quitte le mode api") { assert Contains(n, ExitPhrases[0]); }
    if Contains(n, "quitter le mode api") { assert Contains(n, ExitPhrases[1]); }
    if Contains(n, "reviens au chat normal") { assert Contains(n, ExitPhrases[2]); }
    if Contains(n, "revenir au chat normal") { assert Contains(n, ExitPhrases[3]); }
    if Contains(n, "mode normal") { assert Contains(n, ExitPhrases[4]); }
    if Contains(n, "arrête l'exploration") { assert Contains(n, ExitPhrases[5]); }
    if Contains(n, "arrêter l'exploration") { assert Contains(n, ExitPhrases[6]); }
  }

  /** `wantsToQuitApiMode`: the lowered message contains one of the seven exit phrases. */
  function WantsToQuitApiMode(message: string): (r: bool)
    ensures r <==> ContainsAny(Lower(message), ExitPhrases)
  {
    var n := Lower(message);
    ExitPhrasesListed(n);
    || Contains(n, "quitte le mode api")
    || Contains(n, "quitter le mode api")
    || Contains(n, "reviens au chat normal")
    || Contains(n, "revenir au chat normal")
    || Contains(n, "mode normal")
    || Contains(n, "arrête l'exploration")
    || Contains(n, "arrêter l'exploration")
  }

  // ---------------------------------------------------------------------------
  // API-exploration request
  // ---------------------------------------------------------------------------

  /** Exploration-intent keywords, each with its trailing space. */
  const IntentKeywords: seq<string> := [
    "explore ", "explorer ", "analyse ", "analyser ", "teste ", "tester ",
    "appelle ", "appeler ", "requête ", "requêter ", "interroge ", "interroger ",
    "voir ", "montrer ", "affiche ", "afficher ", "découvre ", "découvrir "
  ]

  /** Fragments that mark a URL as an API. */
  const ApiIndicators: seq<string> := [
    "/api/", "/v1/", "/v2/", "/v3/", "/graphql", "/rest/",
    "api.", ".api.", "jsonplaceholder", "github", "publicapis"
  ]

  /** The phrases of the second, "very explicit" rule. */
  const ExplicitPhrases: seq<string> := ["explore cette api", "explorer cette api", "analyse cette api"]

  /** The first `http(s)://` match of the (case-sensitive) URL pattern. */
  function FirstUrl(message: string): Option<string> {
    FirstMatch(UrlPattern, message)
  }

  /** A URL as the service stores it: with a trailing slash. */
  function NormalizeUrl(url: string): (r: string)
    ensures EndsWith(r, "/")
    ensures |url| <= |r| <= |url| + 1 && r[..|url|] == url
    ensures EndsWith(url, "/") ==> r == url
  {
    if EndsWith(url, "/") then url else url + "/"
  }

  /** The API test: an indicator in the normalised URL, or "api" anywhere in the lowered message. */
  predicate LooksLikeApi(normalizedUrl: string, loweredMessage: string) {
    ContainsAny(normalizedUrl, ApiIndicators) || Contains(loweredMessage, "api")
  }

  /** The k-th explicit phrase starts with the k-th intent keyword and ends with "api". */
  lemma ExplicitPhraseParts(k: nat)
    requires k < |ExplicitPhrases|
    ensures OccursAt(ExplicitPhrases[k], IntentKeywords[k], 0)
    ensures OccursAt(ExplicitPhrases[k], "api", |ExplicitPhrases[k]| - 3)
  {
    var phrase := ExplicitPhrases[k];
    if k == 0 {
      assert phrase[..8] == "explore " && phrase[14..17] == "api";
    } else if k == 1 {
      assert phrase[..9] == "explorer " && phrase[15..18] == "api";
    } else {
      assert phrase[..8] == "analyse " && phrase[14..17] == "api";
    }
  }

  /** Every explicit phrase already contains an intent keyword and the word "api". */
  lemma ExplicitPhraseImpliesApiIntent(n: string)
    requires ContainsAny(n, ExplicitPhrases)
    ensures ContainsAny(n, IntentKeywords)
    ensures Contains(n, "api")
  {
    var k :| 0 <= k < |ExplicitPhrases| && Contains(n, ExplicitPhrases[k]);
    var phrase := ExplicitPhrases[k];
    ExplicitPhraseParts(k);
    ContainsAt(phrase, IntentKeywords[k], 0);
    ContainsAt(phrase, "api", |phrase| - 3);
    ContainsTransitive(n, phrase, IntentKeywords[k]);
    ContainsTransitive(n, phrase, "api");
  }

  /**
   * `extractApiUrl`. The second rule can never accept a message the first rejected
   * (`ExplicitPhraseImpliesApiIntent`), so the result is decided by the first rule alone:
   * a URL is returned exactly when the message has a URL match, an intent keyword, and an
   * API indicator, and it is then the first match with a trailing slash.
   */
  function ExtractApiUrl(message: string): (r: Option<string>)
    ensures r.Some? <==>
      && FirstUrl(message).Some?
      && ContainsAny(Lower(message), IntentKeywords)
      && LooksLikeApi(NormalizeUrl(FirstUrl(message).value), Lower(message))
    ensures r.Some? ==> r.value == NormalizeUrl(FirstUrl(message).value)
  {
    var n := Lower(message);
    var hasIntent := ContainsAny(n, IntentKeywords);
    var url := FirstUrl(message);
    if url.Some? && hasIntent && LooksLikeApi(NormalizeUrl(url.value), n) then
      Some(NormalizeUrl(url.value))
    else if ContainsAny(n, ExplicitPhrases) && url.Some? then
      // The explicit-phrase rule: unreachable, since such a message passes the first rule.
      ExplicitPhraseImpliesApiIntent(n);
      assert false;
      None
    else
      None
  }

  /**
   * Whatever `extractApiUrl` returns is the longest space-free run starting at the
   * leftmost `http://` or `https://` of the message, with a trailing slash.
   */
  lemma ExtractedUrlShape(message: string)
    requires ExtractApiUrl(message).Some?
    ensures LeftmostAt(UrlPattern, message, 0).Some?
    ensures var k := LeftmostAt(UrlPattern, message, 0).value;
      && (OccursAt(message, "http://", k) || OccursAt(message, "https://", k))
      && ExtractApiUrl(message).value == NormalizeUrl(message[k..RunEnd(message, k, NonSpace)])
  {
    var k := LeftmostAt(UrlPattern, message, 0).value;
    assert FirstUrl(message) == MatchAt(UrlPattern, message, k);
  }

  // ---------------------------------------------------------------------------
  // Special commands (recognised in normal mode)
  // ---------------------------------------------------------------------------

  const SpecialCommands: seq<string> := [
    "mes favoris", "liste des favoris", "mon historique", "historique des appels",
    "efface mon historique", "supprime le favori", "ajoute un domaine", "quitte le mode api"
  ]

  /** `isSpecialCommand`. */
  predicate IsSpecialCommand(message: string) {
    ContainsAny(Lower(message), SpecialCommands)
  }

  /**
   * "ajoute un domaine" makes a message a special command, although the handler only
   * recognises "ajoute le domaine".
   */
  lemma AddUnDomaineIsSpecial(message: string)
    requires Contains(Lower(message), "ajoute un domaine")
    ensures IsSpecialCommand(message)
  {
    assert SpecialCommands[6] == "ajoute un domaine";
  }

  // ---------------------------------------------------------------------------
  // Follow-up commands (API mode)
  // ---------------------------------------------------------------------------

  /** The branch `handleApiFollowup` takes for a message, in the order it tests them. */
  datatype FollowupAction =
    | Leave
    | ShowDocumentation
    | AddFavorite
    | ListFavorites
    | ShowHistory
    | ListEndpoints
    | InvokeEndpoint(identifier: string)
    | Help

  /** The phrases of the endpoint-listing branch. */
  const EndpointQuestions: seq<string> := [
    "endpoint", "quels endpoints", "quels sont les endpoints", "liste des endpoints",
    "quels points de terminaison", "quels sont les points", "disponibles"
  ]

  /** The identifier of an endpoint call: the first pattern's capture, else the second's. */
  function EndpointReference(message: string): Option<string> {
    OrElse(FirstMatch(EndpointCallPattern, message), FirstMatch(CallPattern, message))
  }

  function FollowupActionOf(message: string): FollowupAction {
    var n := Lower(message);
    if Contains(n, "quitte le mode api") || Contains(n, "reviens au chat normal") then Leave
    else if Contains(n, "montre la documentation") then ShowDocumentation
    else if Contains(n, "ajoute cette api aux favoris") || Contains(n, "ajoute aux favoris") then AddFavorite
    else if Contains(n, "mes favoris") || Contains(n, "liste des favoris") then ListFavorites
    else if Contains(n, "mon historique") || Contains(n, "historique des appels") then ShowHistory
    else if ContainsAny(n, EndpointQuestions) then ListEndpoints
    else
      match EndpointReference(message)
      case Some(id) => InvokeEndpoint(id)
      case None => Help
  }

  /**
   * Three of the seven listing phrases are redundant: the listing branch is taken exactly
   * when the message mentions "endpoint", "disponibles" or one of the two phrases about
   * "points".
   */
  lemma EndpointQuestionsReduce(n: string)
    ensures ContainsAny(n, EndpointQuestions) <==>
      Contains(n, "endpoint") || Contains(n, "disponibles")
      || Contains(n, "quels points de terminaison") || Contains(n, "quels sont les points")
  {
    if ContainsAny(n, EndpointQuestions) {
      var k :| 0 <= k < |EndpointQuestions| && Contains(n, EndpointQuestions[k]);
      var q := EndpointQuestions[k];
      if k == 1 {
        assert OccursAt(q, "endpoint", 6);
        ContainsTransitive(n, q, "endpoint");
      } else if k == 2 {
        assert OccursAt(q, "endpoint", 15);
        ContainsTransitive(n, q, "endpoint");
      } else if k == 3 {
        assert OccursAt(q, "endpoint", 10);
        ContainsTransitive(n, q, "endpoint");
      }
    }
    if Contains(n, "endpoint") {
      assert Contains(n, EndpointQuestions[0]);
    }
    if Contains(n, "disponibles") {
      assert Contains(n, EndpointQuestions[6]);
    }
    if Contains(n, "quels points de terminaison") {
      assert Contains(n, EndpointQuestions[4]);
    }
    if Contains(n, "quels sont les points") {
      assert Contains(n, EndpointQuestions[5]);
    }
  }

  /**
   * A follow-up that reaches the endpoint call never mentions "endpoint" or "disponibles":
   * such a message is answered by the listing branch, so "Appelle l'endpoint 2" lists
   * the endpoints rather than calling the second one.
   */
  lemma CallNeverMentionsEndpoint(message: string)
    requires FollowupActionOf(message).InvokeEndpoint?
    ensures !Contains(Lower(message), "endpoint") && !Contains(Lower(message), "disponibles")
  {
    EndpointQuestionsReduce(Lower(message));
  }

  /** A message mentioning "endpoint" and no earlier command is answered by the listing. */
  lemma EndpointWordLists(message: string)
    requires Contains(Lower(message), "endpoint")
    requires FollowupActionOf(message) !in {Leave, ShowDocumentation, AddFavorite, ListFavorites, ShowHistory}
    ensures FollowupActionOf(message) == ListEndpoints
  {
    EndpointQuestionsReduce(Lower(message));
  }

  /** The follow-up's own exit branch is shadowed: both of its phrases are exit phrases. */
  lemma LeaveNeedsExitPhrase(message: string)
    requires FollowupActionOf(message) == Leave
    ensures WantsToQuitApiMode(message)
  {
  }
}
