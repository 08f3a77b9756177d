/**
 * The replies of the chat service's API mode and the text it builds for them
 * (backend/services/chatService.js): the exploration summary, the endpoint listing,
 * the favourites and history listings, the result of an endpoint call and the
 * endpoint-not-found listing. Everything interpolated into a reply is modelled exactly;
 * the fixed prose around it is kept as named constants holding its first sentence or
 * heading, with the emoji dropped.
 */
module Replies {
  import opened Outcomes
  import opened Text
  import opened ApiTypes

  /** The `type` field of a reply. */
  datatype Kind = RagKind | ApiKind | ErrorKind

  /** The extra field a reply carries, if any. */
  datatype Payload =
    | NoPayload
    | ExplorationData(apiUrl: string, endpoints: seq<Endpoint>)   // `data: {apiUrl, endpoints}`
    | CallData(rawData: Json)                                    // `data: result.rawData`
    | FavoritesData(favorites: seq<Favorite>)
    | HistoryData(history: seq<HistoryEntry>)
    | FavoriteIdData(favoriteId: string)
    | SourcesData(sources: seq<string>)

  /** A handler's reply; `exploration` is the `context: 'exploration'` marker. */
  datatype Reply = Reply(response: string, kind: Kind, exploration: bool, payload: Payload)

  /** A reply of type `error` made of a fixed prefix and the collaborator's error message. */
  function Failure(prefix: string, message: string): (r: Reply)
    ensures r.kind == ErrorKind && r.payload == NoPayload && !r.exploration
    ensures EndsWith(r.response, message)
  {
    Reply(prefix + message, ErrorKind, false, NoPayload)
  }

  /** An `api` reply with fixed text and no extra field. */
  function Plain(text: string): Reply {
    Reply(text, ApiKind, false, NoPayload)
  }

  // ---------------------------------------------------------------------------
  // Numbered listings (`items.forEach((x, index) => response += ...)`)
  // ---------------------------------------------------------------------------

  /** The rendered items, numbered from `first`. */
  function Numbered<T>(items: seq<T>, first: nat, render: (nat, T) -> string): (r: seq<string>)
    ensures |r| == |items|
    ensures forall k :: 0 <= k < |items| ==> r[k] == render(first + k, items[k])
    decreases |items|
  {
    if |items| == 0 then [] else [render(first, items[0])] + Numbered(items[1..], first + 1, render)
  }

  /** A JavaScript number is truthy when it is present and not zero. */
  predicate NumberTruthy(x: Option<int>) {
    x.Some? && x.value != 0
  }

  predicate TextTruthy(x: Option<string>) {
    x.Some? && x.value != ""
  }

  // ---------------------------------------------------------------------------
  // Exploration summary
  // ---------------------------------------------------------------------------

  /** At most this many endpoints are shown after an exploration. */
  const MaxListed: nat := 10

  /** The text for an API without endpoints; the two suggestions after it are not modelled. */
  function NoEndpointsText(apiUrl: string): string {
    "J'ai exploré l'API à l'adresse **" + apiUrl + "** mais je n'ai pas trouvé d'endpoints accessibles ou de documentation.\n\n"
  }

  function ExplorationHeader(apiUrl: string, count: nat): string {
    "J'ai exploré l'API à l'adresse **" + apiUrl + "** et trouvé " + NatToString(count)
    + " endpoints accessibles:\n\n"
  }

  /** The line for the endpoints beyond the tenth. */
  function MoreEndpoints(hidden: nat): string {
    "... et " + NatToString(hidden) + " autres endpoints\n\n"
  }

  /** The heading of the command list closing the summary (the five commands are not modelled). */
  const ExplorationCommands: string := "**Commandes disponibles**:\n"

  /** `${endpoint.responseTime || 'N/A'}`. */
  function ResponseTimeText(t: Option<int>): string {
    if NumberTruthy(t) then IntToString(t.value) else "N/A"
  }

  /** One endpoint of the exploration summary: title, description, status and sample lines. */
  function ExplorationBlock(index: nat, e: Endpoint, stringify: Json -> string): string {
    NatToString(index) + ". **" + e.httpMethod + " " + e.path + "**\n"
    + "   " + e.description + "\n"
    + (if NumberTruthy(e.status)
       then "   Statut: " + IntToString(e.status.value) + " (" + ResponseTimeText(e.responseTime) + "ms)\n"
       else "")
    + (if e.sampleResponse.Some? && JsonTruthy(e.sampleResponse.value)
       then "   Exemple: `" + stringify(e.sampleResponse.value) + "`\n"
       else "")
    + "\n"
  }

  /**
   * `formatApiExplorationResponse`. With no endpoints: a fixed text and no data. Otherwise
   * the header with the full count, the blocks of the first ten endpoints numbered from 1,
   * the "and n - 10 more" line exactly when there are more than ten, the command list, and
   * all endpoints, unchanged, in the data.
   */
  function ExplorationResponse(info: ApiInfo, apiUrl: string, stringify: Json -> string): (r: Reply)
    ensures r.kind == ApiKind && r.exploration
    ensures |info.endpoints| == 0 <==> r.payload == NoPayload
    ensures |info.endpoints| == 0 ==> r.response == NoEndpointsText(apiUrl)
    ensures |info.endpoints| > 0 ==> r.payload == ExplorationData(apiUrl, info.endpoints)
  {
    var n := |info.endpoints|;
    if n == 0 then
      Reply(NoEndpointsText(apiUrl), ApiKind, true, NoPayload)
    else
      var blocks := Numbered(info.endpoints[..Min(n, MaxListed)], 1, (i, e) => ExplorationBlock(i, e, stringify));
      var response := ExplorationHeader(apiUrl, n) + Concat(blocks);
      var response := if n > MaxListed then response + MoreEndpoints(n - MaxListed) else response;
      Reply(response + ExplorationCommands, ApiKind, true, ExplorationData(apiUrl, info.endpoints))
  }

  /**
   * The text of a non-empty exploration summary: the header with the full count, the
   * blocks of the first ten endpoints numbered from 1, the "and n - 10 more" line exactly
   * when there are more than ten, and the command list.
   */
  lemma ExplorationListsFirstTen(info: ApiInfo, apiUrl: string, stringify: Json -> string)
    requires |info.endpoints| > 0
    ensures
      var n := |info.endpoints|;
      var shown := Min(n, MaxListed);
      ExplorationResponse(info, apiUrl, stringify).response ==
        ExplorationHeader(apiUrl, n)
        + Concat(seq(shown, k requires 0 <= k < shown => ExplorationBlock(k + 1, info.endpoints[k], stringify)))
        + (if n > MaxListed then MoreEndpoints(n - MaxListed) else "")
        + ExplorationCommands
  {
    var n := |info.endpoints|;
    var shown := info.endpoints[..Min(n, MaxListed)];
    var blocks := Numbered(shown, 1, (i, e) => ExplorationBlock(i, e, stringify));
    assert blocks == seq(|shown|, k requires 0 <= k < |shown| => ExplorationBlock(k + 1, info.endpoints[k], stringify));
  }

  // ---------------------------------------------------------------------------
  // Endpoint listing (follow-up "quels endpoints ...")
  // ---------------------------------------------------------------------------

  function ListingHeader(apiUrl: string): string {
    "**Endpoints disponibles pour " + apiUrl + "**:\n\n"
  }

  /** The heading of the listing's closing suggestions. */
  const ListingFooter: string := "Vous pouvez appeler un endpoint spécifique avec:\n"

  function ListingBlock(index: nat, e: Endpoint): string {
    NatToString(index) + ". **" + e.httpMethod + " " + e.path + "**\n"
    + "   " + e.description + "\n"
    + (if NumberTruthy(e.status) then "   Statut: " + IntToString(e.status.value) + "\n" else "")
    + "\n"
  }

  /** The endpoint listing; unlike the exploration summary it has no limit. */
  function ListingResponse(apiUrl: string, endpoints: seq<Endpoint>): (r: Reply)
    ensures r.kind == ApiKind && r.payload == NoPayload
  {
    Plain(ListingHeader(apiUrl) + Concat(Numbered(endpoints, 1, ListingBlock)) + ListingFooter)
  }

  /** The listing shows every endpoint, numbered from 1. */
  lemma ListingShowsAll(apiUrl: string, endpoints: seq<Endpoint>)
    ensures ListingResponse(apiUrl, endpoints).response ==
      ListingHeader(apiUrl)
      + Concat(seq(|endpoints|, k requires 0 <= k < |endpoints| => ListingBlock(k + 1, endpoints[k])))
      + ListingFooter
  {
    var blocks := Numbered(endpoints, 1, ListingBlock);
    assert blocks == seq(|endpoints|, k requires 0 <= k < |endpoints| => ListingBlock(k + 1, endpoints[k]));
  }

  // ---------------------------------------------------------------------------
  // Favourites
  // ---------------------------------------------------------------------------

  const NoFavoritesText: string := "Vous n'avez pas encore d'APIs favorites."

  function FavoritesHeader(count: nat): string {
    "**Vos APIs favorites** (" + NatToString(count) + "):\n\n"
  }

  /** The heading of the listing's closing suggestions. */
  const FavoritesFooter: string := "Vous pouvez:\n"

  function FavoriteBlock(index: nat, f: Favorite, localeDateTime: int -> string): string {
    NatToString(index) + ". **" + f.name + "**\n"
    + "   " + f.url + "\n"
    + "   " + f.description + "\n"
    + "   Dernière utilisation: " + localeDateTime(f.lastUsed) + "\n\n"
  }

  /** The favourites listing: a fixed text when empty, else the favourites carried as data. */
  function FavoritesResponse(favorites: seq<Favorite>, localeDateTime: int -> string): (r: Reply)
    ensures r.kind == ApiKind
    ensures |favorites| == 0 <==> r.payload == NoPayload
    ensures |favorites| == 0 ==> r.response == NoFavoritesText
    ensures |favorites| > 0 ==> r.payload == FavoritesData(favorites)
  {
    if |favorites| == 0 then Plain(NoFavoritesText)
    else
      var blocks := Numbered(favorites, 1, (i, f) => FavoriteBlock(i, f, localeDateTime));
      Reply(FavoritesHeader(|favorites|) + Concat(blocks) + FavoritesFooter, ApiKind, false, FavoritesData(favorites))
  }

  /** A non-empty favourites listing shows the count and every favourite, numbered from 1. */
  lemma FavoritesShowsAll(favorites: seq<Favorite>, localeDateTime: int -> string)
    requires |favorites| > 0
    ensures FavoritesResponse(favorites, localeDateTime).response ==
      FavoritesHeader(|favorites|)
      + Concat(seq(|favorites|, k requires 0 <= k < |favorites| => FavoriteBlock(k + 1, favorites[k], localeDateTime)))
      + FavoritesFooter
  {
    var blocks := Numbered(favorites, 1, (i, f) => FavoriteBlock(i, f, localeDateTime));
    assert blocks == seq(|favorites|, k requires 0 <= k < |favorites| => FavoriteBlock(k + 1, favorites[k], localeDateTime));
  }

  /** The confirmation of a saved favourite, without its list of suggestions. */
  const FavoriteAddedText: string := "API ajoutée aux favoris avec succès!\n\n"

  // ---------------------------------------------------------------------------
  // History
  // ---------------------------------------------------------------------------

  /** The history shows at most this many calls. */
  const HistoryLimit: nat := 10

  /** A history body is cut to this many characters. */
  const BodyPreview: nat := 100

  /** `s.substring(0, 100)`. */
  function Preview(s: string): (r: string)
    ensures |r| <= BodyPreview
    ensures |r| <= |s| && r == s[..|r|]
    ensures |s| <= BodyPreview ==> r == s
    ensures |s| > BodyPreview ==> |r| == BodyPreview
  {
    if |s| <= BodyPreview then s else s[..BodyPreview]
  }

  const EmptyHistoryText: string := "Votre historique d'appels API est vide."

  function HistoryHeader(count: nat): string {
    "**Votre historique d'appels API** (" + NatToString(count) + " derniers):\n\n"
  }

  /** The heading of the listing's closing suggestions. */
  const HistoryFooter: string := "Vous pouvez:\n"

  /** The body line of a history entry: a preview of the data below status 400, else the stored error. */
  function HistoryBodyLine(h: HistoryEntry, stringify: Json -> string): string {
    if h.status < 400 then "   Réponse: " + Preview(stringify(h.response.data)) + "...\n"
    else "   Erreur: " + h.response.error + "\n"
  }

  function HistoryBlock(index: nat, h: HistoryEntry, localeDateTime: int -> string, stringify: Json -> string): string {
    NatToString(index) + ". **" + h.httpMethod + " " + h.endpoint + "**\n"
    + "   " + localeDateTime(h.timestamp) + " (" + IntToString(h.duration) + "ms)\n"
    + "   Statut: " + IntToString(h.status) + "\n"
    + HistoryBodyLine(h, stringify)
    + "\n"
  }

  /** The blocks of the history listing, numbered from 1. */
  function HistoryBlocks(history: seq<HistoryEntry>, localeDateTime: int -> string, stringify: Json -> string): (blocks: seq<string>)
    ensures |blocks| == |history|
    ensures forall k :: 0 <= k < |history| ==> blocks[k] == HistoryBlock(k + 1, history[k], localeDateTime, stringify)
  {
    Numbered(history, 1, (i, h) => HistoryBlock(i, h, localeDateTime, stringify))
  }

  /** The history blocks as an indexed sequence. */
  lemma HistoryBlocksIndexed(history: seq<HistoryEntry>, localeDateTime: int -> string, stringify: Json -> string)
    ensures HistoryBlocks(history, localeDateTime, stringify)
      == seq(|history|, k requires 0 <= k < |history| => HistoryBlock(k + 1, history[k], localeDateTime, stringify))
  {
  }

  /** The history listing: a fixed text when empty, else the entries carried as data. */
  function HistoryResponse(history: seq<HistoryEntry>, localeDateTime: int -> string, stringify: Json -> string): (r: Reply)
    ensures r.kind == ApiKind
    ensures |history| == 0 <==> r.payload == NoPayload
    ensures |history| == 0 ==> r.response == EmptyHistoryText
    ensures |history| > 0 ==> r.payload == HistoryData(history)
  {
    if |history| == 0 then Plain(EmptyHistoryText)
    else
      Reply(HistoryHeader(|history|) + Concat(HistoryBlocks(history, localeDateTime, stringify)) + HistoryFooter, ApiKind, false, HistoryData(history))
  }

  /** A non-empty history listing shows the count and every entry, numbered from 1. */
  lemma HistoryShowsAll(history: seq<HistoryEntry>, localeDateTime: int -> string, stringify: Json -> string)
    requires |history| > 0
    ensures HistoryResponse(history, localeDateTime, stringify).response ==
      HistoryHeader(|history|)
      + Concat(seq(|history|, k requires 0 <= k < |history| => HistoryBlock(k + 1, history[k], localeDateTime, stringify)))
      + HistoryFooter
  {
    HistoryBlocksIndexed(history, localeDateTime, stringify);
  }

  // ---------------------------------------------------------------------------
  // Endpoint call
  // ---------------------------------------------------------------------------

  function NotFoundText(identifier: string, endpoints: seq<Endpoint>): string {
    "Je n'ai pas trouvé l'endpoint " + identifier + ". Voici les endpoints disponibles:\n\n"
    + Join(seq(|endpoints|, k requires 0 <= k < |endpoints| =>
        NatToString(k + 1) + ". " + endpoints[k].httpMethod + " " + endpoints[k].path), "\n")
  }

  /** The text of a failed call; the closing advice is not modelled. */
  function CallFailedText(e: Endpoint, status: int, error: string): string {
    "L'appel à **" + e.httpMethod + " " + e.path + "** a échoué:\n"
    + "Statut: " + IntToString(status) + "\n"
    + "Erreur: " + error + "\n\n"
  }

  const TruncatedNote: string := "*Les données ont été tronquées pour une meilleure lisibilité.*\n"

  /** The heading of the closing suggestions after a call. */
  const NextSteps: string := "\n**Prochaines étapes**:\n"

  /** `result.headers['content-type']`, when it is a non-empty string. */
  function ContentType(headers: map<string, string>): Option<string> {
    if "content-type" in headers && headers["content-type"] != "" then Some(headers["content-type"]) else None
  }

  /** The success text with its optional content-type line and truncation note. */
  function CallSucceededText(e: Endpoint, result: CallResult, stringifyIndented: Json -> string): string {
    var response := "**Résultat de " + e.httpMethod + " " + e.path + "**\n\n"
      + "Temps de réponse: " + IntToString(result.duration) + "ms\n"
      + "**Statut**: " + IntToString(result.status) + "\n\n";
    var response := match ContentType(result.headers)
      case Some(t) => response + "**Type**: " + t + "\n\n"
      case None => response;
    var response := response + "**Données**:\n```json\n" + stringifyIndented(result.data) + "\n" + "```\n";
    var response := if result.rawData != result.data then response + TruncatedNote else response;
    response + NextSteps
  }

  /**
   * `formatEndpointCallResponse`: a failure text (and no data) exactly when the result
   * carries an error; otherwise the success text, with the raw data as the reply's data.
   */
  function CallResponse(e: Endpoint, result: CallResult, stringifyIndented: Json -> string): (r: Reply)
    ensures r.kind == ApiKind && !r.exploration
    ensures TextTruthy(result.error) <==> r.payload == NoPayload
    ensures TextTruthy(result.error) ==> r.response == CallFailedText(e, result.status, result.error.value)
    ensures !TextTruthy(result.error) ==>
      r.payload == CallData(result.rawData) && r.response == CallSucceededText(e, result, stringifyIndented)
  {
    if TextTruthy(result.error) then Plain(CallFailedText(e, result.status, result.error.value))
    else Reply(CallSucceededText(e, result, stringifyIndented), ApiKind, false, CallData(result.rawData))
  }

  // ---------------------------------------------------------------------------
  // Other fixed texts
  // ---------------------------------------------------------------------------

  const QuitText: string := "J'ai quitté le mode exploration API."

  const NoSessionText: string := "Aucune session API active."

  function DocumentationText(documentation: string): string {
    "Voici la documentation de l'API:\n\n```markdown\n" + documentation + "\n```"
  }

  /** The help text of API mode, without its command list. */
  function HelpText(apiUrl: string): string {
    "Je suis en mode exploration de l'API **" + apiUrl + "**.\n\n"
  }

  const HistoryClearedText: string := "Votre historique a été effacé avec succès."
  const HistoryNotClearedText: string := "Impossible d'effacer l'historique."

  function FavoriteRemovedText(name: string): string {
    "Le favori \"" + name + "\" a été supprimé."
  }

  /** The confirmation of a removal is never the text of a refused one. */
  lemma FavoriteRemovedTextDiffers(name: string)
    ensures FavoriteRemovedText(name) != FavoriteNotRemovedText
  {
    assert FavoriteRemovedText(name)[0] == 'L' != FavoriteNotRemovedText[0];
  }

  const FavoriteNotRemovedText: string := "Impossible de supprimer le favori."

  function DomainAddedText(domain: string): string {
    "Le domaine **" + domain + "** a été ajouté à la liste des domaines autorisés."
  }

  const UnknownCommandText: string := "Commande non reconnue."

  // Prefixes of the error replies.
  const ExploreFailedPrefix: string := "Impossible d'explorer l'API: "
  const DocumentationFailedPrefix: string := "Impossible de générer la documentation: "
  const FavoriteFailedPrefix: string := "Impossible d'ajouter aux favoris: "
  const FavoritesFailedPrefix: string := "Impossible de récupérer les favoris: "
  const HistoryFailedPrefix: string := "Impossible de récupérer l'historique: "
  const ListingFailedPrefix: string := "Impossible de lister les endpoints: "
  const CallFailedPrefix: string := "Erreur lors de l'appel à l'endpoint: "
  const TurnFailedPrefix: string := "Une erreur est survenue: "

  /** The message of the `TypeError` thrown when a field of a missing mirror entry is assigned. */
  function MissingContextMessage(field: string): string {
    "Cannot set properties of undefined (setting '" + field + "')"
  }
}
