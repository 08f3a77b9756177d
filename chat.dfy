/**
 * The chat service's mode router (backend/services/chatService.js).
 *
 * A user is in API mode exactly while the session store holds a session for them. The
 * service also keeps an in-memory mirror of the exploration context per user, which
 * carries the endpoint last called and the favourite id. Each handler is specified by a
 * pure step function from the state before the turn and the prober's answers to the
 * reply, the new mirror and the requests sent to the prober, in order; the methods of
 * `ChatService` perform the same steps on the object's fields.
 */
module Chat {
  import opened Outcomes
  import opened Text
  import opened ApiTypes
  import opened Intent
  import opened Replies
  import RagStub

  /** A persisted exploration session. */
  datatype Session = Session(apiUrl: string, startedAt: int, exploredEndpoints: seq<string>)

  /** A mirror entry. */
  datatype Context = Context(apiUrl: string, explorationTime: int, currentEndpoint: Option<string>, favoriteId: Option<string>)

  /** The `currentContext` of an envelope. */
  datatype Snapshot = Snapshot(apiUrl: string, explorationTime: int)

  datatype Mode = NormalMode | ApiMode

  /** What `handleMessage` returns: the handler's reply with the mode and context added. */
  datatype Envelope = Envelope(reply: Reply, mode: Mode, currentContext: Option<Snapshot>)

  type Mirror = map<string, Context>
  type Storage = map<string, Session>

  /** A handler's effect: its reply, the mirror after it, and the prober requests it sent. */
  datatype Step = Step(reply: Reply, mirror: Mirror, calls: seq<Call>)

  /** A handler that does not touch the mirror. */
  datatype Answer = Answer(reply: Reply, calls: seq<Call>)

  /** A whole turn. */
  datatype Turn = Turn(envelope: Envelope, storage: Storage, mirror: Mirror, calls: seq<Call>)

  /** Mirror entries (or sessions) of users other than `userId` are the same in `a` and `b`. */
  ghost predicate SameElsewhere<V>(a: map<string, V>, b: map<string, V>, userId: string) {
    forall v :: v != userId ==> (v in a <==> v in b) && (v in a ==> a[v] == b[v])
  }

  /** `deleteSession(userId, apiUrl)`. */
  function DeleteSession(storage: Storage, userId: string, apiUrl: string): (r: Storage)
    ensures SameElsewhere(storage, r, userId)
    ensures userId in storage && storage[userId].apiUrl == apiUrl ==> userId !in r
    ensures !(userId in storage && storage[userId].apiUrl == apiUrl) ==> r == storage
  {
    if userId in storage && storage[userId].apiUrl == apiUrl then storage - {userId} else storage
  }

  // ---------------------------------------------------------------------------
  // Exploration bootstrap
  // ---------------------------------------------------------------------------

  /**
   * `handleApiExploration`: the mirror entry is reset before the prober is asked; a
   * failure removes it again and gives an error reply.
   */
  function ExplorationStep(mirror: Mirror, userId: string, apiUrl: string, ex: Explorer, host: Host): (st: Step)
    ensures st.calls == [ExploreApi(apiUrl, userId)]
    ensures SameElsewhere(mirror, st.mirror, userId)
    ensures ex.exploreApi(apiUrl, userId).Ok? ==>
      && st.mirror == mirror[userId := Context(apiUrl, host.now, None, None)]
      && st.reply == ExplorationResponse(ex.exploreApi(apiUrl, userId).value, apiUrl, host.stringify)
    ensures ex.exploreApi(apiUrl, userId).Err? ==>
      && userId !in st.mirror
      && st.reply == Failure(ExploreFailedPrefix, ex.exploreApi(apiUrl, userId).message)
  {
    var initialized := mirror[userId := Context(apiUrl, host.now, None, None)];
    var calls := [ExploreApi(apiUrl, userId)];
    match ex.exploreApi(apiUrl, userId)
    case Ok(info) => Step(ExplorationResponse(info, apiUrl, host.stringify), initialized, calls)
    case Err(msg) => Step(Failure(ExploreFailedPrefix, msg), initialized - {userId}, calls)
  }

  /** The `exploredEndpoints` recorded with a new session: the paths of the reply's endpoints, if it has any. */
  function ExploredPaths(reply: Reply): (r: seq<string>)
    ensures reply.payload.ExplorationData? ==>
      |r| == |reply.payload.endpoints| &&
      forall k :: 0 <= k < |r| ==> r[k] == reply.payload.endpoints[k].path
    ensures !reply.payload.ExplorationData? ==> r == []
  {
    match reply.payload
    case ExplorationData(_, endpoints) => seq(|endpoints|, k requires 0 <= k < |endpoints| => endpoints[k].path)
    case _ => []
  }

  // ---------------------------------------------------------------------------
  // Follow-up handlers
  // ---------------------------------------------------------------------------

  /** "montre la documentation": explore again, then generate the documentation. */
  function DocumentationAnswer(userId: string, apiUrl: string, ex: Explorer): Answer {
    match ex.exploreApi(apiUrl, userId)
    case Err(msg) => Answer(Failure(DocumentationFailedPrefix, msg), [ExploreApi(apiUrl, userId)])
    case Ok(info) =>
      var calls := [ExploreApi(apiUrl, userId), GenerateApiDocumentation(info)];
      match ex.generateApiDocumentation(info)
      case Err(msg) => Answer(Failure(DocumentationFailedPrefix, msg), calls)
      case Ok(doc) => Answer(Plain(DocumentationText(doc)), calls)
  }

  /** The favourite record: the API's URL, a name from today's date and a description from the time. */
  function FavoriteRequestFor(apiUrl: string, host: Host): FavoriteRequest {
    FavoriteRequest(apiUrl, "API " + host.localeDate(host.now), "Explorée le " + host.localeDateTime(host.now))
  }

  /**
   * `handleAddToFavorites`. The favourite is saved first; its id is then written into
   * the mirror entry, and when there is no entry the assignment throws, so the reply is
   * an error although the favourite was saved.
   */
  function AddToFavoritesStep(mirror: Mirror, userId: string, apiUrl: string, ex: Explorer, host: Host): (st: Step)
    ensures st.calls == [AddToFavorites(userId, FavoriteRequestFor(apiUrl, host))]
    ensures SameElsewhere(mirror, st.mirror, userId)
    ensures st.reply.kind == ApiKind <==> ex.addToFavorites(userId, FavoriteRequestFor(apiUrl, host)).Ok? && userId in mirror
    ensures st.reply.kind == ApiKind ==>
      var id := ex.addToFavorites(userId, FavoriteRequestFor(apiUrl, host)).value.id;
      && st.mirror == mirror[userId := mirror[userId].(favoriteId := Some(id))]
      && st.reply.payload == FavoriteIdData(id)
    ensures st.reply.kind != ApiKind ==> st.mirror == mirror && st.reply.kind == ErrorKind
  {
    var request := FavoriteRequestFor(apiUrl, host);
    var calls := [AddToFavorites(userId, request)];
    match ex.addToFavorites(userId, request)
    case Err(msg) => Step(Failure(FavoriteFailedPrefix, msg), mirror, calls)
    case Ok(favorite) =>
      if userId !in mirror then
        Step(Failure(FavoriteFailedPrefix, MissingContextMessage("favoriteId")), mirror, calls)
      else
        var context := mirror[userId].(favoriteId := Some(favorite.id));
        Step(Reply(FavoriteAddedText, ApiKind, false, FavoriteIdData(favorite.id)), mirror[userId := context], calls)
  }

  /** `handleListFavorites`. */
  function ListFavoritesAnswer(userId: string, ex: Explorer, host: Host): Answer {
    var calls := [GetUserFavorites(userId)];
    match ex.getUserFavorites(userId)
    case Err(msg) => Answer(Failure(FavoritesFailedPrefix, msg), calls)
    case Ok(favorites) => Answer(FavoritesResponse(favorites, host.localeDateTime), calls)
  }

  /** `handleShowHistory`: the last ten calls are asked for. */
  function ShowHistoryAnswer(userId: string, ex: Explorer, host: Host): Answer {
    var calls := [GetUserHistory(userId, HistoryLimit)];
    match ex.getUserHistory(userId, HistoryLimit)
    case Err(msg) => Answer(Failure(HistoryFailedPrefix, msg), calls)
    case Ok(history) => Answer(HistoryResponse(history, host.localeDateTime, host.stringify), calls)
  }

  /** The endpoint-listing branch: explore again and list every endpoint. */
  function ListEndpointsAnswer(userId: string, apiUrl: string, ex: Explorer): Answer {
    var calls := [ExploreApi(apiUrl, userId)];
    match ex.exploreApi(apiUrl, userId)
    case Err(msg) => Answer(Failure(ListingFailedPrefix, msg), calls)
    case Ok(info) => Answer(ListingResponse(apiUrl, info.endpoints), calls)
  }

  // ---------------------------------------------------------------------------
  // Endpoint resolution and call
  // ---------------------------------------------------------------------------

  /** The first index at or after `i` whose path equals `identifier`, ignoring case. */
  function FirstPathMatch(endpoints: seq<Endpoint>, identifier: string, i: nat): (r: Option<nat>)
    decreases |endpoints| - i
    ensures r.Some? ==> i <= r.value < |endpoints| && Lower(endpoints[r.value].path) == Lower(identifier)
    ensures r.Some? ==> forall j :: i <= j < r.value ==> Lower(endpoints[j].path) != Lower(identifier)
    ensures r.None? ==> forall j :: i <= j < |endpoints| ==> Lower(endpoints[j].path) != Lower(identifier)
  {
    if i >= |endpoints| then None
    else if Lower(endpoints[i].path) == Lower(identifier) then Some(i)
    else FirstPathMatch(endpoints, identifier, i + 1)
  }

  /**
   * Which endpoint an identifier names: a number N names the N-th endpoint (none for 0
   * or past the end); a path names the first endpoint with that path, ignoring case.
   */
  function ResolveEndpoint(endpoints: seq<Endpoint>, identifier: string): (r: Option<nat>)
    ensures r.Some? ==> r.value < |endpoints|
    ensures IsNumeral(identifier) ==>
      (r.Some? <==> 1 <= ParseNat(identifier) <= |endpoints|) &&
      (r.Some? ==> r.value == ParseNat(identifier) - 1)
    ensures !IsNumeral(identifier) && r.Some? ==>
      Lower(endpoints[r.value].path) == Lower(identifier) &&
      forall j :: 0 <= j < r.value ==> Lower(endpoints[j].path) != Lower(identifier)
    ensures !IsNumeral(identifier) && r.None? ==>
      forall j :: 0 <= j < |endpoints| ==> Lower(endpoints[j].path) != Lower(identifier)
  {
    if IsNumeral(identifier) then
      var index := ParseNat(identifier) - 1;
      if 0 <= index < |endpoints| then Some(index) else None
    else
      FirstPathMatch(endpoints, identifier, 0)
  }

  /**
   * `handleEndpointCall`. After exploring again and resolving the identifier, the mirror
   * entry's `currentEndpoint` is set before the endpoint is called with the entry's
   * favourite id; a missing entry makes that assignment throw.
   */
  function EndpointCallStep(mirror: Mirror, userId: string, apiUrl: string, identifier: string, ex: Explorer, host: Host): (st: Step)
    ensures |st.calls| >= 1 && st.calls[0] == ExploreApi(apiUrl, userId)
    ensures SameElsewhere(mirror, st.mirror, userId)
  {
    var explored := [ExploreApi(apiUrl, userId)];
    match ex.exploreApi(apiUrl, userId)
    case Err(msg) => Step(Failure(CallFailedPrefix, msg), mirror, explored)
    case Ok(info) =>
      match ResolveEndpoint(info.endpoints, identifier)
      case None => Step(Plain(NotFoundText(identifier, info.endpoints)), mirror, explored)
      case Some(index) =>
        var endpoint := info.endpoints[index];
        if userId !in mirror then
          Step(Failure(CallFailedPrefix, MissingContextMessage("currentEndpoint")), mirror, explored)
        else
          var context := mirror[userId].(currentEndpoint := Some(endpoint.path));
          var options := CallOptions(endpoint.httpMethod, userId, context.favoriteId);
          var calls := explored + [CallEndpoint(apiUrl, endpoint.path, options)];
          match ex.callEndpoint(apiUrl, endpoint.path, options)
          case Err(msg) => Step(Failure(CallFailedPrefix, msg), mirror[userId := context], calls)
          case Ok(result) => Step(CallResponse(endpoint, result, host.stringifyIndented), mirror[userId := context], calls)
  }

  /** An endpoint the identifier does not name: the listing of all endpoints, nothing else changes, nothing is called. */
  lemma EndpointNotFound(mirror: Mirror, userId: string, apiUrl: string, identifier: string, ex: Explorer, host: Host)
    requires ex.exploreApi(apiUrl, userId).Ok?
    requires ResolveEndpoint(ex.exploreApi(apiUrl, userId).value.endpoints, identifier).None?
    ensures var st := EndpointCallStep(mirror, userId, apiUrl, identifier, ex, host);
      && st.mirror == mirror
      && st.calls == [ExploreApi(apiUrl, userId)]
      && st.reply == Plain(NotFoundText(identifier, ex.exploreApi(apiUrl, userId).value.endpoints))
  {
  }

  /**
   * A resolved endpoint with a mirror entry: only the entry's `currentEndpoint` changes
   * (whatever the call's outcome), the call forwards the endpoint's method and the
   * entry's favourite id, and its result or its error is the reply.
   */
  lemma EndpointFound(mirror: Mirror, userId: string, apiUrl: string, identifier: string, ex: Explorer, host: Host)
    requires ex.exploreApi(apiUrl, userId).Ok?
    requires ResolveEndpoint(ex.exploreApi(apiUrl, userId).value.endpoints, identifier).Some?
    requires userId in mirror
    ensures var info := ex.exploreApi(apiUrl, userId).value;
      var e := info.endpoints[ResolveEndpoint(info.endpoints, identifier).value];
      var st := EndpointCallStep(mirror, userId, apiUrl, identifier, ex, host);
      && st.mirror == mirror[userId := mirror[userId].(currentEndpoint := Some(e.path))]
      && st.mirror[userId].apiUrl == mirror[userId].apiUrl
      && st.mirror[userId].explorationTime == mirror[userId].explorationTime
      && st.mirror[userId].favoriteId == mirror[userId].favoriteId
      && st.calls == [ExploreApi(apiUrl, userId), CallEndpoint(apiUrl, e.path, CallOptions(e.httpMethod, userId, mirror[userId].favoriteId))]
      && st.reply == (match ex.callEndpoint(apiUrl, e.path, CallOptions(e.httpMethod, userId, mirror[userId].favoriteId))
                      case Err(msg) => Failure(CallFailedPrefix, msg)
                      case Ok(result) => CallResponse(e, result, host.stringifyIndented))
  {
  }

  /** A failed exploration: the error is reported, nothing else changes, nothing is called. */
  lemma EndpointExplorationFails(mirror: Mirror, userId: string, apiUrl: string, identifier: string, ex: Explorer, host: Host)
    requires ex.exploreApi(apiUrl, userId).Err?
    ensures var st := EndpointCallStep(mirror, userId, apiUrl, identifier, ex, host);
      && st.reply == Failure(CallFailedPrefix, ex.exploreApi(apiUrl, userId).message)
      && st.mirror == mirror
      && st.calls == [ExploreApi(apiUrl, userId)]
  {
  }

  /** A resolved endpoint without a mirror entry: an error reply and no call. */
  lemma EndpointWithoutContext(mirror: Mirror, userId: string, apiUrl: string, identifier: string, ex: Explorer, host: Host)
    requires ex.exploreApi(apiUrl, userId).Ok?
    requires ResolveEndpoint(ex.exploreApi(apiUrl, userId).value.endpoints, identifier).Some?
    requires userId !in mirror
    ensures var st := EndpointCallStep(mirror, userId, apiUrl, identifier, ex, host);
      st.reply.kind == ErrorKind && st.mirror == mirror && st.calls == [ExploreApi(apiUrl, userId)]
  {
  }

  // ---------------------------------------------------------------------------
  // The follow-up dispatcher
  // ---------------------------------------------------------------------------

  /** `handleApiFollowup`: the branch `FollowupActionOf` picks, against the stored session's URL. */
  function FollowupStep(storage: Storage, mirror: Mirror, userId: string, message: string, ex: Explorer, host: Host): (st: Step)
    ensures SameElsewhere(mirror, st.mirror, userId)
    ensures userId !in storage ==> st == Step(Failure("", NoSessionText), mirror, [])
  {
    if userId !in storage then Step(Failure("", NoSessionText), mirror, [])
    else
      var apiUrl := storage[userId].apiUrl;
      match FollowupActionOf(message)
      case Leave => Step(Plain(QuitText), mirror - {userId}, [])
      case ShowDocumentation =>
        var a := DocumentationAnswer(userId, apiUrl, ex); Step(a.reply, mirror, a.calls)
      case AddFavorite => AddToFavoritesStep(mirror, userId, apiUrl, ex, host)
      case ListFavorites =>
        var a := ListFavoritesAnswer(userId, ex, host); Step(a.reply, mirror, a.calls)
      case ShowHistory =>
        var a := ShowHistoryAnswer(userId, ex, host); Step(a.reply, mirror, a.calls)
      case ListEndpoints =>
        var a := ListEndpointsAnswer(userId, apiUrl, ex); Step(a.reply, mirror, a.calls)
      case InvokeEndpoint(identifier) => EndpointCallStep(mirror, userId, apiUrl, identifier, ex, host)
      case Help => Step(Plain(HelpText(apiUrl)), mirror, [])
  }

  /** A follow-up mentioning "endpoint" after none of the earlier commands is answered by the listing, and calls no endpoint. */
  lemma EndpointMentionIsListed(storage: Storage, mirror: Mirror, userId: string, message: string, ex: Explorer, host: Host)
    requires userId in storage
    requires Contains(Lower(message), "endpoint")
    requires FollowupActionOf(message) !in {Leave, ShowDocumentation, AddFavorite, ListFavorites, ShowHistory}
    ensures var apiUrl := storage[userId].apiUrl;
      var st := FollowupStep(storage, mirror, userId, message, ex, host);
      && st.mirror == mirror
      && st.calls == [ExploreApi(apiUrl, userId)]
      && st.reply == (match ex.exploreApi(apiUrl, userId)
                      case Err(msg) => Failure(ListingFailedPrefix, msg)
                      case Ok(info) => ListingResponse(apiUrl, info.endpoints))
  {
    EndpointWordLists(message);
  }

  // ---------------------------------------------------------------------------
  // Special commands (normal mode)
  // ---------------------------------------------------------------------------

  /** `handleSpecialCommand`. Its prober failures are not caught here: they are the `Err` outcome. */
  datatype SpecialStep = SpecialStep(outcome: Outcome<Reply>, calls: seq<Call>)

  function SpecialCommandStep(message: string, userId: string, ex: Explorer): (sp: SpecialStep)
    ensures sp.outcome.Ok? ==> sp.outcome.value.kind == ApiKind
  {
    if Contains(Lower(message), "efface mon historique") then
      var calls := [ClearUserHistory(userId)];
      match ex.clearUserHistory(userId)
      case Err(msg) => SpecialStep(Err(msg), calls)
      case Ok(success) => SpecialStep(Ok(Plain(if success then HistoryClearedText else HistoryNotClearedText)), calls)
    else
      var removal := RemovalStep(message, userId, ex);
      if removal.outcome.Some? then SpecialStep(removal.outcome.value, removal.calls)
      else
        match FirstMatch(AddDomainPattern, message)
        case Some(domain) => SpecialStep(Ok(Plain(DomainAddedText(domain))), removal.calls + [AddAllowedDomain(domain)])
        case None => SpecialStep(Ok(Plain(UnknownCommandText)), removal.calls)
  }

  /**
   * A message matching none of the three handled commands (clearing the history,
   * "supprime le favori N", "ajoute le domaine X") gets the unknown-command reply and
   * sends no request.
   */
  lemma UnknownCommand(message: string, userId: string, ex: Explorer)
    requires !Contains(Lower(message), "efface mon historique")
    requires FirstMatch(RemoveFavoritePattern, message).None?
    requires FirstMatch(AddDomainPattern, message).None?
    ensures SpecialCommandStep(message, userId, ex) == SpecialStep(Ok(Plain(UnknownCommandText)), [])
  {
  }

  /** The favourite-removal branch; `outcome` is `None` when it falls through to the next branch. */
  datatype Removal = Removal(outcome: Option<Outcome<Reply>>, calls: seq<Call>)

  function RemovalStep(message: string, userId: string, ex: Explorer): (r: Removal)
    ensures FirstMatch(RemoveFavoritePattern, message).None? ==> r == Removal(None, [])
    ensures r.outcome.Some? && r.outcome.value.Ok? ==> r.outcome.value.value.kind == ApiKind
  {
    match FirstMatch(RemoveFavoritePattern, message)
    case None => Removal(None, [])
    case Some(digits) =>
      var calls := [GetUserFavorites(userId)];
      match ex.getUserFavorites(userId)
      case Err(msg) => Removal(Some(Err(msg)), calls)
      case Ok(favorites) =>
        var index := NumeralValue(digits) - 1;
        if 0 <= index < |favorites| then
          var favorite := favorites[index];
          var calls := calls + [RemoveFavorite(favorite.id)];
          match ex.removeFavorite(favorite.id)
          case Err(msg) => Removal(Some(Err(msg)), calls)
          case Ok(success) =>
            Removal(Some(Ok(Plain(if success then FavoriteRemovedText(favorite.name) else FavoriteNotRemovedText))), calls)
        else Removal(None, calls)
  }

  /** `parseInt` of a capture of digits (anything else reads as 0, which selects nothing). */
  function NumeralValue(s: string): nat {
    if forall i :: 0 <= i < |s| ==> IsDigit(s[i]) then ParseNat(s) else 0
  }

  /**
   * "supprime le favori N" with 1 <= N <= the number of favourites removes the N-th
   * favourite by its id; the reply names it exactly when the removal succeeded, and a
   * failed request is rethrown.
   */
  lemma RemovalInRange(message: string, userId: string, ex: Explorer)
    requires FirstMatch(RemoveFavoritePattern, message).Some?
    requires ex.getUserFavorites(userId).Ok?
    requires 1 <= NumeralValue(FirstMatch(RemoveFavoritePattern, message).value) <= |ex.getUserFavorites(userId).value|
    ensures
      var favorite := ex.getUserFavorites(userId).value[NumeralValue(FirstMatch(RemoveFavoritePattern, message).value) - 1];
      var r := RemovalStep(message, userId, ex);
      && r.calls == [GetUserFavorites(userId), RemoveFavorite(favorite.id)]
      && (r.outcome == Some(Ok(Plain(FavoriteRemovedText(favorite.name)))) <==> ex.removeFavorite(favorite.id) == Ok(true))
      && (ex.removeFavorite(favorite.id) == Ok(false) ==> r.outcome == Some(Ok(Plain(FavoriteNotRemovedText))))
      && (ex.removeFavorite(favorite.id).Err? ==> r.outcome == Some(Err(ex.removeFavorite(favorite.id).message)))
  {
    var favorite := ex.getUserFavorites(userId).value[NumeralValue(FirstMatch(RemoveFavoritePattern, message).value) - 1];
    if ex.removeFavorite(favorite.id) == Ok(false) {
      FavoriteRemovedTextDiffers(favorite.name);
    }
  }

  /** A failed favourites request during a removal is rethrown after that one request. */
  lemma RemovalListingFails(message: string, userId: string, ex: Explorer)
    requires FirstMatch(RemoveFavoritePattern, message).Some?
    requires ex.getUserFavorites(userId).Err?
    ensures RemovalStep(message, userId, ex) == Removal(Some(Err(ex.getUserFavorites(userId).message)), [GetUserFavorites(userId)])
  {
  }

  /** A favourite number outside the list removes nothing and falls through to the later branches. */
  lemma RemovalOutOfRangeFallsThrough(message: string, userId: string, ex: Explorer)
    requires !Contains(Lower(message), "efface mon historique")
    requires FirstMatch(RemoveFavoritePattern, message).Some?
    requires ex.getUserFavorites(userId).Ok?
    requires !(1 <= NumeralValue(FirstMatch(RemoveFavoritePattern, message).value) <= |ex.getUserFavorites(userId).value|)
    requires FirstMatch(AddDomainPattern, message).None?
    ensures SpecialCommandStep(message, userId, ex) == SpecialStep(Ok(Plain(UnknownCommandText)), [GetUserFavorites(userId)])
  {
  }

  /** `handleRagQuery`: the stub's answer, as a reply of type `rag`. */
  function RagReply(message: string): (r: Reply)
    ensures r.kind == RagKind && r.payload == SourcesData([])
    ensures r.response == RagStub.ApiHint || r.response == RagStub.NotImplemented
  {
    var answer := RagStub.Query(message);
    Reply(answer.response, RagKind, false, SourcesData(answer.sources))
  }

  // ---------------------------------------------------------------------------
  // A whole turn
  // ---------------------------------------------------------------------------

  /**
   * The API-mode branch of `handleMessage`: an exit phrase deletes the session and
   * returns to normal mode; anything else is a follow-up against the stored session.
   */
  function ApiModeTurn(storage: Storage, mirror: Mirror, userId: string, message: string, ex: Explorer, host: Host): (t: Turn)
    requires userId in storage
    ensures SameElsewhere(storage, t.storage, userId) && SameElsewhere(mirror, t.mirror, userId)
    ensures WantsToQuitApiMode(message) ==>
      t == Turn(Envelope(Plain(QuitText), NormalMode, None), storage - {userId}, mirror, [])
    ensures !WantsToQuitApiMode(message) ==>
      && t.storage == storage
      && t.envelope.mode == ApiMode
      && t.envelope.currentContext == Some(Snapshot(storage[userId].apiUrl, storage[userId].startedAt))
  {
    var session := storage[userId];
    if WantsToQuitApiMode(message) then
      Turn(Envelope(Plain(QuitText), NormalMode, None), DeleteSession(storage, userId, session.apiUrl), mirror, [])
    else
      var st := FollowupStep(storage, mirror, userId, message, ex, host);
      Turn(Envelope(st.reply, ApiMode, Some(Snapshot(session.apiUrl, session.startedAt))), storage, st.mirror, st.calls)
  }

  /**
   * The exploration branch of `handleMessage`: explore, then persist a session for the
   * URL whatever the outcome, with the paths of the endpoints the reply carries.
   */
  function BootstrapTurn(storage: Storage, mirror: Mirror, userId: string, apiUrl: string, ex: Explorer, host: Host): (t: Turn)
    ensures SameElsewhere(storage, t.storage, userId) && SameElsewhere(mirror, t.mirror, userId)
    ensures t.envelope.mode == ApiMode && t.envelope.currentContext == Some(Snapshot(apiUrl, host.now))
    ensures userId in t.storage && t.storage[userId].apiUrl == apiUrl && t.storage[userId].startedAt == host.now
    ensures ex.exploreApi(apiUrl, userId).Err? ==>
      && t.envelope.reply.kind == ErrorKind
      && userId !in t.mirror
      && t.storage == storage[userId := Session(apiUrl, host.now, [])]
    ensures ex.exploreApi(apiUrl, userId).Ok? ==>
      var endpoints := ex.exploreApi(apiUrl, userId).value.endpoints;
      && |t.storage[userId].exploredEndpoints| == |endpoints|
      && (forall k :: 0 <= k < |endpoints| ==> t.storage[userId].exploredEndpoints[k] == endpoints[k].path)
      && userId in t.mirror && t.mirror[userId] == Context(apiUrl, host.now, None, None)
  {
    var st := ExplorationStep(mirror, userId, apiUrl, ex, host);
    var explored := ex.exploreApi(apiUrl, userId);
    assert explored.Err? ==> st.reply.payload == NoPayload;
    assert explored.Ok? && |explored.value.endpoints| > 0 ==> st.reply.payload == ExplorationData(apiUrl, explored.value.endpoints);
    Turn(Envelope(st.reply, ApiMode, Some(Snapshot(apiUrl, host.now))),
         storage[userId := Session(apiUrl, host.now, ExploredPaths(st.reply))], st.mirror, st.calls)
  }

  /**
   * The normal-mode branch of `handleMessage`: a special command, else the stub. A
   * prober failure escaping the special commands becomes an error reply.
   */
  function NormalTurn(storage: Storage, mirror: Mirror, userId: string, message: string, ex: Explorer): (t: Turn)
    ensures t.storage == storage && t.mirror == mirror
    ensures t.envelope.mode == NormalMode && t.envelope.currentContext.None?
    ensures !IsSpecialCommand(message) ==> t.envelope.reply == RagReply(message) && t.calls == []
    ensures IsSpecialCommand(message) ==> t.calls == SpecialCommandStep(message, userId, ex).calls
    ensures IsSpecialCommand(message) && SpecialCommandStep(message, userId, ex).outcome.Err? ==>
      t.envelope.reply == Failure(TurnFailedPrefix, SpecialCommandStep(message, userId, ex).outcome.message)
  {
    if IsSpecialCommand(message) then
      var sp := SpecialCommandStep(message, userId, ex);
      match sp.outcome
      case Ok(reply) => Turn(Envelope(reply, NormalMode, None), storage, mirror, sp.calls)
      case Err(msg) => Turn(Envelope(Failure(TurnFailedPrefix, msg), NormalMode, None), storage, mirror, sp.calls)
    else
      Turn(Envelope(RagReply(message), NormalMode, None), storage, mirror, [])
  }

  /** `handleMessage`: API mode exactly when the store holds a session for the user. */
  function TurnStep(storage: Storage, mirror: Mirror, userId: string, message: string, ex: Explorer, host: Host): (t: Turn) {
    if userId in storage then ApiModeTurn(storage, mirror, userId, message, ex, host)
    else
      match ExtractApiUrl(message)
      case Some(apiUrl) => BootstrapTurn(storage, mirror, userId, apiUrl, ex, host)
      case None => NormalTurn(storage, mirror, userId, message, ex)
  }

  /** A quit phrase in API mode deletes the session and returns to normal mode; nothing else changes. */
  lemma QuitLeavesApiMode(storage: Storage, mirror: Mirror, userId: string, message: string, ex: Explorer, host: Host)
    requires userId in storage && WantsToQuitApiMode(message)
    ensures var t := TurnStep(storage, mirror, userId, message, ex, host);
      && t.storage == storage - {userId}
      && t.mirror == mirror
      && t.calls == []
      && t.envelope == Envelope(Plain(QuitText), NormalMode, None)
  {
    assert TurnStep(storage, mirror, userId, message, ex, host) == ApiModeTurn(storage, mirror, userId, message, ex, host);
  }

  /**
   * Any other message in API mode is a follow-up: the session is kept, the mode stays
   * `api`, the context is the stored session's, and the follow-up never takes its own
   * (shadowed) quit branch.
   */
  lemma FollowupStaysInApiMode(storage: Storage, mirror: Mirror, userId: string, message: string, ex: Explorer, host: Host)
    requires userId in storage && !WantsToQuitApiMode(message)
    ensures var t := TurnStep(storage, mirror, userId, message, ex, host);
      && t.storage == storage
      && t.envelope.mode == ApiMode
      && t.envelope.currentContext == Some(Snapshot(storage[userId].apiUrl, storage[userId].startedAt))
      && FollowupActionOf(message) != Leave
  {
    assert TurnStep(storage, mirror, userId, message, ex, host) == ApiModeTurn(storage, mirror, userId, message, ex, host);
    if FollowupActionOf(message) == Leave {
      LeaveNeedsExitPhrase(message);
    }
  }

  /**
   * A failed bootstrap exploration removes the mirror entry, yet the turn is still
   * labelled `api` and a session with no explored endpoints is still persisted.
   */
  lemma FailedBootstrapStillPersists(storage: Storage, mirror: Mirror, userId: string, message: string, ex: Explorer, host: Host)
    requires userId !in storage
    requires ExtractApiUrl(message).Some?
    requires ex.exploreApi(ExtractApiUrl(message).value, userId).Err?
    ensures var t := TurnStep(storage, mirror, userId, message, ex, host);
      var apiUrl := ExtractApiUrl(message).value;
      && t.envelope.reply.kind == ErrorKind
      && t.envelope.mode == ApiMode
      && userId !in t.mirror
      && t.storage == storage[userId := Session(apiUrl, host.now, [])]
  {
    var apiUrl := ExtractApiUrl(message).value;
    assert TurnStep(storage, mirror, userId, message, ex, host) == BootstrapTurn(storage, mirror, userId, apiUrl, ex, host);
  }

  /** A successful bootstrap persists the session with the paths of all discovered endpoints and a fresh mirror entry. */
  lemma BootstrapRecordsPaths(storage: Storage, mirror: Mirror, userId: string, message: string, ex: Explorer, host: Host)
    requires userId !in storage
    requires ExtractApiUrl(message).Some?
    requires ex.exploreApi(ExtractApiUrl(message).value, userId).Ok?
    ensures var t := TurnStep(storage, mirror, userId, message, ex, host);
      var apiUrl := ExtractApiUrl(message).value;
      var endpoints := ex.exploreApi(apiUrl, userId).value.endpoints;
      && userId in t.storage
      && t.storage[userId].apiUrl == apiUrl
      && |t.storage[userId].exploredEndpoints| == |endpoints|
      && (forall k :: 0 <= k < |endpoints| ==> t.storage[userId].exploredEndpoints[k] == endpoints[k].path)
      && userId in t.mirror && t.mirror[userId] == Context(apiUrl, host.now, None, None)
      && t.envelope.mode == ApiMode
  {
    var apiUrl := ExtractApiUrl(message).value;
    assert TurnStep(storage, mirror, userId, message, ex, host) == BootstrapTurn(storage, mirror, userId, apiUrl, ex, host);
  }

  /** In normal mode without an exploration request: a special command, else the stub; either way in normal mode, storage and mirror untouched. */
  lemma NormalModeCascade(storage: Storage, mirror: Mirror, userId: string, message: string, ex: Explorer, host: Host)
    requires userId !in storage && ExtractApiUrl(message).None?
    ensures var t := TurnStep(storage, mirror, userId, message, ex, host);
      && t.storage == storage && t.mirror == mirror
      && t.envelope.mode == NormalMode && t.envelope.currentContext.None?
      && (!IsSpecialCommand(message) ==> t.envelope.reply == RagReply(message) && t.calls == [])
      && (IsSpecialCommand(message) ==> t.calls == SpecialCommandStep(message, userId, ex).calls)
  {
    assert TurnStep(storage, mirror, userId, message, ex, host) == NormalTurn(storage, mirror, userId, message, ex);
  }

  /** A prober failure escaping the special commands becomes an `error` reply in normal mode with no context. */
  lemma EscapedFailure(storage: Storage, mirror: Mirror, userId: string, message: string, ex: Explorer, host: Host)
    requires userId !in storage && ExtractApiUrl(message).None? && IsSpecialCommand(message)
    requires SpecialCommandStep(message, userId, ex).outcome.Err?
    ensures var t := TurnStep(storage, mirror, userId, message, ex, host);
      t.envelope == Envelope(Failure(TurnFailedPrefix, SpecialCommandStep(message, userId, ex).outcome.message), NormalMode, None)
  {
    assert TurnStep(storage, mirror, userId, message, ex, host) == NormalTurn(storage, mirror, userId, message, ex);
  }

  /** After every turn, the envelope's mode is `api` exactly when the store holds a session for the user. */
  lemma ModeMatchesStorage(storage: Storage, mirror: Mirror, userId: string, message: string, ex: Explorer, host: Host)
    ensures var t := TurnStep(storage, mirror, userId, message, ex, host);
      t.envelope.mode == ApiMode <==> userId in t.storage
  {
    var t := TurnStep(storage, mirror, userId, message, ex, host);
    if userId in storage {
      assert t == ApiModeTurn(storage, mirror, userId, message, ex, host);
    } else if ExtractApiUrl(message).Some? {
      assert t == BootstrapTurn(storage, mirror, userId, ExtractApiUrl(message).value, ex, host);
    } else {
      assert t == NormalTurn(storage, mirror, userId, message, ex);
    }
  }

  /** A turn changes no other user's session or mirror entry. */
  lemma TurnTouchesOnlyUser(storage: Storage, mirror: Mirror, userId: string, message: string, ex: Explorer, host: Host)
    ensures var t := TurnStep(storage, mirror, userId, message, ex, host);
      SameElsewhere(storage, t.storage, userId) && SameElsewhere(mirror, t.mirror, userId)
  {
    var t := TurnStep(storage, mirror, userId, message, ex, host);
    if userId in storage {
      assert t == ApiModeTurn(storage, mirror, userId, message, ex, host);
    } else if ExtractApiUrl(message).Some? {
      assert t == BootstrapTurn(storage, mirror, userId, ExtractApiUrl(message).value, ex, host);
    } else {
      assert t == NormalTurn(storage, mirror, userId, message, ex);
    }
  }

  // ---------------------------------------------------------------------------
  // Staleness sweep
  // ---------------------------------------------------------------------------

  /** A mirror entry is kept while it is under two hours old. */
  const StaleAfterMillis: int := 2 * 60 * 60 * 1000

  predicate Fresh(context: Context, now: int) {
    now - context.explorationTime < StaleAfterMillis
  }

  /** The mirror after `cleanupInactiveContexts`. */
  function Sweep(mirror: Mirror, now: int): (r: Mirror)
    ensures forall u :: u in r <==> u in mirror && Fresh(mirror[u], now)
    ensures forall u :: u in r ==> r[u] == mirror[u]
  {
    map u | u in mirror && Fresh(mirror[u], now) :: mirror[u]
  }

  /** Sweeping twice at the same time is sweeping once. */
  lemma SweepIdempotent(mirror: Mirror, now: int)
    ensures Sweep(Sweep(mirror, now), now) == Sweep(mirror, now)
  {
  }

  /** A later sweep keeps no more entries than an earlier one. */
  lemma SweepMonotone(mirror: Mirror, earlier: int, later: int)
    requires earlier <= later
    ensures Sweep(mirror, later).Keys <= Sweep(mirror, earlier).Keys
  {
  }

  /** An entry three hours old is gone after the sweep. */
  lemma ThreeHoursIsStale(mirror: Mirror, userId: string, now: int)
    requires userId in mirror && mirror[userId].explorationTime == now - 3 * 60 * 60 * 1000
    ensures userId !in Sweep(mirror, now)
  {
  }

  // ---------------------------------------------------------------------------
  // The service object
  // ---------------------------------------------------------------------------

  class ChatService {
    /** The in-memory mirror, keyed by user id. */
    var apiContext: Mirror
    /** The session store's records, keyed by user id. */
    var storage: Storage
    /** Every request sent to the prober, in order. */
    var outbound: seq<Call>

    constructor(persisted: Storage)
      ensures apiContext == map[] && storage == persisted && outbound == []
    {
      apiContext := map[];
      storage := persisted;
      outbound := [];
    }

    /** The favourite-removal branch of `handleSpecialCommand`; `None` falls through. */
    method HandleRemoval(message: string, userId: string, ex: Explorer) returns (removal: Option<Outcome<Reply>>)
      modifies this`outbound
      ensures var r := RemovalStep(message, userId, ex);
        removal == r.outcome && outbound == old(outbound) + r.calls
    {
      var digits := FirstMatch(RemoveFavoritePattern, message);
      if digits.None? {
        return None;
      }
      outbound := outbound + [GetUserFavorites(userId)];
      var favorites := ex.getUserFavorites(userId);
      if favorites.Err? {
        return Some(Err(favorites.message));
      }
      var index := NumeralValue(digits.value) - 1;
      if !(0 <= index < |favorites.value|) {
        return None;
      }
      var favorite := favorites.value[index];
      outbound := outbound + [RemoveFavorite(favorite.id)];
      var removed := ex.removeFavorite(favorite.id);
      if removed.Err? {
        return Some(Err(removed.message));
      }
      return Some(Ok(Plain(if removed.value then FavoriteRemovedText(favorite.name) else FavoriteNotRemovedText)));
    }

    /** `getUserContext`. */
    function GetUserContext(userId: string): (r: Option<Context>)
      reads this
      ensures r.Some? <==> userId in apiContext
      ensures r.Some? ==> r.value == apiContext[userId]
    {
      if userId in apiContext then Some(apiContext[userId]) else None
    }

    method HandleMessage(message: string, userId: string, ex: Explorer, host: Host) returns (envelope: Envelope)
      modifies this
      ensures var t := TurnStep(old(storage), old(apiContext), userId, message, ex, host);
        && envelope == t.envelope
        && storage == t.storage
        && apiContext == t.mirror
        && outbound == old(outbound) + t.calls
    {
      if userId in storage {
        envelope := HandleApiModeMessage(message, userId, ex, host);
      } else {
        var apiUrl := ExtractApiUrl(message);
        if apiUrl.Some? {
          envelope := HandleBootstrap(apiUrl.value, userId, ex, host);
        } else {
          envelope := HandleNormalMessage(message, userId, ex);
        }
      }
    }

    /** The API-mode branch of `handleMessage`. */
    method HandleApiModeMessage(message: string, userId: string, ex: Explorer, host: Host) returns (envelope: Envelope)
      requires userId in storage
      modifies this
      ensures var t := ApiModeTurn(old(storage), old(apiContext), userId, message, ex, host);
        && envelope == t.envelope
        && storage == t.storage
        && apiContext == t.mirror
        && outbound == old(outbound) + t.calls
    {
      var session := storage[userId];
      if WantsToQuitApiMode(message) {
        storage := DeleteSession(storage, userId, session.apiUrl);
        envelope := Envelope(Plain(QuitText), NormalMode, None);
      } else {
        var reply := HandleApiFollowup(message, userId, ex, host);
        envelope := Envelope(reply, ApiMode, Some(Snapshot(session.apiUrl, session.startedAt)));
      }
    }

    /** The exploration branch of `handleMessage`. */
    method HandleBootstrap(apiUrl: string, userId: string, ex: Explorer, host: Host) returns (envelope: Envelope)
      modifies this
      ensures var t := BootstrapTurn(old(storage), old(apiContext), userId, apiUrl, ex, host);
        && envelope == t.envelope
        && storage == t.storage
        && apiContext == t.mirror
        && outbound == old(outbound) + t.calls
    {
      var reply := HandleApiExploration(apiUrl, userId, ex, host);
      envelope := Envelope(reply, ApiMode, Some(Snapshot(apiUrl, host.now)));
      storage := storage[userId := Session(apiUrl, host.now, ExploredPaths(reply))];
    }

    /** The normal-mode branch of `handleMessage`. */
    method HandleNormalMessage(message: string, userId: string, ex: Explorer) returns (envelope: Envelope)
      modifies this`outbound
      ensures var t := NormalTurn(storage, apiContext, userId, message, ex);
        && envelope == t.envelope
        && outbound == old(outbound) + t.calls
    {
      if IsSpecialCommand(message) {
        var outcome := HandleSpecialCommand(message, userId, ex);
        match outcome {
          case Ok(reply) => envelope := Envelope(reply, NormalMode, None);
          case Err(msg) => envelope := Envelope(Failure(TurnFailedPrefix, msg), NormalMode, None);
        }
      } else {
        envelope := Envelope(RagReply(message), NormalMode, None);
      }
    }

    method HandleApiExploration(apiUrl: string, userId: string, ex: Explorer, host: Host) returns (reply: Reply)
      modifies this`apiContext, this`outbound
      ensures var st := ExplorationStep(old(apiContext), userId, apiUrl, ex, host);
        reply == st.reply && apiContext == st.mirror && outbound == old(outbound) + st.calls
    {
      ghost var st := ExplorationStep(apiContext, userId, apiUrl, ex, host);
      apiContext := apiContext[userId := Context(apiUrl, host.now, None, None)];
      outbound := outbound + [ExploreApi(apiUrl, userId)];
      var explored := ex.exploreApi(apiUrl, userId);
      if explored.Ok? {
          reply := ExplorationResponse(explored.value, apiUrl, host.stringify);
          assert reply == st.reply;
          assert apiContext == st.mirror;
      } else {
          apiContext := apiContext - {userId};
          reply := Failure(ExploreFailedPrefix, explored.message);
          assert reply == st.reply;
          assert apiContext == st.mirror;
      }
    }

    method HandleApiFollowup(message: string, userId: string, ex: Explorer, host: Host) returns (reply: Reply)
      modifies this`apiContext, this`outbound
      ensures var st := FollowupStep(old(storage), old(apiContext), userId, message, ex, host);
        reply == st.reply && apiContext == st.mirror && outbound == old(outbound) + st.calls
    {
      if userId !in storage {
        return Failure("", NoSessionText);
      }
      var apiUrl := storage[userId].apiUrl;
      ghost var st := FollowupStep(storage, apiContext, userId, message, ex, host);
      var action := FollowupActionOf(message);
      if action == Leave {
        apiContext := apiContext - {userId};
        reply := Plain(QuitText);
      } else if action == ShowDocumentation {
        outbound := outbound + [ExploreApi(apiUrl, userId)];
        var explored := ex.exploreApi(apiUrl, userId);
        if explored.Err? {
          reply := Failure(DocumentationFailedPrefix, explored.message);
        } else {
          outbound := outbound + [GenerateApiDocumentation(explored.value)];
          var documentation := ex.generateApiDocumentation(explored.value);
          if documentation.Err? {
            reply := Failure(DocumentationFailedPrefix, documentation.message);
          } else {
            reply := Plain(DocumentationText(documentation.value));
          }
        }
        assert reply == st.reply;
      } else if action == AddFavorite {
        reply := HandleAddToFavorites(userId, apiUrl, ex, host);
      } else if action == ListFavorites {
        reply := HandleListFavorites(userId, ex, host);
      } else if action == ShowHistory {
        reply := HandleShowHistory(userId, ex, host);
      } else if action == ListEndpoints {
        outbound := outbound + [ExploreApi(apiUrl, userId)];
        var explored := ex.exploreApi(apiUrl, userId);
        if explored.Err? {
          reply := Failure(ListingFailedPrefix, explored.message);
        } else {
          reply := ListingResponse(apiUrl, explored.value.endpoints);
        }
        assert reply == st.reply;
      } else if action.InvokeEndpoint? {
        reply := HandleEndpointCall(userId, apiUrl, action.identifier, ex, host);
      } else {
        reply := Plain(HelpText(apiUrl));
      }
    }

    method HandleAddToFavorites(userId: string, apiUrl: string, ex: Explorer, host: Host) returns (reply: Reply)
      modifies this`apiContext, this`outbound
      ensures var st := AddToFavoritesStep(old(apiContext), userId, apiUrl, ex, host);
        reply == st.reply && apiContext == st.mirror && outbound == old(outbound) + st.calls
    {
      var request := FavoriteRequestFor(apiUrl, host);
      outbound := outbound + [AddToFavorites(userId, request)];
      var added := ex.addToFavorites(userId, request);
      match added {
        case Err(msg) =>
          reply := Failure(FavoriteFailedPrefix, msg);
        case Ok(favorite) =>
          if userId !in apiContext {
            reply := Failure(FavoriteFailedPrefix, MissingContextMessage("favoriteId"));
          } else {
            var context := apiContext[userId];
            context := context.(favoriteId := Some(favorite.id));
            apiContext := apiContext[userId := context];
            reply := Reply(FavoriteAddedText, ApiKind, false, FavoriteIdData(favorite.id));
          }
      }
    }

    method HandleListFavorites(userId: string, ex: Explorer, host: Host) returns (reply: Reply)
      modifies this`outbound
      ensures var a := ListFavoritesAnswer(userId, ex, host);
        reply == a.reply && outbound == old(outbound) + a.calls
    {
      outbound := outbound + [GetUserFavorites(userId)];
      var favorites := ex.getUserFavorites(userId);
      match favorites {
        case Err(msg) => reply := Failure(FavoritesFailedPrefix, msg);
        case Ok(list) => reply := FavoritesResponse(list, host.localeDateTime);
      }
    }

    method HandleShowHistory(userId: string, ex: Explorer, host: Host) returns (reply: Reply)
      modifies this`outbound
      ensures var a := ShowHistoryAnswer(userId, ex, host);
        reply == a.reply && outbound == old(outbound) + a.calls
    {
      outbound := outbound + [GetUserHistory(userId, HistoryLimit)];
      var history := ex.getUserHistory(userId, HistoryLimit);
      match history {
        case Err(msg) => reply := Failure(HistoryFailedPrefix, msg);
        case Ok(entries) => reply := HistoryResponse(entries, host.localeDateTime, host.stringify);
      }
    }

    method HandleEndpointCall(userId: string, apiUrl: string, identifier: string, ex: Explorer, host: Host) returns (reply: Reply)
      modifies this`apiContext, this`outbound
      ensures var st := EndpointCallStep(old(apiContext), userId, apiUrl, identifier, ex, host);
        reply == st.reply && apiContext == st.mirror && outbound == old(outbound) + st.calls
    {
      var context := GetUserContext(userId);
      outbound := outbound + [ExploreApi(apiUrl, userId)];
      var explored := ex.exploreApi(apiUrl, userId);
      if explored.Err? {
        return Failure(CallFailedPrefix, explored.message);
      }
      var endpoints := explored.value.endpoints;
      var index := ResolveEndpoint(endpoints, identifier);
      if index.None? {
        return Plain(NotFoundText(identifier, endpoints));
      }
      var endpoint := endpoints[index.value];
      if context.None? {
        return Failure(CallFailedPrefix, MissingContextMessage("currentEndpoint"));
      }
      var updated := context.value.(currentEndpoint := Some(endpoint.path));
      apiContext := apiContext[userId := updated];
      var options := CallOptions(endpoint.httpMethod, userId, updated.favoriteId);
      outbound := outbound + [CallEndpoint(apiUrl, endpoint.path, options)];
      var result := ex.callEndpoint(apiUrl, endpoint.path, options);
      match result {
        case Err(msg) => reply := Failure(CallFailedPrefix, msg);
        case Ok(r) => reply := CallResponse(endpoint, r, host.stringifyIndented);
      }
    }

    method HandleSpecialCommand(message: string, userId: string, ex: Explorer) returns (outcome: Outcome<Reply>)
      modifies this`outbound
      ensures var sp := SpecialCommandStep(message, userId, ex);
        outcome == sp.outcome && outbound == old(outbound) + sp.calls
    {
      if Contains(Lower(message), "efface mon historique") {
        outbound := outbound + [ClearUserHistory(userId)];
        var cleared := ex.clearUserHistory(userId);
        match cleared {
          case Err(msg) => return Err(msg);
          case Ok(success) =>
            return Ok(Plain(if success then HistoryClearedText else HistoryNotClearedText));
        }
      }
      var removal := HandleRemoval(message, userId, ex);
      if removal.Some? {
        return removal.value;
      }
      var domain := FirstMatch(AddDomainPattern, message);
      if domain.Some? {
        outbound := outbound + [AddAllowedDomain(domain.value)];
        return Ok(Plain(DomainAddedText(domain.value)));
      }
      return Ok(Plain(UnknownCommandText));
    }

    /** `cleanupInactiveContexts`: keeps the fresh entries, swaps the mirror, and returns its size. */
    method CleanupInactiveContexts(now: int) returns (size: nat)
      modifies this`apiContext
      ensures apiContext == Sweep(old(apiContext), now)
      ensures size == |apiContext|
    {
      var pending := apiContext.Keys;
      var active: Mirror := map[];
      while pending != {}
        invariant pending <= apiContext.Keys
        invariant forall u :: u in active <==> u in apiContext && u !in pending && Fresh(apiContext[u], now)
        invariant forall u :: u in active ==> active[u] == apiContext[u]
        decreases |pending|
      {
        var userId :| userId in pending;
        if Fresh(apiContext[userId], now) {
          active := active[userId := apiContext[userId]];
        }
        pending := pending - {userId};
      }
      assert active == Sweep(apiContext, now);
      apiContext := active;
      size := |active|;
    }
  }
}
