/**
 * The values the API prober hands to the chat service, and the prober itself as a
 * set of call outcomes. The prober's internals are not part of this model: every
 * operation the chat service invokes on it is a function from its arguments to an
 * `Outcome`, so a caller can fix any answer or any failure for a turn.
 */
module ApiTypes {
  import opened Outcomes

  /** A JSON value returned by a probed API. */
  datatype Json =
    | JNull
    | JBool(b: bool)
    | JNumber(n: int)
    | JString(s: string)
    | JArray(items: seq<Json>)
    | JObject(members: seq<(string, Json)>)

  /** JavaScript truthiness of a JSON value (`null`, `false`, `0` and `""` are falsy). */
  predicate JsonTruthy(j: Json) {
    !(j.JNull? || j == JBool(false) || j == JNumber(0) || j == JString(""))
  }

  /** A discovered endpoint; absent optional fields are `None`. */
  datatype Endpoint = Endpoint(
    httpMethod: string,
    path: string,
    description: string,
    status: Option<int>,
    responseTime: Option<int>,
    sampleResponse: Option<Json>)

  /** What `exploreApi` returns. */
  datatype ApiInfo = ApiInfo(endpoints: seq<Endpoint>)

  /** A saved API, as `getUserFavorites` lists it. */
  datatype Favorite = Favorite(id: string, url: string, name: string, description: string, lastUsed: int)

  /** The record handed to `addToFavorites`. */
  datatype FavoriteRequest = FavoriteRequest(url: string, name: string, description: string)

  /** The stored answer of an earlier call, as the history keeps it. */
  datatype StoredResponse = StoredResponse(data: Json, error: string)

  /** One entry of `getUserHistory`. */
  datatype HistoryEntry = HistoryEntry(
    httpMethod: string,
    endpoint: string,
    timestamp: int,
    duration: int,
    status: int,
    response: StoredResponse)

  /** The options object passed to `callEndpoint`. */
  datatype CallOptions = CallOptions(httpMethod: string, userId: string, favoriteId: Option<string>)

  /** What `callEndpoint` returns. */
  datatype CallResult = CallResult(
    status: int,
    duration: int,
    headers: map<string, string>,
    data: Json,
    rawData: Json,
    error: Option<string>)

  /** The prober's operations, each as the outcome it gives for its arguments. */
  datatype Explorer = Explorer(
    exploreApi: (string, string) -> Outcome<ApiInfo>,
    generateApiDocumentation: ApiInfo -> Outcome<string>,
    addToFavorites: (string, FavoriteRequest) -> Outcome<Favorite>,
    getUserFavorites: string -> Outcome<seq<Favorite>>,
    getUserHistory: (string, nat) -> Outcome<seq<HistoryEntry>>,
    callEndpoint: (string, string, CallOptions) -> Outcome<CallResult>,
    clearUserHistory: string -> Outcome<bool>,
    removeFavorite: string -> Outcome<bool>)

  /** A request the chat service sends to the prober, recorded in the order it is sent. */
  datatype Call =
    | ExploreApi(url: string, userId: string)
    | GenerateApiDocumentation(info: ApiInfo)
    | AddToFavorites(userId: string, request: FavoriteRequest)
    | GetUserFavorites(userId: string)
    | GetUserHistory(userId: string, limit: nat)
    | CallEndpoint(url: string, path: string, options: CallOptions)
    | ClearUserHistory(userId: string)
    | RemoveFavorite(favoriteId: string)
    | AddAllowedDomain(domain: string)

  /**
   * The host's clock and the host functions whose output is not modelled:
   * locale date formatting and `JSON.stringify` (compact and two-space indented).
   */
  datatype Host = Host(
    now: int,
    localeDate: int -> string,
    localeDateTime: int -> string,
    stringify: Json -> string,
    stringifyIndented: Json -> string)
}
