# Chat service and retrieval pipeline — a Dafny model

This project models the conversation core of a chat backend that has two modes:

- **Normal mode.** Questions go to a question-answering stub.
- **API mode.** The user points the service at a web API. The service explores the API, lists its endpoints, calls them, keeps favourites and shows the call history.

A user is in API mode exactly while the session store holds a session for them. Alongside the store, the service keeps an in-memory mirror of the exploration context, keyed by user. The mirror records the endpoint last called and the favourite id, and a periodic sweep drops entries older than two hours.

The model is split into eight files:

- `intent.dfy` (module `Intent`): the classifiers of `backend/services/chatService.js`. These are the exit phrases, the URL extraction with its keyword and indicator lists, the special commands, and the order in which the API-mode follow-up tests its commands. The capturing regular expressions are modelled as a leftmost-match search over a small pattern type.
- `replies.dfy` (module `Replies`): the replies the handlers build:
  - the exploration summary, capped at ten endpoints;
  - the unbounded endpoint listing;
  - the favourites and history listings, with the history body preview cut at 100 characters;
  - the endpoint-call result and the not-found listing;
  - the fixed texts and error prefixes.
- `chat.dfy` (module `Chat`): the handlers.
  - Each handler is a pure step function. It maps the state before the turn and the prober's answers to the reply, the new mirror and the requests sent to the prober, in order. `TurnStep` is the mode router `handleMessage`. It dispatches to one function per branch: `ApiModeTurn`, `BootstrapTurn` and `NormalTurn`.
  - The class `ChatService` holds the mirror (`apiContext`), the session store (`storage`) and the log of prober requests (`outbound`) as fields. Its methods update these fields step by step, as the source does, and each method is proved equal to its step function.
  - `CleanupInactiveContexts` is a loop over the mirror, proved to compute `Sweep`.
- `rag_stub.dfy` (module `RagStub`): `query` of `backend/services/ragService.js`. It is a keyword test and one of two fixed answers.
- `rag.dfy` (module `Rag`): `RAGService` of `backend/services/rag.js`:
  - the greeting test;
  - the context joined from the search hits;
  - `formatSources`, as a method with both of its loops, proved against `FormatSourcesSpec`;
  - the pipeline `processQuestion`, with the embedding model, the adaptive threshold, the vector search and the completion model as collaborators whose answers are parameters.
- `api_types.dfy`, `text.dfy`, `outcomes.dfy`: the values exchanged with the API prober (`apiExplorer`), string helpers, and the `Option`/`Outcome` wrappers.

The prober, the session store's recorded effects, the clock, the locale formatting and the JSON rendering are inputs:

- **Prober:** a datatype of total functions returning `Outcome`s, so any answer or failure can be fixed for a turn.
- **Session store:** a map, modelled by its effect on its records.
- **Clock, locale formatting, JSON rendering:** the fields of `Host`.

### Behaviours of the code worth noting

- **Failed first exploration still persists a session.** When the first exploration fails, `handleMessage` persists a session anyway, with no explored endpoints, and labels the turn `api`. (`Chat.FailedBootstrapStillPersists`).
- **The follow-up's own quit branch can never run.** Both of its phrases are exit phrases, which the router handles first (`Intent.LeaveNeedsExitPhrase`).
- **"Appelle l'endpoint 2" in API mode lists the endpoints instead of calling the second.** The message contains "endpoint", and the listing branch is tested before the call patterns (`Intent.CallNeverMentionsEndpoint`, `Chat.EndpointMentionIsListed`).
- **"ajoute un domaine" is never handled.** `isSpecialCommand` accepts "ajoute un domaine", but the handler only recognises "ajoute le domaine", so such a message gets the unknown-command reply (`Intent.AddUnDomaineIsSpecial`, `Chat.UnknownCommand`).
- **"mes favoris" in normal mode also gets the unknown-command reply.** The handler of the special commands has no branch for it.
- **One search per question.** `processQuestion` searches once, with the adaptive threshold; an empty result is answered with the not-found text straight away (`Rag.NoHitsNotFound`).
- **Distinct sources can collide.** The source deduplication key `${title}-${author}` can join two different books to the same key (`Rag.KeyCollision`).

## Model

| member | source | states |
|---|---|---|
| Intent.LeftmostAt | backend/services/chatService.js:354-355 | the position found is where the pattern matches, and it matches at no earlier position; none is found only when it matches nowhere |
| Intent.FirstMatchIsLeftmost | backend/services/chatService.js:134-135 | `match` returns the capture at the leftmost matching position whenever there is one |
| Intent.Identifier | backend/services/chatService.js:354 | the endpoint capture `(\d+\|\/[^\s]+)` is space-free, and it is either all digits or a slash followed by at least one character |
| Intent.WantsToQuitApiMode | backend/services/chatService.js:103-112 | true exactly when the lowered message contains one of the seven exit phrases |
| Intent.NormalizeUrl | backend/services/chatService.js:139 | the result ends with "/", extends the URL by at most that slash, and leaves a URL already ending in "/" unchanged |
| Intent.ExplicitPhraseImpliesApiIntent | backend/services/chatService.js:157-159 | each of the three explicit phrases already contains an intent keyword and "api", so the second rule accepts nothing the first rule rejects |
| Intent.ExtractApiUrl | backend/services/chatService.js:117-168 | a URL is returned exactly when the message has a URL match, an intent keyword and an API indicator (in the URL, or "api" in the message); it is the first match with a trailing slash |
| Intent.ExtractedUrlShape | backend/services/chatService.js:134-139 | the returned URL is the maximal run of non-space characters from the leftmost "http://" or "https://", with a trailing slash |
| Intent.EndpointQuestionsReduce | backend/services/chatService.js:315-321 | the seven listing phrases amount to "endpoint", "quels points de terminaison", "quels sont les points" or "disponibles" |
| Intent.CallNeverMentionsEndpoint | backend/services/chatService.js:315-360 | a message that reaches the endpoint-call branch never contains "endpoint" or "disponibles" |
| Intent.EndpointWordLists | backend/services/chatService.js:314-321 | a follow-up that mentions "endpoint" and none of the earlier commands takes the listing branch |
| Intent.LeaveNeedsExitPhrase | backend/services/chatService.js:269-277 | the follow-up's own quit branch requires a message the router already treats as an exit |
| Intent.AddUnDomaineIsSpecial | backend/services/chatService.js:597-610 | a message containing "ajoute un domaine", in any case, is a special command |
| RagStub.Query | backend/services/ragService.js:14-41 | no sources and never relevant; the suggestion is present, and the answer is the API hint, exactly when the lowered question contains one of the six keywords |
| RagStub.PublicApisRedundant | backend/services/ragService.js:17-22 | the keyword "publicapis" never changes the outcome, since it contains "api" |
| RagStub.QueryDependsOnlyOnKeywords | backend/services/ragService.js:16-41 | two questions that agree on the keyword test get the same answer |
| RagStub.QueryIgnoresCase | backend/services/ragService.js:16 | a question and its lower-cased form get the same answer |
| Replies.Failure | backend/services/chatService.js:189-194 | an `error` reply with no extra field, whose text ends with the collaborator's message |
| Replies.ExplorationResponse | backend/services/chatService.js:201-248 | an `api` reply marked as exploration; with no endpoints, the fixed text and no data; otherwise the data holds the URL and all endpoints |
| Replies.ExplorationListsFirstTen | backend/services/chatService.js:213-237 | the summary is the header with the total count, blocks for the first min(n, 10) endpoints numbered from 1, the "n - 10 autres" line exactly when n > 10, then the commands |
| Replies.ListingResponse | backend/services/chatService.js:323-344 | an `api` reply with no extra field |
| Replies.ListingShowsAll | backend/services/chatService.js:326-339 | the listing has a block for every endpoint, numbered from 1, with no cap |
| Replies.FavoritesResponse | backend/services/chatService.js:414-449 | with no favourites, the fixed text and no data; otherwise the favourites are carried as data |
| Replies.FavoritesShowsAll | backend/services/chatService.js:425-436 | the listing shows the count and a block for every favourite, numbered from 1 |
| Replies.Preview | backend/services/chatService.js:473 | `substring(0, 100)`: a prefix of the text of length min(len, 100) |
| Replies.HistoryResponse | backend/services/chatService.js:454-495 | with no history, the fixed text and no data; otherwise the entries are carried as data |
| Replies.HistoryBlocks | backend/services/chatService.js:467-478 | one block per history entry, the k-th numbered k + 1 |
| Replies.HistoryShowsAll | backend/services/chatService.js:465-482 | the listing shows the count and a block for every entry, numbered from 1 |
| Replies.CallResponse | backend/services/chatService.js:554-592 | a truthy `result.error` gives the failure text with the status and error and no data; otherwise the success text with `rawData` as data |
| Chat.DeleteSession | backend/services/chatService.js:41 | the user's session is removed when its URL matches, and no other session changes |
| Chat.ExplorationStep | backend/services/chatService.js:173-196 | one exploration request; on success the mirror entry is reset and the summary returned; on failure the entry is removed and an error returned; other users are untouched |
| Chat.ExploredPaths | backend/services/chatService.js:71-73 | the explored endpoints recorded are the paths of the reply's endpoints, in order, or none when the reply has no data |
| Chat.AddToFavoritesStep | backend/services/chatService.js:381-409 | the favourite request uses the URL and the dated name and description; the reply is `api` exactly when saving succeeded and a mirror entry exists; it then records the id; otherwise an error and an unchanged mirror |
| Chat.FirstPathMatch | backend/services/chatService.js:512-514 | the first endpoint whose path equals the identifier ignoring case, or none when no path does |
| Chat.ResolveEndpoint | backend/services/chatService.js:506-515 | a numeral N selects the N-th endpoint exactly when 1 <= N <= count; any other identifier selects the first case-insensitive path match |
| Chat.EndpointCallStep | backend/services/chatService.js:500-549 | the endpoint call always starts with a new exploration and changes no other user's mirror entry |
| Chat.EndpointNotFound | backend/services/chatService.js:517-523 | an identifier naming no endpoint gives the listing of all endpoints, with no call made and the mirror unchanged |
| Chat.EndpointFound | backend/services/chatService.js:525-548 | a resolved endpoint sets only the entry's current endpoint and is called with its method and the entry's favourite id; the reply is the formatted call result, or the call's error after the "Erreur lors de l'appel" prefix |
| Chat.EndpointExplorationFails | backend/services/chatService.js:500-548 | a failed exploration gives the "Erreur lors de l'appel" error with its message, after that one request, with the mirror unchanged |
| Chat.EndpointWithoutContext | backend/services/chatService.js:502-527 | with no mirror entry, the assignment throws: an error reply, no call, and the mirror unchanged |
| Chat.FollowupStep | backend/services/chatService.js:253-263 | without a stored session, the no-session error with nothing changed; other users' mirror entries never change |
| Chat.EndpointMentionIsListed | backend/services/chatService.js:315-351 | a follow-up mentioning "endpoint" after none of the earlier commands makes one exploration request and is answered by the listing of the explored endpoints (or the listing error), calling no endpoint |
| Chat.SpecialCommandStep | backend/services/chatService.js:615-657 | every reply of the special commands is of type `api` |
| Chat.RemovalStep | backend/services/chatService.js:626-640 | without a "supprime le favori N" match, the branch falls through with no request |
| Chat.RemovalOutOfRangeFallsThrough | backend/services/chatService.js:626-656 | a favourite number outside the list removes nothing and ends in the unknown-command reply, after one favourites request |
| Chat.RemovalInRange | backend/services/chatService.js:626-638 | for 1 <= N <= the number of favourites, the N-th favourite is removed by its id after one favourites request; the reply names it exactly when the removal answers true, a refusal gives the failure text, and a failed request is rethrown |
| Chat.RemovalListingFails | backend/services/chatService.js:626-631 | a failed favourites request during a removal is rethrown after that one request |
| Chat.UnknownCommand | backend/services/chatService.js:615-656 | a message matching none of the history-clearing, removal and domain commands gets the unknown-command reply and sends no request |
| Chat.RagReply | backend/services/chatService.js:662-679 | a `rag` reply with no sources, whose text is one of the stub's two answers |
| Chat.ApiModeTurn | backend/services/chatService.js:37-56 | in API mode, an exit phrase deletes the session and answers in normal mode; any other message keeps the session, the `api` mode and the stored session as context; other users untouched |
| Chat.BootstrapTurn | backend/services/chatService.js:59-73 | a first exploration always persists a session for the URL at the current time, in `api` mode; on failure an error with no endpoints and no mirror entry, on success the paths of all endpoints and a fresh mirror entry |
| Chat.NormalTurn | backend/services/chatService.js:74-97 | in normal mode storage and mirror are unchanged and there is no context; a non-command goes to the stub, a command's escaped failure becomes the "Une erreur est survenue" error |
| Chat.QuitLeavesApiMode | backend/services/chatService.js:37-47 | an exit phrase in API mode deletes the session and answers in normal mode with no context; the mirror and the prober are untouched |
| Chat.FollowupStaysInApiMode | backend/services/chatService.js:48-56 | any other API-mode message keeps the session and the `api` mode, with the stored session as context |
| Chat.FailedBootstrapStillPersists | backend/services/chatService.js:61-73 | a failed first exploration gives an error reply but still persists a session with no endpoints, in `api` mode |
| Chat.BootstrapRecordsPaths | backend/services/chatService.js:61-73 | a successful first exploration persists the session with the paths of all endpoints and a fresh mirror entry |
| Chat.NormalModeCascade | backend/services/chatService.js:74-84 | in normal mode with no exploration request, a special command or else the stub answers; storage and mirror unchanged; mode normal with no context |
| Chat.EscapedFailure | backend/services/chatService.js:89-97 | a prober failure escaping a handler becomes the "Une erreur est survenue" error in normal mode |
| Chat.ModeMatchesStorage | backend/services/chatService.js:18-98 | after every turn, the mode is `api` exactly when the store holds a session for the user |
| Chat.TurnTouchesOnlyUser | backend/services/chatService.js:18-98 | a turn changes no other user's session or mirror entry |
| Chat.Sweep | backend/services/chatService.js:691-706 | keeps exactly the entries under two hours old, unchanged |
| Chat.SweepIdempotent | backend/services/chatService.js:695-702 | sweeping twice at the same time is sweeping once |
| Chat.SweepMonotone | backend/services/chatService.js:695-702 | a later sweep keeps a subset of what an earlier one keeps |
| Chat.ThreeHoursIsStale | backend/services/chatService.js:699 | an entry three hours old is dropped |
| Chat.ChatService.constructor | backend/services/chatService.js:10-13 | an empty mirror over the given store and no requests |
| Chat.ChatService.GetUserContext | backend/services/chatService.js:684-686 | the user's mirror entry, or none exactly when there is none |
| Chat.ChatService.HandleMessage | backend/services/chatService.js:18-98 | the envelope, store, mirror and request log after the turn are those of `TurnStep` |
| Chat.ChatService.HandleApiModeMessage | backend/services/chatService.js:37-56 | envelope, store, mirror and request log as `ApiModeTurn` |
| Chat.ChatService.HandleBootstrap | backend/services/chatService.js:59-73 | envelope, store, mirror and request log as `BootstrapTurn` |
| Chat.ChatService.HandleNormalMessage | backend/services/chatService.js:74-97 | envelope and request log as `NormalTurn`; only the request log changes |
| Chat.ChatService.HandleApiExploration | backend/services/chatService.js:173-196 | reply, mirror and request log as `ExplorationStep`; the store unchanged |
| Chat.ChatService.HandleApiFollowup | backend/services/chatService.js:253-376 | reply, mirror and request log as `FollowupStep`; the store unchanged |
| Chat.ChatService.HandleAddToFavorites | backend/services/chatService.js:381-409 | reply, mirror and request log as `AddToFavoritesStep` |
| Chat.ChatService.HandleListFavorites | backend/services/chatService.js:414-449 | reply and request log as `ListFavoritesAnswer`: one favourites request, then the listing or the error; mirror and store unchanged |
| Chat.ChatService.HandleShowHistory | backend/services/chatService.js:454-495 | reply and request log as `ShowHistoryAnswer`: one request for the last ten calls, then the listing or the error; mirror and store unchanged |
| Chat.ChatService.HandleEndpointCall | backend/services/chatService.js:500-549 | reply, mirror and request log as `EndpointCallStep` |
| Chat.ChatService.HandleSpecialCommand | backend/services/chatService.js:615-657 | outcome and request log as `SpecialCommandStep`; mirror and store unchanged |
| Chat.ChatService.HandleRemoval | backend/services/chatService.js:626-640 | outcome and request log as `RemovalStep`; only the request log changes |
| Chat.ChatService.CleanupInactiveContexts | backend/services/chatService.js:691-706 | the mirror becomes `Sweep` of the old one, the size returned is its new size, and nothing else changes |
| Rag.PaddedGreeting | backend/services/rag.js:107-110 | a question in any case whose lowered form is one of the four greetings padded with white space is a greeting |
| Rag.GreetingMustBeWhole | backend/services/rag.js:107-110 | any greeting followed by text containing a non-space character is not a greeting: a substring does not count |
| Rag.GreetingIsPadded | backend/services/rag.js:107-110 | every greeting is, once lowered, one of the four words padded with white space on both sides (the converse of `Rag.PaddedGreeting`) |
| Rag.TrimPadded | backend/services/rag.js:109 | trimming white space around a word gives the word |
| Text.TrimSplit | backend/services/rag.js:109 | `trim()` removes only white space: the string is its trimmed form padded with white space on both sides |
| Rag.BuildContextSnoc | backend/services/rag.js:117-119 | each further hit appends "\n---\n" and its text |
| Rag.BuildContextSingle | backend/services/rag.js:117-119 | one hit gives its text alone |
| Rag.ToSource | backend/services/rag.js:132-137 | a source has the same deduplication key as its hit |
| Rag.FormatSourcesBounded | backend/services/rag.js:126-143 | no more sources than hits, and each has a title, an author and a date |
| Rag.DedupPrefix | backend/services/rag.js:129-141 | sources are kept in first-seen order: later hits only append |
| Rag.DedupKeys | backend/services/rag.js:129-139 | a key has a deduplicated source exactly when some hit has that key |
| Rag.DedupDistinct | backend/services/rag.js:130-131 | no two deduplicated sources share a key |
| Rag.DedupKeepsFirst | backend/services/rag.js:131-138 | the first hit of each key gives the deduplicated source for that key |
| Rag.IncompleteFirstHitShadows | backend/services/rag.js:129-142 | an incomplete first hit for a key hides every later hit with that key |
| Rag.CompleteFirstHitReported | backend/services/rag.js:129-142 | a complete first hit for a key is reported |
| Rag.KeyCollision | backend/services/rag.js:130 | "a-b" by "c" and "a" by "b-c" share a key, so only the first is reported |
| Rag.FormatSources | backend/services/rag.js:126-143 | the map-then-filter loops return `FormatSourcesSpec` |
| Rag.ProcessQuestion | backend/services/rag.js:13-58 | a greeting is answered with the fixed text and makes no request; any other question starts with an embedding request, makes at most four requests, and searches with limit 3 |
| Rag.EmbeddingFailureRethrown | backend/services/rag.js:23-57 | a failed embedding is rethrown after that one request |
| Rag.SearchUsesThreshold | backend/services/rag.js:27-29 | the search asks for three hits above the question's adaptive threshold; its failure is rethrown |
| Rag.NoHitsNotFound | backend/services/rag.js:31-37 | no hits gives the fixed not-found answer with `found` false and no completion request |
| Rag.HitsAnswered | backend/services/rag.js:39-52 | with hits, one completion request with the hits' context; its answer comes with the formatted sources and `found` true; its failure is rethrown |
| Rag.AnswerSourcesComplete | backend/services/rag.js:45-52 | every reported source is complete, and an answer that found nothing is the fixed not-found answer |

## Left out

- **I/O and collaborators.** The OpenAI clients, the vector store and the prober (`apiExplorer`) are parameters whose failures are `Err` outcomes. Their internals and the network are not modelled. The prober's `addAllowedDomain` is recorded as a request and never fails.
- **Session store failures.** The session store (`apiStorage`) is the map field `storage`, and in the model it never fails. In the source, `getSession`, `deleteSession` and `createOrUpdateSession` (chatService.js:22, 41, 70) are awaited inside the `try` block, so a rejection from any of them gives the "Une erreur est survenue" envelope in normal mode. After a bootstrap, that envelope comes with the mirror entry that `handleApiExploration` has already set. These three rejection paths are left out. The code of `createOrUpdateSession` is not part of this model: a session it creates is taken to carry the turn's clock as its `startedAt`, which the API-mode context reads back (chatService.js:31).
- **The hourly timer.** The `setInterval` that triggers the cleanup is left out. `CleanupInactiveContexts` takes the current time as a parameter.
- **The unused session map.** `userSessions` is never used, so it is not modelled.
- **Console logging** is left out.
- **Floating point.** `hit.score * 100` and the hour computation of the sweep are computed exactly: on reals, and on integer milliseconds compared with two hours. Binary rounding is not modelled.
- **Dates and JSON.** Locale date formatting and `JSON.stringify` are the fields of `Host`.
- **Unicode.** Lower-casing is modelled for ASCII and Latin-1 letters only. String lengths count characters, not UTF-16 code units.
- **Number checks.** `isNaN(identifier)` is modelled as "the capture is all digits". This is exact for what the endpoint patterns can capture.
- **Comparing data.** `rawData !== data` is modelled as structural inequality of the two JSON values.
- **Fixed prose.** The fixed prose of the replies is kept as its first sentence or heading, with the emoji dropped. The completion prompt keeps only its context and question lines; the instructions around them are left out. The text interpolated into the replies is modelled exactly.
- **Interleaving.** Each turn and each sweep is modelled as atomic. In the source, `handleEndpointCall` reads the mirror entry before `await apiExplorer.exploreApi` (chatService.js:502-503) and writes it back after the await (:525-526). A cleanup fired by `setInterval` (:704, :712) that runs during the await swaps in a new mirror, and the write-back then puts the swept entry into it. `handleAddToFavorites` reads the mirror again after its await (:391-393), so two overlapping turns of the same user can interleave there as well. The model does not capture these await points.
- **Model choice.** `generateEmbedding` and `generateAnswer` are modelled by the requests they send: the model names, the temperature and the prompt's context and question. What the services return is also modelled.
- Chat.FollowupStep: its contract states only the no-session case and the frame. The branches are stated by `Intent.FollowupActionOf` and the lemmas `Chat.EndpointMentionIsListed`, `Chat.EndpointExplorationFails`, `Chat.EndpointNotFound`, `Chat.EndpointFound` and `Chat.EndpointWithoutContext`.
- Chat.SpecialCommandStep: its contract states only that replies are of type `api`. The removal branch is stated by `Chat.RemovalInRange`, `Chat.RemovalListingFails` and `Chat.RemovalOutOfRangeFallsThrough`, and the final fallback by `Chat.UnknownCommand`.
- Chat.RemovalStep: its own contract states only the no-match case and the reply type. The in-range removal and the failed favourites request are stated by `Chat.RemovalInRange` and `Chat.RemovalListingFails`, which keeps those clauses out of the proofs of the methods built on it.
- Chat.EndpointCallStep: its contract states only the first request and the frame. The outcomes are stated by `Chat.EndpointExplorationFails`, `Chat.EndpointNotFound`, `Chat.EndpointFound` and `Chat.EndpointWithoutContext`.
