/**
 * The retrieval-augmented answer pipeline (backend/services/rag.js): the greeting
 * short-circuit, the vector search, the context handed to the completion model and
 * the deduplicated list of sources. The embedding model, the vector store, the
 * adaptive threshold and the completion model are collaborators whose answers are
 * parameters.
 */
module Rag {
  import opened Outcomes
  import opened Text

  /** The stored fields of an indexed chunk; absent metadata is `None`. */
  datatype HitPayload = HitPayload(text: string, title: Option<string>, author: Option<string>, date: Option<string>)

  /** One search result with its similarity score. */
  datatype Hit = Hit(payload: HitPayload, score: real)

  /** A source as the pipeline reports it; `score` is a rounded percentage. */
  datatype Source = Source(title: Option<string>, author: Option<string>, date: Option<string>, score: int)

  /** What `processQuestion` resolves to. */
  datatype RagAnswer = RagAnswer(answer: string, sources: seq<Source>, found: bool)

  // ---------------------------------------------------------------------------
  // Greetings
  // ---------------------------------------------------------------------------

  const Greetings: seq<string> := ["salut", "bonjour", "hello", "coucou"]

  /** `isGreeting`: the lowered, trimmed question is exactly one of the four greetings. */
  predicate IsGreeting(question: string) {
    Trim(Lower(question)) in Greetings
  }

  /** A greeting word: lower case, no white space. */
  lemma GreetingsAreWords(k: nat)
    requires k < |Greetings|
    ensures Lower(Greetings[k]) == Greetings[k]
    ensures |Greetings[k]| > 0 && forall i :: 0 <= i < |Greetings[k]| ==> !IsSpace(Greetings[k][i])
  {
  }

  /** The run of white space starting at `i` ends at the first non-space character. */
  lemma {:induction false} SpaceRunEndsAt(s: string, i: nat, j: nat)
    requires i <= j < |s|
    requires forall k :: i <= k < j ==> IsSpace(s[k])
    requires !IsSpace(s[j])
    ensures RunEnd(s, i, Space) == j
    decreases j - i
  {
    if i < j {
      SpaceRunEndsAt(s, i + 1, j);
    }
  }

  /** The run of white space ending at `j` starts after the last non-space character. */
  lemma {:induction false} SpaceRunStartsAt(s: string, i: nat, j: nat)
    requires 0 < i <= j <= |s|
    requires forall k :: i <= k < j ==> IsSpace(s[k])
    requires !IsSpace(s[i - 1])
    ensures SpaceRunStart(s, j) == i
    decreases j - i
  {
    if i < j {
      SpaceRunStartsAt(s, i, j - 1);
    }
  }

  /** Trimming white space around a word that starts and ends with a non-space gives the word. */
  lemma TrimPadded(a: string, w: string, b: string)
    requires AllSpace(a) && AllSpace(b)
    requires |w| > 0 && !IsSpace(w[0]) && !IsSpace(w[|w| - 1])
    ensures Trim(a + w + b) == w
  {
    var s := a + w + b;
    SpaceRunEndsAt(s, 0, |a|);
    var t := s[|a|..];
    assert t == w + b;
    SpaceRunStartsAt(t, |w|, |t|);
    assert t[..|w|] == w;
  }

  /**
   * A question in any case whose lowered form is one of the four words padded with
   * white space is a greeting (the converse of `GreetingIsPadded`).
   */
  lemma PaddedGreeting(question: string, a: string, k: nat, b: string)
    requires k < |Greetings| && AllSpace(a) && AllSpace(b)
    requires Lower(question) == a + Greetings[k] + b
    ensures IsGreeting(question)
  {
    GreetingsAreWords(k);
    TrimPadded(a, Greetings[k], b);
  }

  /** No greeting is a proper prefix of another. */
  lemma GreetingsPrefixFree(k: nat, m: nat)
    requires k < |Greetings| && m < |Greetings|
    requires |Greetings[k]| < |Greetings[m]|
    ensures Greetings[m][..|Greetings[k]|] != Greetings[k]
  {
    assert Greetings[m][0] != Greetings[k][0];
  }

  /**
   * A question that starts with a greeting and goes on past it (some non-space
   * character follows) is not a greeting: a substring does not count.
   */
  lemma GreetingMustBeWhole(k: nat, rest: string, i: nat)
    requires k < |Greetings| && i < |rest| && !IsSpace(rest[i])
    ensures !IsGreeting(Greetings[k] + rest)
  {
    var g := Greetings[k];
    GreetingsAreWords(k);
    var s := Lower(g + rest);
    LowerAppend(g, rest);
    assert s == g + Lower(rest);
    LowerKeepsSpaces(rest[i]);
    assert !IsSpace(s[|g| + i]);
    SpaceRunEndsAt(s, 0, 0);
    assert TrimStart(s) == s;
    var t := Trim(s);
    var j := SpaceRunStart(s, |s|);
    assert t == s[..j];
    assert j > |g| + i;
    assert t[..|g|] == g;
    if t in Greetings {
      var m :| 0 <= m < |Greetings| && Greetings[m] == t;
      GreetingsPrefixFree(k, m);
      assert false;
    }
  }

  /** Every greeting is one of the four words, in any case, padded with white space. */
  lemma GreetingIsPadded(question: string)
    requires IsGreeting(question)
    ensures exists a: string, b: string, k: nat ::
      k < |Greetings| && AllSpace(a) && AllSpace(b) && Lower(question) == a + Greetings[k] + b
  {
    var s := Lower(question);
    var a, b := TrimSplit(s);
    var k :| 0 <= k < |Greetings| && Greetings[k] == Trim(s);
    assert k < |Greetings| && AllSpace(a) && AllSpace(b) && s == a + Greetings[k] + b;
  }

  // ---------------------------------------------------------------------------
  // Context
  // ---------------------------------------------------------------------------

  const ContextSeparator: string := "\n---\n"

  /** `buildContext`: the texts of the hits, in order, joined by the separator. */
  function BuildContext(hits: seq<Hit>): string {
    Join(seq(|hits|, k requires 0 <= k < |hits| => hits[k].payload.text), ContextSeparator)
  }

  /** Each further hit appends the separator and its text. */
  lemma {:induction false} BuildContextSnoc(hits: seq<Hit>, h: Hit)
    requires |hits| > 0
    ensures BuildContext(hits + [h]) == BuildContext(hits) + ContextSeparator + h.payload.text
  {
    var texts := seq(|hits|, k requires 0 <= k < |hits| => hits[k].payload.text);
    assert seq(|hits + [h]|, k requires 0 <= k < |hits + [h]| => (hits + [h])[k].payload.text) == texts + [h.payload.text];
    JoinSnoc(texts, h.payload.text, ContextSeparator);
  }

  lemma {:induction false} JoinSnoc(parts: seq<string>, x: string, sep: string)
    requires |parts| > 0
    ensures Join(parts + [x], sep) == Join(parts, sep) + sep + x
    decreases |parts|
  {
    if |parts| == 1 {
      assert parts + [x] == [parts[0], x];
      assert Join([x], sep) == x;
    } else {
      assert (parts + [x])[1..] == parts[1..] + [x];
      JoinSnoc(parts[1..], x, sep);
    }
  }

  /** One hit gives its text alone. */
  lemma BuildContextSingle(h: Hit)
    ensures BuildContext([h]) == h.payload.text
  {
  }

  // ---------------------------------------------------------------------------
  // Sources
  // ---------------------------------------------------------------------------

  /** A metadata field as a template literal renders it (`${undefined}` is "undefined"). */
  function Render(x: Option<string>): string {
    if x.Some? then x.value else "undefined"
  }

  /** The deduplication key `${title}-${author}`. */
  function HitKey(h: Hit): string {
    Render(h.payload.title) + "-" + Render(h.payload.author)
  }

  function SourceKey(s: Source): string {
    Render(s.title) + "-" + Render(s.author)
  }

  /** `Math.round(x * 100)`, rounding halves up. */
  function RoundPercent(x: real): int {
    (x * 100.0 + 0.5).Floor
  }

  function ToSource(h: Hit): (s: Source)
    ensures SourceKey(s) == HitKey(h)
  {
    Source(h.payload.title, h.payload.author, h.payload.date, RoundPercent(h.score))
  }

  /** Some hit of `hs` has this key. */
  predicate KeySeen(hs: seq<Hit>, key: string) {
    exists j :: 0 <= j < |hs| && HitKey(hs[j]) == key
  }

  /** Hit `j` is the first with its key. */
  predicate FirstOccurrence(hits: seq<Hit>, j: nat)
    requires j < |hits|
  {
    !KeySeen(hits[..j], HitKey(hits[j]))
  }

  /** The values of the map filled by the first loop, in insertion order: one source per key, the first hit's. */
  function Dedup(hits: seq<Hit>): seq<Source>
    decreases |hits|
  {
    if |hits| == 0 then []
    else
      var init := hits[..|hits| - 1];
      var h := hits[|hits| - 1];
      if KeySeen(init, HitKey(h)) then Dedup(init) else Dedup(init) + [ToSource(h)]
  }

  /** `src.title && src.author && src.date`. */
  predicate Complete(s: Source) {
    s.title.Some? && s.title.value != ""
    && s.author.Some? && s.author.value != ""
    && s.date.Some? && s.date.value != ""
  }

  /** The filter that follows deduplication. */
  function KeepComplete(ss: seq<Source>): seq<Source>
    decreases |ss|
  {
    if |ss| == 0 then []
    else
      var last := ss[|ss| - 1];
      KeepComplete(ss[..|ss| - 1]) + (if Complete(last) then [last] else [])
  }

  /** What `formatSources` returns. */
  function FormatSourcesSpec(hits: seq<Hit>): seq<Source> {
    KeepComplete(Dedup(hits))
  }

  /** Deduplication never lengthens. */
  lemma {:induction false} DedupShorter(hits: seq<Hit>)
    ensures |Dedup(hits)| <= |hits|
    decreases |hits|
  {
    if |hits| > 0 {
      DedupShorter(hits[..|hits| - 1]);
    }
  }

  /** The filter keeps a subsequence of complete sources. */
  lemma {:induction false} KeepCompleteSound(ss: seq<Source>)
    ensures |KeepComplete(ss)| <= |ss|
    ensures forall k :: 0 <= k < |KeepComplete(ss)| ==> Complete(KeepComplete(ss)[k])
    ensures forall s :: s in KeepComplete(ss) <==> s in ss && Complete(s)
    decreases |ss|
  {
    if |ss| > 0 {
      var init := ss[..|ss| - 1];
      KeepCompleteSound(init);
      assert ss == init + [ss[|ss| - 1]];
    }
  }

  /** The output is never longer than the search results, and every source in it has a title, an author and a date. */
  lemma FormatSourcesBounded(hits: seq<Hit>)
    ensures |FormatSourcesSpec(hits)| <= |hits|
    ensures forall k :: 0 <= k < |FormatSourcesSpec(hits)| ==> Complete(FormatSourcesSpec(hits)[k])
  {
    DedupShorter(hits);
    KeepCompleteSound(Dedup(hits));
  }

  /** The sources before deduplicating `hits[..n]` come first, in the same order: later hits only append. */
  lemma {:induction false} DedupPrefix(hits: seq<Hit>, n: nat)
    requires n <= |hits|
    ensures Dedup(hits[..n]) <= Dedup(hits)
    decreases |hits| - n
  {
    if n < |hits| {
      var init := hits[..|hits| - 1];
      assert init[..n] == hits[..n];
      DedupPrefix(init, n);
    } else {
      assert hits[..n] == hits;
    }
  }

  /** Some source of `ss` has this key. */
  predicate SourceKeyIn(ss: seq<Source>, key: string) {
    exists k :: 0 <= k < |ss| && SourceKey(ss[k]) == key
  }

  /** Appending a hit adds its key to those seen. */
  lemma KeySeenSnoc(hs: seq<Hit>, h: Hit, key: string)
    ensures KeySeen(hs + [h], key) <==> KeySeen(hs, key) || HitKey(h) == key
  {
    if KeySeen(hs + [h], key) {
      var j :| 0 <= j < |hs + [h]| && HitKey((hs + [h])[j]) == key;
      if j < |hs| {
        assert (hs + [h])[j] == hs[j];
      }
    }
    if KeySeen(hs, key) {
      var j :| 0 <= j < |hs| && HitKey(hs[j]) == key;
      assert (hs + [h])[j] == hs[j];
    }
    if HitKey(h) == key {
      assert (hs + [h])[|hs|] == h;
    }
  }

  /** Appending a source adds its key to those present. */
  lemma SourceKeyInSnoc(ss: seq<Source>, s: Source, key: string)
    ensures SourceKeyIn(ss + [s], key) <==> SourceKeyIn(ss, key) || SourceKey(s) == key
  {
    if SourceKeyIn(ss + [s], key) {
      var k :| 0 <= k < |ss + [s]| && SourceKey((ss + [s])[k]) == key;
      if k < |ss| {
        assert (ss + [s])[k] == ss[k];
      }
    }
    if SourceKeyIn(ss, key) {
      var k :| 0 <= k < |ss| && SourceKey(ss[k]) == key;
      assert (ss + [s])[k] == ss[k];
    }
    if SourceKey(s) == key {
      assert (ss + [s])[|ss|] == s;
    }
  }

  /** A key has a deduplicated source exactly when some hit has it. */
  lemma {:induction false} DedupKeys(hits: seq<Hit>, key: string)
    ensures KeySeen(hits, key) <==> SourceKeyIn(Dedup(hits), key)
    decreases |hits|
  {
    if |hits| > 0 {
      var init := hits[..|hits| - 1];
      var h := hits[|hits| - 1];
      assert hits == init + [h];
      DedupKeys(init, key);
      DedupKeys(init, HitKey(h));
      KeySeenSnoc(init, h, key);
      SourceKeyInSnoc(Dedup(init), ToSource(h), key);
    }
  }

  /** No two deduplicated sources share a key. */
  lemma {:induction false} DedupDistinct(hits: seq<Hit>)
    ensures forall a, b :: 0 <= a < b < |Dedup(hits)| ==> SourceKey(Dedup(hits)[a]) != SourceKey(Dedup(hits)[b])
    decreases |hits|
  {
    if |hits| > 0 {
      var init := hits[..|hits| - 1];
      var h := hits[|hits| - 1];
      DedupDistinct(init);
      if !KeySeen(init, HitKey(h)) {
        DedupKeys(init, HitKey(h));
        var d := Dedup(init);
        forall a | 0 <= a < |d| ensures SourceKey(d[a]) != HitKey(h) {
        }
      }
    }
  }

  /** The first hit of each key is among the deduplicated sources. */
  lemma {:induction false} DedupKeepsFirst(hits: seq<Hit>, j: nat)
    requires j < |hits| && FirstOccurrence(hits, j)
    ensures ToSource(hits[j]) in Dedup(hits)
    decreases |hits|
  {
    var init := hits[..|hits| - 1];
    if j < |init| {
      assert init[..j] == hits[..j];
      assert init[j] == hits[j];
      DedupKeepsFirst(init, j);
      DedupPrefix(hits, |init|);
      assert hits[..|init|] == init;
    } else {
      assert hits[..j] == init;
    }
  }

  /** An incomplete first hit for a key hides every later hit with that key, complete or not. */
  lemma IncompleteFirstHitShadows(hits: seq<Hit>, j: nat)
    requires j < |hits| && FirstOccurrence(hits, j) && !Complete(ToSource(hits[j]))
    ensures forall s :: s in FormatSourcesSpec(hits) ==> SourceKey(s) != HitKey(hits[j])
  {
    var d := Dedup(hits);
    DedupKeepsFirst(hits, j);
    DedupDistinct(hits);
    KeepCompleteSound(d);
    forall s | s in FormatSourcesSpec(hits)
      ensures SourceKey(s) != HitKey(hits[j])
    {
      var a :| 0 <= a < |d| && d[a] == s;
      var b :| 0 <= b < |d| && d[b] == ToSource(hits[j]);
      assert a != b;
    }
  }

  /** A complete first hit for a key is reported, as its own fields and score. */
  lemma CompleteFirstHitReported(hits: seq<Hit>, j: nat)
    requires j < |hits| && FirstOccurrence(hits, j) && Complete(ToSource(hits[j]))
    ensures ToSource(hits[j]) in FormatSourcesSpec(hits)
  {
    DedupKeepsFirst(hits, j);
    KeepCompleteSound(Dedup(hits));
  }

  /** Two different books whose title and author join to the same key: only the first is reported. */
  lemma KeyCollision(date: string)
    requires date != ""
    ensures
      var first := Hit(HitPayload("x", Some("a-b"), Some("c"), Some(date)), 0.5);
      var second := Hit(HitPayload("y", Some("a"), Some("b-c"), Some(date)), 0.9);
      FormatSourcesSpec([first, second]) == [ToSource(first)]
  {
    var first := Hit(HitPayload("x", Some("a-b"), Some("c"), Some(date)), 0.5);
    var second := Hit(HitPayload("y", Some("a"), Some("b-c"), Some(date)), 0.9);
    assert [first, second][..1] == [first];
    assert HitKey(second) == "a-b-c" == HitKey(first);
    assert [first][0] == first;
    assert KeySeen([first], HitKey(second));
    assert Dedup([first]) == [ToSource(first)] by {
      assert [first][..0] == [];
    }
    assert KeepComplete([ToSource(first)]) == [ToSource(first)] by {
      assert [ToSource(first)][..0] == [];
    }
  }

  /** The source values in the order of `keys`, read from `table`. */
  function ValuesOf(keys: seq<string>, table: map<string, Source>): seq<Source>
    requires forall j :: 0 <= j < |keys| ==> keys[j] in table
  {
    seq(|keys|, j requires 0 <= j < |keys| => table[keys[j]])
  }

  /** Inserting a new key at the end of the order appends its value. */
  lemma ValuesOfSnoc(keys: seq<string>, table: map<string, Source>, key: string, s: Source)
    requires forall j :: 0 <= j < |keys| ==> keys[j] in table
    requires key !in table
    ensures ValuesOf(keys + [key], table[key := s]) == ValuesOf(keys, table) + [s]
  {
  }

  /** One more hit: deduplication grows by that hit's source exactly when its key is new. */
  lemma DedupStep(hits: seq<Hit>, i: nat)
    requires i < |hits|
    ensures Dedup(hits[..i + 1]) ==
      if KeySeen(hits[..i], HitKey(hits[i])) then Dedup(hits[..i]) else Dedup(hits[..i]) + [ToSource(hits[i])]
  {
    assert hits[..i + 1][..i] == hits[..i];
  }

  /** After `i` hits, the map and its insertion order hold the deduplication of those hits. */
  ghost predicate TableHolds(hits: seq<Hit>, i: nat, keys: seq<string>, table: map<string, Source>) {
    && i <= |hits|
    && (forall j :: 0 <= j < |keys| ==> keys[j] in table)
    && (forall key :: key in table <==> KeySeen(hits[..i], key))
    && ValuesOf(keys, table) == Dedup(hits[..i])
  }

  /** Reading hit `i` adds its key to those seen. */
  lemma KeysStep(hits: seq<Hit>, i: nat)
    requires i < |hits|
    ensures forall k :: KeySeen(hits[..i + 1], k) <==> KeySeen(hits[..i], k) || k == HitKey(hits[i])
  {
    assert hits[..i + 1] == hits[..i] + [hits[i]];
    forall k ensures KeySeen(hits[..i + 1], k) <==> KeySeen(hits[..i], k) || k == HitKey(hits[i]) {
      KeySeenSnoc(hits[..i], hits[i], k);
    }
  }

  /** Reading a hit whose key is already in the map changes nothing. */
  lemma TableStepSeen(hits: seq<Hit>, i: nat, keys: seq<string>, table: map<string, Source>)
    requires i < |hits| && TableHolds(hits, i, keys, table) && HitKey(hits[i]) in table
    ensures TableHolds(hits, i + 1, keys, table)
  {
    DedupStep(hits, i);
    KeysStep(hits, i);
  }

  /** Reading a hit with a new key inserts its source at the end of the order. */
  lemma TableStepNew(hits: seq<Hit>, i: nat, keys: seq<string>, table: map<string, Source>)
    requires i < |hits| && TableHolds(hits, i, keys, table) && HitKey(hits[i]) !in table
    ensures TableHolds(hits, i + 1, keys + [HitKey(hits[i])], table[HitKey(hits[i]) := ToSource(hits[i])])
  {
    var key := HitKey(hits[i]);
    var table' := table[key := ToSource(hits[i])];
    var keys' := keys + [key];
    DedupStep(hits, i);
    KeysStep(hits, i);
    ValuesOfSnoc(keys, table, key, ToSource(hits[i]));
    assert forall j :: 0 <= j < |keys'| ==> keys'[j] in table';
    assert forall k :: k in table' <==> KeySeen(hits[..i + 1], k);
    assert ValuesOf(keys', table') == Dedup(hits[..i + 1]);
  }

  /** After the last hit, the map's values in insertion order are the deduplicated sources. */
  lemma TableDone(hits: seq<Hit>, keys: seq<string>, table: map<string, Source>)
    requires TableHolds(hits, |hits|, keys, table)
    ensures forall j :: 0 <= j < |keys| ==> keys[j] in table
    ensures ValuesOf(keys, table) == Dedup(hits)
  {
    assert hits[..|hits|] == hits;
  }

  /** One iteration of the filter loop. */
  lemma KeepCompleteStep(values: seq<Source>, j: nat)
    requires j < |values|
    ensures KeepComplete(values[..j + 1]) == KeepComplete(values[..j]) + (if Complete(values[j]) then [values[j]] else [])
  {
    assert values[..j + 1][..j] == values[..j];
  }

  /**
   * `formatSources`: a map from key to source filled in hit order (a key already present
   * is skipped), then its values in insertion order, filtered for complete entries.
   */
  method FormatSources(hits: seq<Hit>) returns (sources: seq<Source>)
    ensures sources == FormatSourcesSpec(hits)
  {
    var keys: seq<string> := [];
    var table: map<string, Source> := map[];
    for i := 0 to |hits|
      invariant TableHolds(hits, i, keys, table)
    {
      var key := HitKey(hits[i]);
      if key in table {
        TableStepSeen(hits, i, keys, table);
      } else {
        TableStepNew(hits, i, keys, table);
        table := table[key := ToSource(hits[i])];
        keys := keys + [key];
      }
    }
    TableDone(hits, keys, table);
    var values := ValuesOf(keys, table);
    sources := [];
    for j := 0 to |values|
      invariant sources == KeepComplete(values[..j])
    {
      KeepCompleteStep(values, j);
      if Complete(values[j]) {
        sources := sources + [values[j]];
      }
    }
    assert values[..|values|] == values;
  }

  // ---------------------------------------------------------------------------
  // The pipeline
  // ---------------------------------------------------------------------------

  const GreetingAnswer: string := "Bonjour ! Comment puis-je vous aider aujourd'hui ?"
  const NotFoundAnswer: string := "Désolé, je n'ai pas d'informations sur ce sujet dans ma base de connaissances."

  /** The number of chunks the search asks for. */
  const SearchLimit: nat := 3

  const EmbeddingModel: string := "text-embedding-ada-002"
  const CompletionModel: string := "gpt-3.5-turbo"

  /** The completion temperature. */
  const Temperature: real := 0.3

  /** The prompt's context and question (the fixed instructions around them are not modelled). */
  function Prompt(question: string, context: string): string {
    "Contexte disponible :\n" + context + "\n\nQuestion : \"" + question + "\""
  }

  /** A request the pipeline sends to a collaborator, in order. */
  datatype RagCall =
    | Embed(model: string, input: string)
    | AdaptiveThreshold(question: string)
    | Search(vector: seq<real>, limit: nat, threshold: real)
    | Completion(model: string, prompt: string, temperature: real)

  /** The collaborators' answers. */
  datatype RagServices = RagServices(
    embed: string -> Outcome<seq<real>>,
    adaptiveThreshold: string -> real,
    search: (seq<real>, nat, real) -> Outcome<seq<Hit>>,
    complete: string -> Outcome<string>)

  /** The outcome of `processQuestion` (a collaborator's error is rethrown) and the requests it made. */
  datatype Processed = Processed(outcome: Outcome<RagAnswer>, calls: seq<RagCall>)

  /** `processQuestion`. */
  function ProcessQuestion(question: string, services: RagServices): (p: Processed)
    ensures IsGreeting(question) <==> p.calls == []
    ensures IsGreeting(question) ==> p.outcome == Ok(RagAnswer(GreetingAnswer, [], true))
    ensures !IsGreeting(question) ==> p.calls[0] == Embed(EmbeddingModel, question)
    ensures |p.calls| <= 4
    ensures forall k :: 0 <= k < |p.calls| && p.calls[k].Search? ==> p.calls[k].limit == SearchLimit
  {
    if IsGreeting(question) then
      Processed(Ok(RagAnswer(GreetingAnswer, [], true)), [])
    else
      var calls := [Embed(EmbeddingModel, question)];
      match services.embed(question)
      case Err(msg) => Processed(Err(msg), calls)
      case Ok(vector) =>
        var threshold := services.adaptiveThreshold(question);
        var calls := calls + [AdaptiveThreshold(question), Search(vector, SearchLimit, threshold)];
        match services.search(vector, SearchLimit, threshold)
        case Err(msg) => Processed(Err(msg), calls)
        case Ok(hits) =>
          if |hits| == 0 then
            Processed(Ok(RagAnswer(NotFoundAnswer, [], false)), calls)
          else
            var prompt := Prompt(question, BuildContext(hits));
            var calls := calls + [Completion(CompletionModel, prompt, Temperature)];
            match services.complete(prompt)
            case Err(msg) => Processed(Err(msg), calls)
            case Ok(answer) => Processed(Ok(RagAnswer(answer, FormatSourcesSpec(hits), true)), calls)
  }

  /** A failed embedding is rethrown before any search. */
  lemma EmbeddingFailureRethrown(question: string, services: RagServices, msg: string)
    requires !IsGreeting(question) && services.embed(question) == Err(msg)
    ensures ProcessQuestion(question, services) == Processed(Err(msg), [Embed(EmbeddingModel, question)])
  {
  }

  /** The search asks for three chunks above the question's adaptive threshold; its failure is rethrown. */
  lemma SearchUsesThreshold(question: string, services: RagServices, vector: seq<real>)
    requires !IsGreeting(question) && services.embed(question) == Ok(vector)
    ensures
      var p := ProcessQuestion(question, services);
      var threshold := services.adaptiveThreshold(question);
      && p.calls[..3] == [Embed(EmbeddingModel, question), AdaptiveThreshold(question), Search(vector, SearchLimit, threshold)]
      && (services.search(vector, SearchLimit, threshold).Err? ==>
            p == Processed(Err(services.search(vector, SearchLimit, threshold).message), p.calls[..3]))
  {
  }

  /** No hits: the fixed not-found answer, without sources and without a completion request. */
  lemma NoHitsNotFound(question: string, services: RagServices, vector: seq<real>)
    requires !IsGreeting(question) && services.embed(question) == Ok(vector)
    requires services.search(vector, SearchLimit, services.adaptiveThreshold(question)) == Ok([])
    ensures ProcessQuestion(question, services).outcome == Ok(RagAnswer(NotFoundAnswer, [], false))
    ensures |ProcessQuestion(question, services).calls| == 3
  {
  }

  /**
   * Some hits: the model is asked once, with the hits' texts as context, and its answer
   * comes back with the formatted sources; its failure is rethrown.
   */
  lemma HitsAnswered(question: string, services: RagServices, vector: seq<real>, hits: seq<Hit>)
    requires !IsGreeting(question) && services.embed(question) == Ok(vector)
    requires services.search(vector, SearchLimit, services.adaptiveThreshold(question)) == Ok(hits)
    requires |hits| > 0
    ensures
      var p := ProcessQuestion(question, services);
      var prompt := Prompt(question, BuildContext(hits));
      && |p.calls| == 4
      && p.calls[3] == Completion(CompletionModel, prompt, Temperature)
      && (services.complete(prompt).Ok? ==>
            p.outcome == Ok(RagAnswer(services.complete(prompt).value, FormatSourcesSpec(hits), true)))
      && (services.complete(prompt).Err? ==> p.outcome == Err(services.complete(prompt).message))
  {
  }

  /** Every reported source has a title, an author and a date, and an answer that found nothing is the fixed one. */
  lemma AnswerSourcesComplete(question: string, services: RagServices)
    requires ProcessQuestion(question, services).outcome.Ok?
    ensures forall s :: s in ProcessQuestion(question, services).outcome.value.sources ==> Complete(s)
    ensures !ProcessQuestion(question, services).outcome.value.found ==>
      ProcessQuestion(question, services).outcome.value == RagAnswer(NotFoundAnswer, [], false)
  {
    if !IsGreeting(question) {
      var vector := services.embed(question).value;
      var hits := services.search(vector, SearchLimit, services.adaptiveThreshold(question)).value;
      if |hits| > 0 {
        KeepCompleteSound(Dedup(hits));
      }
    }
  }
}
