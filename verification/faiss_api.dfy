/**
 * The `/consultar` question-answering service (app_faiss_api.py).
 *
 * A request carries a JSON body with a `pregunta`. The handler loads the FAISS
 * index and the metadata file, embeds the question with Gemini, searches the
 * index for the nearest positions, turns the metadata records at those
 * positions into a context text, asks Gemini to answer from a fixed prompt
 * and returns `{"respuesta": ...}`; any exception on the way becomes
 * `{"error": str(e)}` with status 500.
 *
 * The file system, FAISS and Gemini are collaborators: their outcomes for the
 * request at hand are given in a `Collaborators` record, and every call the
 * handler makes on them is recorded, in order, in a trace of `Call`s.
 */
module FaissApi {
  import opened Wrappers
  import opened Python
  import opened Http

  const IndexFile := "vector_index.faiss"
  const MetadataFile := "metadata.json"
  const EmbeddingModel := "models/embedding-001"
  const EmbeddingTask := "RETRIEVAL_QUERY"
  const GenerativeModel := "gemini-2.5-flash"
  /** the `top_k` default with which the handler searches */
  const TopK := 3
  const MissingFilesMessage := "❌ No se encontraron los archivos FAISS o metadata.json"
  const MissingQuestionMessage := "Falta el campo 'pregunta'"

  /** What `generate_content` returns; reading `.text` may itself raise (a
      blocked or empty candidate). */
  datatype GenerateResponse = GenerateResponse(text: Result<string, Exc>)

  /** The outcome each collaborator gives for this request. */
  datatype Collaborators = Collaborators(
    indexFileExists: bool,                      // os.path.exists(INDEX_FILE)
    metadataFileExists: bool,                   // os.path.exists(METADATA_FILE)
    readIndex: Result<(), Exc>,                 // faiss.read_index
    metadataDocument: Result<Json, Exc>,        // open + json.load of the metadata file
    embedding: Result<Json, Exc>,               // genai.embed_content response
    search: Result<seq<int>, Exc>,              // row I[0] of index.search
    generation: Result<GenerateResponse, Exc>)  // GenerativeModel(...).generate_content

  /** A call on a collaborator, with the arguments the handler passes. */
  datatype Call =
    | ReadIndex(path: string)
    | ReadMetadata(path: string)
    | EmbedContent(model: string, content: Json, taskType: string)
    | Search(query: Json, k: int)
    | GenerateContent(model: string, prompt: string)

  /** A stage's outcome together with the calls it made. */
  datatype Step<T> = Step(result: Result<T, Exc>, calls: seq<Call>)

  /** A request answered: the response and every collaborator call made for it. */
  datatype Exchange = Exchange(response: Response, calls: seq<Call>)

  datatype Request =
    /** OPTIONS on a path, given without its leading `/` (`consultar` for
        `/consultar`, `` for the root) */
    | Preflight(path: string)
    /** POST `/consultar` with its decoded JSON body */
    | Ask(body: Json)

  // ------------------------------------------------------------ loading

  /** `cargar_index_y_metadata`: both files must exist; then the index is read,
      then the metadata file, whose `"metadatos"` member is returned. */
  function LoadIndexAndMetadata(c: Collaborators): (s: Step<Json>)
    ensures !c.indexFileExists || !c.metadataFileExists ==>
              s == Step(Failure(FileNotFound(MissingFilesMessage)), [])
    ensures s.calls <= [ReadIndex(IndexFile), ReadMetadata(MetadataFile)]
    ensures s.result.Success? <==>
              && c.indexFileExists && c.metadataFileExists
              && c.readIndex.Success? && c.metadataDocument.Success?
              && HasKey(c.metadataDocument.value, "metadatos")
    ensures s.result.Success? ==>
              && s.calls == [ReadIndex(IndexFile), ReadMetadata(MetadataFile)]
              && s.result.value == Lookup(c.metadataDocument.value.fields, "metadatos").value
  {
    if !c.indexFileExists || !c.metadataFileExists then
      Step(Failure(FileNotFound(MissingFilesMessage)), [])
    else
      match c.readIndex
      case Failure(e) => Step(Failure(e), [ReadIndex(IndexFile)])
      case Success(_) =>
        var calls := [ReadIndex(IndexFile), ReadMetadata(MetadataFile)];
        match c.metadataDocument
        case Failure(e) => Step(Failure(e), calls)
        case Success(doc) => Step(Subscript(doc, StrKey("metadatos")), calls)
  }

  // ------------------------------------------------------------ context

  /** The text one retrieved record contributes to the context. */
  function Block(name: Json, text: Json): string {
    "Documento: " + Str(name) + "\nTexto: " + Str(text) + "\n\n"
  }

  /** `metadata[idx]`, then its `documento` and its `texto`, in that order. */
  function BlockAt(metadata: Json, position: int): Result<string, Exc> {
    var doc :- Subscript(metadata, IntKey(position));
    var name :- Subscript(doc, StrKey("documento"));
    var text :- Subscript(doc, StrKey("texto"));
    Success(Block(name, text))
  }

  /** The context for the positions search returned: each position's block in
      order, or the exception of the first position that has none. */
  function Context(metadata: Json, positions: seq<int>): Result<string, Exc>
    decreases |positions|
  {
    if |positions| == 0 then Success("")
    else
      var head :- BlockAt(metadata, positions[0]);
      var rest :- Context(metadata, positions[1..]);
      Success(head + rest)
  }

  /** `prefix` in front of a successful result; a failure stays as it is. */
  function Prepend(prefix: string, r: Result<string, Exc>): Result<string, Exc> {
    match r
    case Success(s) => Success(prefix + s)
    case Failure(e) => Failure(e)
  }

  /** The loop of `buscar_contexto_para_gemini`: start from the empty text and
      append one block per position, stopping at the first exception. */
  method AssembleContext(metadata: Json, positions: seq<int>) returns (r: Result<string, Exc>)
    ensures r == Context(metadata, positions)
  {
    var contexto := "";
    var i := 0;
    PrependEmpty(Context(metadata, positions));
    assert positions[i..] == positions;
    while i < |positions|
      invariant 0 <= i <= |positions|
      invariant Context(metadata, positions) == Prepend(contexto, Context(metadata, positions[i..]))
    {
      var block := BlockAt(metadata, positions[i]);
      ContextUnfold(metadata, positions, i);
      if block.Failure? {
        return Failure(block.error);
      }
      PrependTwice(contexto, block.value, Context(metadata, positions[i + 1..]));
      contexto := contexto + block.value;
      i := i + 1;
    }
    assert positions[i..] == [];
    assert contexto + "" == contexto;
    return Success(contexto);
  }

  lemma PrependEmpty(r: Result<string, Exc>)
    ensures Prepend("", r) == r
  {
    if r.Success? {
      assert "" + r.value == r.value;
    }
  }

  lemma PrependTwice(a: string, b: string, r: Result<string, Exc>)
    ensures Prepend(a, Prepend(b, r)) == Prepend(a + b, r)
  {
    if r.Success? {
      assert a + (b + r.value) == (a + b) + r.value;
    }
  }

  /** One step of the context over the positions from `i` on. */
  lemma ContextUnfold(metadata: Json, positions: seq<int>, i: nat)
    requires i < |positions|
    ensures BlockAt(metadata, positions[i]).Failure? ==>
              Context(metadata, positions[i..]) == Failure(BlockAt(metadata, positions[i]).error)
    ensures BlockAt(metadata, positions[i]).Success? ==>
              Context(metadata, positions[i..]) ==
                Prepend(BlockAt(metadata, positions[i]).value, Context(metadata, positions[i + 1..]))
  {
    var rest := positions[i..];
    assert rest[0] == positions[i];
    assert rest[1..] == positions[i + 1..];
  }

  /** Concatenation of `parts` from the left, as repeated `+=` builds it. */
  function Concat(parts: seq<string>): string
    decreases |parts|
  {
    if |parts| == 0 then "" else Concat(parts[..|parts| - 1]) + parts[|parts| - 1]
  }

  lemma {:induction false} ConcatCons(head: string, tail: seq<string>)
    ensures Concat([head] + tail) == head + Concat(tail)
    decreases |tail|
  {
    if |tail| > 0 {
      var last := |tail| - 1;
      assert ([head] + tail)[..|tail|] == [head] + tail[..last];
      ConcatCons(head, tail[..last]);
    } else {
      assert [head] + tail == [head];
    }
  }

  /** The context succeeds exactly when every returned position yields a block. */
  lemma {:induction false} ContextSucceedsIff(metadata: Json, positions: seq<int>)
    ensures Context(metadata, positions).Success? <==>
              forall i :: 0 <= i < |positions| ==> BlockAt(metadata, positions[i]).Success?
    decreases |positions|
  {
    if |positions| > 0 {
      ContextSucceedsIff(metadata, positions[1..]);
      assert forall i :: 1 <= i < |positions| ==> positions[1..][i - 1] == positions[i];
    }
  }

  /** On success the context is one block per position, in search order, and
      nothing else: starting from "" and appending. */
  lemma {:induction false} ContextIsBlocks(metadata: Json, positions: seq<int>)
    requires Context(metadata, positions).Success?
    ensures forall i :: 0 <= i < |positions| ==> BlockAt(metadata, positions[i]).Success?
    ensures Context(metadata, positions).value ==
              Concat(seq(|positions|, i requires 0 <= i < |positions| &&
                                                BlockAt(metadata, positions[i]).Success? =>
                                        BlockAt(metadata, positions[i]).value))
    decreases |positions|
  {
    ContextSucceedsIff(metadata, positions);
    if |positions| > 0 {
      var tail := positions[1..];
      ContextIsBlocks(metadata, tail);
      var blocks := seq(|positions|, i requires 0 <= i < |positions| &&
                                                BlockAt(metadata, positions[i]).Success? =>
                                        BlockAt(metadata, positions[i]).value);
      var tailBlocks := seq(|tail|, i requires 0 <= i < |tail| &&
                                             BlockAt(metadata, tail[i]).Success? =>
                                     BlockAt(metadata, tail[i]).value);
      assert blocks == [blocks[0]] + tailBlocks;
      ConcatCons(blocks[0], tailBlocks);
    }
  }

  /** A failing context carries the exception of the first failing position. */
  lemma {:induction false} ContextFailsAtFirst(metadata: Json, positions: seq<int>, k: nat)
    requires k < |positions|
    requires forall i :: 0 <= i < k ==> BlockAt(metadata, positions[i]).Success?
    requires BlockAt(metadata, positions[k]).Failure?
    ensures Context(metadata, positions) == Failure(BlockAt(metadata, positions[k]).error)
    decreases k
  {
    if k > 0 {
      var tail := positions[1..];
      assert forall i :: 0 <= i < k - 1 ==> tail[i] == positions[i + 1];
      ContextFailsAtFirst(metadata, tail, k - 1);
    }
  }

  /** A position outside `[-len(metadata), len(metadata))` raises IndexError. */
  lemma OutOfRangePosition(records: seq<Json>, position: int)
    requires !(-|records| <= position < |records|)
    ensures BlockAt(JArray(records), position) == Failure(IndexError(ListType))
  {
  }

  /** A negative position inside the range silently selects a record counted from
      the end; FAISS's -1 for a missing neighbour selects the last record. */
  lemma NegativePositionFromEnd(records: seq<Json>, position: int)
    requires -|records| <= position < 0
    ensures BlockAt(JArray(records), position) == BlockAt(JArray(records), |records| + position)
    ensures position == -1 ==> BlockAt(JArray(records), -1) == BlockAt(JArray(records), |records| - 1)
  {
  }

  /** A record lacking `documento` raises KeyError('documento'); one that has it
      but lacks `texto` raises KeyError('texto'). */
  lemma MissingRecordField(records: seq<Json>, position: int)
    requires 0 <= position < |records|
    requires records[position].JObject?
    ensures !HasKey(records[position], "documento") ==>
              BlockAt(JArray(records), position) == Failure(KeyError(StrKey("documento")))
    ensures HasKey(records[position], "documento") && !HasKey(records[position], "texto") ==>
              BlockAt(JArray(records), position) == Failure(KeyError(StrKey("texto")))
    ensures HasKey(records[position], "documento") && HasKey(records[position], "texto") ==>
              BlockAt(JArray(records), position) ==
                Success(Block(Lookup(records[position].fields, "documento").value,
                              Lookup(records[position].fields, "texto").value))
  {
  }

  // ------------------------------------------------------------ prompt

  const PromptHead :=
    "\nUsá el siguiente contexto para responder la pregunta del usuario, si no encuentras la respuesta intenta responderla tu,\n"
    + "ten encuenta que somos una empresa de TI que soluciona problemas a la industria y al agro.\n\nContexto:\n"
  const PromptMiddle := "\n\nPregunta:\n"
  const PromptTail := "\n"

  /** The prompt of `responder_con_gemini`: the fixed instruction, the context,
      the question, each inserted verbatim in that order. */
  function Prompt(question: string, context: string): (p: string)
    ensures |p| == |PromptHead| + |context| + |PromptMiddle| + |question| + |PromptTail|
    ensures p[..|PromptHead|] == PromptHead
    ensures p[|PromptHead|..|PromptHead| + |context|] == context
    ensures p[|PromptHead| + |context|..|PromptHead| + |context| + |PromptMiddle|] == PromptMiddle
    ensures p[|p| - |PromptTail| - |question|..|p| - |PromptTail|] == question
    ensures p[|p| - |PromptTail|..] == PromptTail
  {
    PromptHead + context + PromptMiddle + question + PromptTail
  }

  /** Knowing the context's length, the prompt gives back both inserted texts. */
  lemma PromptDeterminesInputs(q1: string, c1: string, q2: string, c2: string)
    requires |c1| == |c2|
    requires Prompt(q1, c1) == Prompt(q2, c2)
    ensures q1 == q2 && c1 == c2
  {
    var p := Prompt(q1, c1);
    assert c1 == p[|PromptHead|..|PromptHead| + |c1|] == c2;
    assert |q1| == |q2|;
    assert q1 == p[|p| - |PromptTail| - |q1|..|p| - |PromptTail|] == q2;
  }

  // ------------------------------------------------------------ pipeline

  /** `buscar_contexto_para_gemini(consulta)` */
  function Retrieve(question: Json, c: Collaborators): Step<string> {
    var load := LoadIndexAndMetadata(c);
    match load.result
    case Failure(e) => Step(Failure(e), load.calls)
    case Success(metadata) =>
      var embedCalls := load.calls + [EmbedContent(EmbeddingModel, question, EmbeddingTask)];
      match c.embedding
      case Failure(e) => Step(Failure(e), embedCalls)
      case Success(response) =>
        match Subscript(response, StrKey("embedding"))
        case Failure(e) => Step(Failure(e), embedCalls)
        case Success(vector) =>
          var searchCalls := embedCalls + [Search(vector, TopK)];
          match c.search
          case Failure(e) => Step(Failure(e), searchCalls)
          case Success(positions) => Step(Context(metadata, positions), searchCalls)
  }

  /** `responder_con_gemini(pregunta, contexto)`: the response's `.text`. */
  function Answer(question: Json, context: string, c: Collaborators): Step<string> {
    var calls := [GenerateContent(GenerativeModel, Prompt(Str(question), context))];
    match c.generation
    case Failure(e) => Step(Failure(e), calls)
    case Success(response) => Step(response.text, calls)
  }

  /** The body of the `try` in `consultar`. */
  function Pipeline(question: Json, c: Collaborators): Step<string> {
    var retrieved := Retrieve(question, c);
    match retrieved.result
    case Failure(e) => retrieved
    case Success(context) =>
      var answered := Answer(question, context, c);
      Step(answered.result, retrieved.calls + answered.calls)
  }

  /** `data.get("pregunta")` */
  function Question(body: Json): Json
    requires body.JObject?
  {
    Get(body, "pregunta", JNull).value
  }

  /** The body has exactly one of the keys `respuesta` and `error`, mapped to a
      string, and nothing else. */
  ghost predicate AnswerOrError(body: Json) {
    || (exists text :: body == JObject([("respuesta", JStr(text))]))
    || (exists message :: body == JObject([("error", JStr(message))]))
  }

  /** The two outcome bodies each hold their own key and not the other one. */
  lemma OutcomeBodies()
    ensures forall text :: HasKey(JObject([("respuesta", JStr(text))]), "respuesta")
    ensures forall text :: !HasKey(JObject([("respuesta", JStr(text))]), "error")
    ensures forall message :: HasKey(JObject([("error", JStr(message))]), "error")
    ensures forall message :: !HasKey(JObject([("error", JStr(message))]), "respuesta")
  {
  }

  /** `consultar` on a POST. */
  function Consultar(body: Json, c: Collaborators): (x: Exchange)
    ensures !body.JObject? ==> x == Exchange(Unhandled(NoAttribute(TypeOf(body), "get")), [])
    ensures body.JObject? && !Truthy(Question(body)) ==>
              x == Exchange(JsonResponse(JObject([("error", JStr(MissingQuestionMessage))]), 400), [])
    ensures body.JObject? && Truthy(Question(body)) ==>
              && x.response.JsonResponse?
              && AnswerOrError(x.response.body)
              && (x.response.status == 200 <==> HasKey(x.response.body, "respuesta"))
              && (x.response.status == 500 <==> HasKey(x.response.body, "error"))
  {
    match Get(body, "pregunta", JNull)
    case Failure(e) => Exchange(Unhandled(e), [])
    case Success(question) =>
      if !Truthy(question) then
        Exchange(JsonResponse(JObject([("error", JStr(MissingQuestionMessage))]), 400), [])
      else
        var s := Pipeline(question, c);
        OutcomeBodies();
        match s.result
        case Success(text) => Exchange(JsonResponse(JObject([("respuesta", JStr(text))]), 200), s.calls)
        case Failure(e) => Exchange(JsonResponse(JObject([("error", JStr(ExcText(e)))]), 500), s.calls)
  }

  /** The routes of the service: an OPTIONS request on any non-root path,
      `/consultar` included, answers `{}` with 200 and touches no collaborator.
      The root matches neither rule, since `<path:path>` needs at least one
      character. */
  function Handle(request: Request, c: Collaborators): (x: Exchange)
    ensures request.Preflight? && request.path != "" ==> x == Exchange(JsonResponse(JObject([]), 200), [])
    ensures request.Preflight? && request.path == "" ==> x == Exchange(NotFound, [])
    ensures request.Ask? ==> x == Consultar(request.body, c)
  {
    match request
    case Preflight(path) =>
      // `consultar` answers its own preflight; `options_handler` every other
      // path with at least one character
      if path == "" then Exchange(NotFound, [])
      else Exchange(JsonResponse(JObject([]), 200), [])
    case Ask(body) => Consultar(body, c)
  }

  // ------------------------------------------------------------ properties

  /** Every collaborator succeeds and every returned position yields a block. */
  predicate AllStepsSucceed(c: Collaborators) {
    && c.indexFileExists && c.metadataFileExists
    && c.readIndex.Success?
    && c.metadataDocument.Success? && HasKey(c.metadataDocument.value, "metadatos")
    && c.embedding.Success? && Subscript(c.embedding.value, StrKey("embedding")).Success?
    && c.search.Success?
    && (var metadata := Lookup(c.metadataDocument.value.fields, "metadatos").value;
        forall i :: 0 <= i < |c.search.value| ==> BlockAt(metadata, c.search.value[i]).Success?)
    && c.generation.Success? && c.generation.value.text.Success?
  }

  /** The service answers (200, `respuesta`) exactly when the question is present
      and every step succeeds; the answer is the generator's `.text` unchanged. */
  lemma AnsweredIff(body: Json, c: Collaborators)
    requires body.JObject?
    ensures StatusOf(Consultar(body, c).response) == 200 <==>
              Truthy(Question(body)) && AllStepsSucceed(c)
    ensures StatusOf(Consultar(body, c).response) == 200 ==>
              Consultar(body, c).response.body ==
                JObject([("respuesta", JStr(c.generation.value.text.value))])
  {
    var load := LoadIndexAndMetadata(c);
    if load.result.Success? && c.search.Success? {
      ContextSucceedsIff(load.result.value, c.search.value);
    }
  }

  /** Which stage a call belongs to: load index, load metadata, embed, search,
      generate. */
  function Stage(call: Call): nat {
    match call
    case ReadIndex(_) => 0
    case ReadMetadata(_) => 1
    case EmbedContent(_, _, _) => 2
    case Search(_, _) => 3
    case GenerateContent(_, _) => 4
  }

  /** The handler makes each call at most once and in pipeline order, a call only
      after every earlier stage succeeded: the embedding only once both files
      were loaded and `metadatos` found, the search only once the embedding has
      its `embedding` member, generation only once the context was built. The
      embedding is asked for the question itself and the index is searched for
      the top 3. */
  lemma CallsInPipelineOrder(body: Json, c: Collaborators)
    requires body.JObject? && Truthy(Question(body))
    ensures var calls := Consultar(body, c).calls;
            && |calls| <= 5
            && (forall i :: 0 <= i < |calls| ==> Stage(calls[i]) == i)
            && (|calls| > 0 ==> calls[0] == ReadIndex(IndexFile))
            && (|calls| > 1 ==> calls[1] == ReadMetadata(MetadataFile))
            && (|calls| > 2 ==> calls[2] == EmbedContent(EmbeddingModel, Question(body), EmbeddingTask))
            && (|calls| > 3 ==> calls[3].k == TopK)
            && (|calls| > 2 ==> LoadIndexAndMetadata(c).result.Success?)
            && (|calls| > 3 ==> c.embedding.Success? && Subscript(c.embedding.value, StrKey("embedding")).Success?)
            && (|calls| > 4 ==> Retrieve(Question(body), c).result.Success?)
  {
    var q := Question(body);
    var retrieved := Retrieve(q, c);
    RetrieveCalls(q, c);
    PipelineCalls(q, c);
    assert Consultar(body, c).calls == Pipeline(q, c).calls;
    if retrieved.result.Success? {
      StagesExtend(retrieved.calls, GenerateContent(GenerativeModel, Prompt(Str(q), retrieved.result.value)));
    }
  }

  /** The `try` body makes retrieval's calls and, if retrieval succeeded, one
      generation call with the prompt for the retrieved context. */
  lemma PipelineCalls(q: Json, c: Collaborators)
    ensures Retrieve(q, c).result.Failure? ==> Pipeline(q, c) == Retrieve(q, c)
    ensures Retrieve(q, c).result.Success? ==>
              Pipeline(q, c).calls ==
                Retrieve(q, c).calls
                + [GenerateContent(GenerativeModel, Prompt(Str(q), Retrieve(q, c).result.value))]
  {
  }

  lemma StagesExtend(calls: seq<Call>, next: Call)
    requires forall i :: 0 <= i < |calls| ==> Stage(calls[i]) == i
    requires Stage(next) == |calls|
    ensures forall i :: 0 <= i < |calls| + 1 ==> Stage((calls + [next])[i]) == i
  {
  }

  /** The calls of the retrieval stage: a prefix of load, embed, search. */
  lemma RetrieveCalls(q: Json, c: Collaborators)
    ensures var calls := Retrieve(q, c).calls;
            && |calls| <= 4
            && (forall i :: 0 <= i < |calls| ==> Stage(calls[i]) == i)
            && (|calls| > 0 ==> calls[0] == ReadIndex(IndexFile))
            && (|calls| > 1 ==> calls[1] == ReadMetadata(MetadataFile))
            && (|calls| > 2 ==> calls[2] == EmbedContent(EmbeddingModel, q, EmbeddingTask))
            && (|calls| > 3 ==> calls[3].Search? && calls[3].k == TopK)
            && (|calls| > 2 ==> LoadIndexAndMetadata(c).result.Success?)
            && (|calls| > 3 ==> c.embedding.Success? && Subscript(c.embedding.value, StrKey("embedding")).Success?)
            && (Retrieve(q, c).result.Success? ==> |calls| == 4 && c.search.Success?)
  {
    var load := LoadIndexAndMetadata(c);
    if load.result.Success? {
      assert load.calls == [ReadIndex(IndexFile), ReadMetadata(MetadataFile)];
    } else {
      assert Retrieve(q, c).calls == load.calls;
    }
  }

  /** A missing index or metadata file is a per-request 500 raised before any
      embedding, search or generation call. */
  lemma MissingFilesFailFast(body: Json, c: Collaborators)
    requires body.JObject? && Truthy(Question(body))
    requires !c.indexFileExists || !c.metadataFileExists
    ensures Consultar(body, c) ==
              Exchange(JsonResponse(JObject([("error", JStr(MissingFilesMessage))]), 500), [])
  {
  }

  /** An exception from the embedding call ends the request with its text, and
      neither search nor generation is attempted. */
  lemma EmbeddingFailure(body: Json, c: Collaborators)
    requires body.JObject? && Truthy(Question(body))
    requires LoadIndexAndMetadata(c).result.Success?
    requires c.embedding.Failure?
    ensures Consultar(body, c) ==
              Exchange(JsonResponse(JObject([("error", JStr(ExcText(c.embedding.error)))]), 500),
                       [ReadIndex(IndexFile), ReadMetadata(MetadataFile),
                        EmbedContent(EmbeddingModel, Question(body), EmbeddingTask)])
  {
  }

  /** The prompt sent to the generator is the fixed template around the
      assembled context and the question's text; its failure becomes the error. */
  lemma GenerationSeesContext(body: Json, c: Collaborators)
    requires body.JObject? && Truthy(Question(body))
    requires Retrieve(Question(body), c).result.Success?
    ensures var x := Consultar(body, c);
            var metadata := Lookup(c.metadataDocument.value.fields, "metadatos").value;
            var context := Context(metadata, c.search.value).value;
            && |x.calls| == 5
            && x.calls[4] == GenerateContent(GenerativeModel, Prompt(Str(Question(body)), context))
            && (c.generation.Failure? ==>
                  x.response == JsonResponse(JObject([("error", JStr(ExcText(c.generation.error)))]), 500))
  {
  }

  /** A search position past the end of the metadata list (all earlier positions
      fine) ends the request with "list index out of range". */
  lemma PositionOutOfRangeIs500(body: Json, c: Collaborators, k: nat)
    requires body.JObject? && Truthy(Question(body))
    requires LoadIndexAndMetadata(c).result.Success?
    requires c.embedding.Success? && Subscript(c.embedding.value, StrKey("embedding")).Success?
    requires c.search.Success? && k < |c.search.value|
    requires var metadata := LoadIndexAndMetadata(c).result.value;
             && metadata.JArray?
             && (forall i :: 0 <= i < k ==> BlockAt(metadata, c.search.value[i]).Success?)
             && !(-|metadata.items| <= c.search.value[k] < |metadata.items|)
    ensures Consultar(body, c).response ==
              JsonResponse(JObject([("error", JStr("list index out of range"))]), 500)
  {
    var metadata := LoadIndexAndMetadata(c).result.value;
    OutOfRangePosition(metadata.items, c.search.value[k]);
    FirstFailingPositionIs500(body, c, k);
  }

  /** `str(e)` of the first exception while building the context is the error
      text, after exactly the two reads, the embedding and the search. */
  lemma FirstFailingPositionIs500(body: Json, c: Collaborators, k: nat)
    requires body.JObject? && Truthy(Question(body))
    requires LoadIndexAndMetadata(c).result.Success?
    requires c.embedding.Success? && Subscript(c.embedding.value, StrKey("embedding")).Success?
    requires c.search.Success? && k < |c.search.value|
    requires var metadata := LoadIndexAndMetadata(c).result.value;
             && (forall i :: 0 <= i < k ==> BlockAt(metadata, c.search.value[i]).Success?)
             && BlockAt(metadata, c.search.value[k]).Failure?
    ensures var metadata := LoadIndexAndMetadata(c).result.value;
            var x := Consultar(body, c);
            && x.response ==
                 JsonResponse(JObject([("error", JStr(ExcText(BlockAt(metadata, c.search.value[k]).error)))]), 500)
            && |x.calls| == 4
  {
    var metadata := LoadIndexAndMetadata(c).result.value;
    ContextFailsAtFirst(metadata, c.search.value, k);
  }

  /** A retrieved record without `documento` makes the error text `'documento'`;
      one with `documento` but without `texto` makes it `'texto'`. This holds
      for a record reached through a negative position too, such as FAISS's -1. */
  lemma MissingRecordFieldIs500(body: Json, c: Collaborators, k: nat)
    requires body.JObject? && Truthy(Question(body))
    requires LoadIndexAndMetadata(c).result.Success?
    requires c.embedding.Success? && Subscript(c.embedding.value, StrKey("embedding")).Success?
    requires c.search.Success? && k < |c.search.value|
    requires var metadata := LoadIndexAndMetadata(c).result.value;
             && metadata.JArray?
             && (forall i :: 0 <= i < k ==> BlockAt(metadata, c.search.value[i]).Success?)
             && InRange(c.search.value[k], |metadata.items|)
             && var record := metadata.items[Normalize(c.search.value[k], |metadata.items|)];
                && record.JObject?
                && !(HasKey(record, "documento") && HasKey(record, "texto"))
    ensures var items := LoadIndexAndMetadata(c).result.value.items;
            var record := items[Normalize(c.search.value[k], |items|)];
            Consultar(body, c).response ==
              JsonResponse(JObject([("error", JStr(
                Quoted(if HasKey(record, "documento") then "texto" else "documento")))]), 500)
  {
    var metadata := LoadIndexAndMetadata(c).result.value;
    var p := c.search.value[k];
    var j := Normalize(p, |metadata.items|);
    var record := metadata.items[j];
    var name := if HasKey(record, "documento") then "texto" else "documento";
    assert BlockAt(metadata, p) == Failure(KeyError(StrKey(name))) by {
      if p < 0 {
        NegativePositionFromEnd(metadata.items, p);
      }
      MissingRecordField(metadata.items, j);
    }
    FirstFailingPositionIs500(body, c, k);
    QuotedName(name);
  }

  /** `str(KeyError(name))` for a member name the handler reads: the name in
      single quotes. */
  lemma QuotedName(name: string)
    requires name in {"metadatos", "embedding", "documento", "texto"}
    ensures ExcText(KeyError(StrKey(name))) == Quoted(name)
  {
    assert PlainText(name);
    KeyErrorText(name);
  }

  /** An exception from reading the index is the error text, after that one call. */
  lemma ReadIndexFailure(body: Json, c: Collaborators)
    requires body.JObject? && Truthy(Question(body))
    requires c.indexFileExists && c.metadataFileExists
    requires c.readIndex.Failure?
    ensures Consultar(body, c) ==
              Exchange(JsonResponse(JObject([("error", JStr(ExcText(c.readIndex.error)))]), 500),
                       [ReadIndex(IndexFile)])
  {
  }

  /** An exception from reading or decoding the metadata file is the error text,
      after the two reads. */
  lemma MetadataReadFailure(body: Json, c: Collaborators)
    requires body.JObject? && Truthy(Question(body))
    requires c.indexFileExists && c.metadataFileExists
    requires c.readIndex.Success? && c.metadataDocument.Failure?
    ensures Consultar(body, c) ==
              Exchange(JsonResponse(JObject([("error", JStr(ExcText(c.metadataDocument.error)))]), 500),
                       [ReadIndex(IndexFile), ReadMetadata(MetadataFile)])
  {
  }

  /** A metadata document without `metadatos` raises KeyError('metadatos'),
      whose text is the error, before any embedding call. */
  lemma MissingMetadatos(body: Json, c: Collaborators)
    requires body.JObject? && Truthy(Question(body))
    requires c.indexFileExists && c.metadataFileExists
    requires c.readIndex.Success? && c.metadataDocument.Success?
    requires c.metadataDocument.value.JObject? && !HasKey(c.metadataDocument.value, "metadatos")
    ensures Consultar(body, c) ==
              Exchange(JsonResponse(JObject([("error", JStr(Quoted("metadatos")))]), 500),
                       [ReadIndex(IndexFile), ReadMetadata(MetadataFile)])
  {
    MetadatosRaised(body, c);
    QuotedName("metadatos");
  }

  /** Whatever `json.load(f)["metadatos"]` raises (KeyError for a dict without
      it, TypeError for a list, a str or a value that is not subscriptable) is
      the error text, before any embedding call. */
  lemma MetadatosRaised(body: Json, c: Collaborators)
    requires body.JObject? && Truthy(Question(body))
    requires c.indexFileExists && c.metadataFileExists
    requires c.readIndex.Success? && c.metadataDocument.Success?
    requires Subscript(c.metadataDocument.value, StrKey("metadatos")).Failure?
    ensures Consultar(body, c) ==
              Exchange(JsonResponse(JObject([("error", JStr(ExcText(
                         Subscript(c.metadataDocument.value, StrKey("metadatos")).error)))]), 500),
                       [ReadIndex(IndexFile), ReadMetadata(MetadataFile)])
  {
  }

  /** Whatever `response["embedding"]` raises is the error text, before any
      search. */
  lemma EmbeddingKeyRaised(body: Json, c: Collaborators)
    requires body.JObject? && Truthy(Question(body))
    requires LoadIndexAndMetadata(c).result.Success?
    requires c.embedding.Success?
    requires Subscript(c.embedding.value, StrKey("embedding")).Failure?
    ensures Consultar(body, c) ==
              Exchange(JsonResponse(JObject([("error", JStr(ExcText(
                         Subscript(c.embedding.value, StrKey("embedding")).error)))]), 500),
                       [ReadIndex(IndexFile), ReadMetadata(MetadataFile),
                        EmbedContent(EmbeddingModel, Question(body), EmbeddingTask)])
  {
  }

  /** A metadata document that is a list makes the error text Python's
      TypeError for indexing a list with a str. */
  lemma MetadataListIs500(body: Json, c: Collaborators)
    requires body.JObject? && Truthy(Question(body))
    requires c.indexFileExists && c.metadataFileExists
    requires c.readIndex.Success? && c.metadataDocument.Success?
    requires c.metadataDocument.value.JArray?
    ensures Consultar(body, c).response ==
              JsonResponse(JObject([("error", JStr(ExcText(BadIndexType(ListType, StrType))))]), 500)
  {
    MetadatosRaised(body, c);
  }

  /** An embedding response without `embedding` raises KeyError('embedding'),
      whose text is the error, before any search. */
  lemma MissingEmbeddingKey(body: Json, c: Collaborators)
    requires body.JObject? && Truthy(Question(body))
    requires LoadIndexAndMetadata(c).result.Success?
    requires c.embedding.Success?
    requires c.embedding.value.JObject? && !HasKey(c.embedding.value, "embedding")
    ensures Consultar(body, c) ==
              Exchange(JsonResponse(JObject([("error", JStr(Quoted("embedding")))]), 500),
                       [ReadIndex(IndexFile), ReadMetadata(MetadataFile),
                        EmbedContent(EmbeddingModel, Question(body), EmbeddingTask)])
  {
    EmbeddingKeyRaised(body, c);
    QuotedName("embedding");
  }

  /** An exception from the search is the error text; no generation follows. */
  lemma SearchFailure(body: Json, c: Collaborators)
    requires body.JObject? && Truthy(Question(body))
    requires LoadIndexAndMetadata(c).result.Success?
    requires c.embedding.Success? && Subscript(c.embedding.value, StrKey("embedding")).Success?
    requires c.search.Failure?
    ensures var x := Consultar(body, c);
            && x.response == JsonResponse(JObject([("error", JStr(ExcText(c.search.error)))]), 500)
            && |x.calls| == 4
  {
  }

  /** Reading `.text` of the generator's response may raise; its text is then the
      error, after all five calls. */
  lemma AnswerTextRaises(body: Json, c: Collaborators)
    requires body.JObject? && Truthy(Question(body))
    requires Retrieve(Question(body), c).result.Success?
    requires c.generation.Success? && c.generation.value.text.Failure?
    ensures var x := Consultar(body, c);
            && x.response ==
                 JsonResponse(JObject([("error", JStr(ExcText(c.generation.value.text.error)))]), 500)
            && |x.calls| == 5
  {
  }
}
