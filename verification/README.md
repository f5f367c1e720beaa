# chat_Neuro_Whatsapp: a Dafny model of its two request handlers

The repository has two small Flask services:

- **`/consultar`** (`app_faiss_api.py`) answers a question by retrieval-augmented
  generation. It validates `pregunta`, loads the FAISS index and `metadata.json`
  (on every request), embeds the question with Gemini, searches the index, builds a
  context from the metadata records at the returned positions, asks Gemini to answer
  from a fixed Spanish prompt, and returns `{"respuesta": text}`. Any exception on the
  way becomes `{"error": str(e)}` with status 500. An OPTIONS request on any non-root
  path answers `{}` with 200. `OPTIONS /` matches no route, because `<path:path>`
  needs at least one character, so Flask answers 404.
- **`/webhook`** (`app.py`) is a WhatsApp Cloud API webhook. A GET is Meta's
  verification handshake. A POST walks `entry → changes → value → messages` and
  answers the first message of every change with
  `Recibí tu mensaje: '<text>' ✅`.

The model is functional. Requests are already-decoded JSON values. The file system,
FAISS and Gemini are collaborators whose outcomes for the request are given in a
`Collaborators` record. The `/consultar` handler returns its response together with
the ordered trace of calls it made on them, so "no embedding call happens" is a
statement about the trace. The webhook returns the ordered list of outbound requests it
intends to post, together with its response.

Python's own semantics are modelled where the handlers depend on them (module `Python`):

- truthiness;
- `dict.get`;
- subscripting with list indexing rules (negative positions count from the end);
- iteration over a str or a dict, which yields characters or keys;
- `str()` / `repr()` as an f-string applies them;
- the built-in exceptions and the text `str(e)` gives for each.

Files:

- `wrappers.dfy`: `Option` and `Result`.
- `python.dfy`: JSON values and the Python semantics above.
- `http.dfy`: Flask responses. `NotFound` is a path no route matches. `Unhandled` is an exception escaping a view, which Flask
  answers with its own 500 page.
- `faiss_api.dfy`: the `/consultar` service.
- `webhook.dfy`: the webhook.

Behaviours of the code worth noting, each of which the model follows:

- The index and metadata are loaded inside the `try` on every request. A missing file
  is a per-request 500, not a failure at startup.
- The answer is `response.text`, read directly. No alternative response shapes are
  tried, and reading `.text` may itself raise.
- There is no embedding cache, no local embedding model, and no check that the record
  count matches the index size.
- Search positions are used as Python list indices. FAISS pads missing neighbours with
  -1, so an index holding fewer than 3 vectors makes `metadata[-1]` select the last
  record again. It does not return fewer blocks (`FaissApi.NegativePositionFromEnd`).
- The webhook's POST ends with `("EVENT_RECEIVED", 200)` only for well-shaped payloads
  (`Webhook.WellShaped`). A non-dict entry, change, value or message, a non-list
  `messages` that is truthy, or a `text` that is not a dict raises. The exception
  escapes the view after the replies for everything before it were already sent
  (`Webhook.EventReceivedIff`, `Webhook.EarlierRepliesKept`).
- Both source files have CRLF line endings. Python reads them as `\n`, so the prompt's lines are
  joined by `\n`.

## Model

| member | source | states |
|---|---|---|
| `Python.Get` | app_faiss_api.py:83 | `d.get(k, default)` raises AttributeError exactly when the value is not a dict; otherwise it gives the stored value, or the default when the key is absent |
| `Python.Iterate` | app.py:33-34 | a `for` loop accepts exactly lists, strs and dicts; a list yields its elements, and a str or dict yields only strings (its characters or keys) |
| `Python.Str` | app_faiss_api.py:56 | an f-string inserts a str unchanged, None as "None", and an int as text that reads back as the same int |
| `Python.ListIndexing` | app_faiss_api.py:55 | `metadata[idx]` on a list succeeds exactly for `-len <= idx < len`; a non-negative idx selects that element, a negative one selects element `len + idx`, and anything else raises IndexError |
| `Python.NegativeIndexFromEnd` | app_faiss_api.py:55 | an in-range negative position selects the same element as that position plus the length |
| `Python.KeyErrorText` | app_faiss_api.py:92-93 | `str(KeyError(k))` for a key with no quote, backslash or control character is `repr` of the key, which is the key between single quotes, so a missing `documento` reports `'documento'` |
| `Python.LookupDistinct` | app_faiss_api.py:83 | in a dict whose keys are distinct, reading a key gives back exactly the value stored under it |
| `FaissApi.LoadIndexAndMetadata` | app_faiss_api.py:41-47 | if either file is missing it raises FileNotFoundError with the fixed message before reading anything; otherwise it reads the index, then the metadata file. It succeeds exactly when both reads succeed and the document has `metadatos`, and then returns that member |
| `FaissApi.AssembleContext` | app_faiss_api.py:53-57 | the Python loop (start from "", append one block per position, stop at the first exception) computes the same result as the recursive context definition |
| `FaissApi.ContextSucceedsIff` | app_faiss_api.py:54-56 | the context is built exactly when every returned position yields a block |
| `FaissApi.ContextIsBlocks` | app_faiss_api.py:53-57 | a built context is exactly the left-to-right concatenation of one `Documento: …\nTexto: …\n\n` block per position, in search order, and nothing else |
| `FaissApi.ContextFailsAtFirst` | app_faiss_api.py:54-56 | a failed context carries the exception of the first position that has no block |
| `FaissApi.OutOfRangePosition` | app_faiss_api.py:55 | a position `>= len(metadata)` or `< -len(metadata)` raises IndexError |
| `FaissApi.NegativePositionFromEnd` | app_faiss_api.py:52-55 | an in-range negative position silently uses a record counted from the end, so -1 uses the last record |
| `FaissApi.MissingRecordField` | app_faiss_api.py:56 | a record without `documento` raises KeyError('documento'); one with `documento` but without `texto` raises KeyError('texto'); one with both yields their block |
| `FaissApi.Prompt` | app_faiss_api.py:61-70 | the prompt is the fixed instruction, then the context, then the question, each verbatim and in that order, followed by a newline |
| `FaissApi.PromptDeterminesInputs` | app_faiss_api.py:61-70 | given the context's length, the prompt determines both the context and the question |
| `FaissApi.Consultar` | app_faiss_api.py:76-93 | a non-dict body raises outside the `try`. A falsy `pregunta` gives 400 `{"error": "Falta el campo 'pregunta'"}` with no collaborator call. Otherwise the body holds exactly one of `respuesta` (status 200) and `error` (status 500) |
| `FaissApi.Handle` | app_faiss_api.py:75-99 | OPTIONS on `/consultar` or any other non-root path answers `{}` with 200 and calls nothing; OPTIONS on the root matches no rule and is 404; POST is `consultar` |
| `FaissApi.AnsweredIff` | app_faiss_api.py:88-93 | the answer (200) comes back exactly when the question is truthy and every collaborator and every returned position succeeds; the `respuesta` is the generator's `.text` unchanged |
| `FaissApi.CallsInPipelineOrder` | app_faiss_api.py:41-52 | collaborator calls happen at most once each, in the order read index, read metadata, embed, search, generate. The embedding is asked for only after both files were loaded and `metadatos` found, the search only after the embedding response had its `embedding` member, and generation only after the context was built. The embedding is asked for the question itself and the search uses k = 3 |
| `FaissApi.RetrieveCalls` | app_faiss_api.py:41-52 | the retrieval stage's calls are a prefix of read index, read metadata, embed (the question), search (k = 3); the embed call comes only after loading succeeded and the search only after the `embedding` member was read; retrieval succeeds only after all four |
| `FaissApi.MissingFilesFailFast` | app_faiss_api.py:41-51 | a missing index or metadata file is a 500 with the FileNotFoundError message and no read, embedding, search or generation call |
| `FaissApi.EmbeddingFailure` | app_faiss_api.py:33-39 | an exception from the embedding call is the 500 error text, with no search or generation call |
| `FaissApi.GenerationSeesContext` | app_faiss_api.py:59-72 | after a successful retrieval, the generator is called once with the prompt built from the assembled context and the question, and its failure becomes the 500 error text |
| `FaissApi.PositionOutOfRangeIs500` | app_faiss_api.py:54-56 | the first out-of-range search position makes the request a 500 with "list index out of range" |
| `FaissApi.FirstFailingPositionIs500` | app_faiss_api.py:54-56 | `str(e)` of the exception raised at the first search position that yields no block is the 500 error text, after exactly the two reads, the embedding and the search |
| `FaissApi.MissingRecordFieldIs500` | app_faiss_api.py:55-56 | a retrieved record, reached through a non-negative or an in-range negative position such as FAISS's -1, makes the 500 error text `'documento'` when it lacks `documento`, and `'texto'` when it has `documento` but lacks `texto` |
| `FaissApi.ReadIndexFailure` | app_faiss_api.py:44 | an exception from `faiss.read_index` is the 500 error text, after that single call |
| `FaissApi.MetadataReadFailure` | app_faiss_api.py:45-46 | an exception from opening or decoding `metadata.json` is the 500 error text, after the two reads and before any embedding |
| `FaissApi.MissingMetadatos` | app_faiss_api.py:46 | a metadata document without `metadatos` makes the 500 error text `'metadatos'`, before any embedding call |
| `FaissApi.MissingEmbeddingKey` | app_faiss_api.py:39 | an embedding response without `embedding` makes the 500 error text `'embedding'`, before any search |
| `FaissApi.MetadatosRaised` | app_faiss_api.py:46 | whatever `json.load(f)["metadatos"]` raises is the 500 error text, after the two reads and before any embedding call |
| `FaissApi.MetadataListIs500` | app_faiss_api.py:46 | a metadata document that is a list makes the 500 error text Python's TypeError for indexing a list with a str |
| `FaissApi.EmbeddingKeyRaised` | app_faiss_api.py:39 | whatever `response["embedding"]` raises is the 500 error text, after read, read and embed and before any search |
| `FaissApi.SearchFailure` | app_faiss_api.py:52 | an exception from `index.search` is the 500 error text, after four calls and with no generation |
| `FaissApi.AnswerTextRaises` | app_faiss_api.py:71-72 | an exception from reading `.text` of the generator's response is the 500 error text, after all five calls |
| `Webhook.VerifyHandshake` | app.py:20-26 | a matching token (Python `==` on str-or-None) echoes `hub.challenge` with 200, or fails in Flask when the challenge is absent; any other token gives ("Token inválido", 403) |
| `Webhook.ChallengeEchoedIff` | app.py:22-26 | with a configured token, the status is 200 exactly when that token and a challenge were presented; the body is then the challenge |
| `Webhook.SendMessage` | app.py:49-61 | the post goes to `https://graph.facebook.com/v18.0/<PHONE_NUMBER_ID>/messages` with a `Bearer <ACCESS_TOKEN>` Authorization header and a JSON Content-Type; its payload is the four-field WhatsApp text message |
| `Webhook.PayloadReadsBack` | app.py:56-61 | read back as a dict, the payload gives messaging_product "whatsapp", the recipient `to`, type "text" and `text.body` equal to the message |
| `Webhook.HandleEvent` | app.py:28-47 | a non-dict body raises before any send. A missing or falsy `entry` sends nothing and answers ("EVENT_RECEIVED", 200). Any other outcome is that answer or an exception escaping the view |
| `Webhook.Webhook` | app.py:18-47 | a GET sends nothing and answers with the verification handshake's response; a POST is the event walk |
| `Webhook.MessageReplyIff` | app.py:38-45 | a truthy `messages` is answered without raising exactly when it is a list whose first element is a dict with a dict-or-absent `text`; the reply is the one for that first message |
| `Webhook.ChangeReplyIff` | app.py:34-45 | a change raises nothing exactly when it is well formed. It then yields exactly one reply (to `from`, echoing `text.body` or "") when `messages` is non-empty, and none otherwise |
| `Webhook.LaterMessagesIgnored` | app.py:37-38 | messages after the first one in a change do not affect the reply |
| `Webhook.ChangesRunIff` | app.py:34-45 | walking a list of changes raises nothing exactly when all are well formed, and then sends one reply per change with messages, in change order |
| `Webhook.EntryRunIff` | app.py:33-45 | an entry raises nothing exactly when it is a dict whose `changes` is a list of well-formed changes or an empty str or dict; it then sends the replies of its changes in order |
| `Webhook.EntriesRunIff` | app.py:33-45 | walking the entries raises nothing exactly when all are well formed, and then sends the replies of all their changes, entry by entry |
| `Webhook.EventReceivedIff` | app.py:28-47 | a POST ends with ("EVENT_RECEIVED", 200) exactly when its payload is well shaped. The replies are then one per change with non-empty messages, entries in order and changes in order within an entry |
| `Webhook.EntriesRunAppend` | app.py:33-34 | walking two runs of entries is walking the first and then, if it raised nothing, the second |
| `Webhook.EarlierRepliesKept` | app.py:33-45 | replies for well-formed leading entries are sent even when a later entry raises |

## Left out

- Werkzeug's path handling beyond the root versus non-root split for OPTIONS: merging repeated slashes and the redirects it issues are not modelled, and a `Preflight` path is taken as already normalised.
- Flask routing of methods a route does not list, CORS configuration, `request.get_json` decoding (and its own 400/415 answers for undecodable bodies) and `app.run`: requests arrive as decoded JSON values.
- `load_dotenv` / `os.getenv` and `genai.configure`: `VERIFY_TOKEN`, `ACCESS_TOKEN` and `PHONE_NUMBER_ID` are parameters that may be unset (`None`).
- FAISS `read_index` and `index.search`: their outcomes are given, and search returns an arbitrary sequence of integer positions. Distances, float32 vectors and the `np.array` conversion of the embedding are floating-point foreign code. An exception from that conversion is not modelled.
- Gemini `embed_content`, `GenerativeModel` and `generate_content`: network calls whose outcomes (a response or an exception) are given.
- Reading and parsing `metadata.json`: the decoded document is given, and only its `["metadatos"]` selection is modelled.
- JSON numbers with a fraction: the JSON model has integers only.
- Python.Str: `repr` of a str escapes backslash, the quote in use, `\n`, `\r` and `\t`, but not other non-printable characters, which Python writes as `\x..`/`\u....`.
- Python.Lookup: a JSON object with a repeated key reads its first entry, while `json.loads` keeps the last one. Inputs are taken to have distinct keys (`Python.DistinctKeys`), where the two agree.
- Python.ExcText: TypeError texts follow CPython 3.11 and later (`string indices must be integers, not 'str'`). A KeyError raised with a NumPy integer position is written as a plain int, without NumPy's own repr.
- `requests.post` is assumed not to raise. Its HTTP response and all `print` logging in `app.py` are I/O and are not modelled.
- The body of Flask's own 500 page for an exception escaping a view is not modelled; the model records only the exception.
