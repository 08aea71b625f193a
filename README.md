# NoteFinder, modelled in Dafny

A model of the `NoteFinder` class of `bir-daha-unutmam`, a command-line
assistant that answers questions from a folder of Markdown notes. The program
does three things:

- **Ingest.** It embeds each note's text with an embedding provider and caches
  the vector in Redis under the key `"embedding:" + filename`.
- **Match.** It embeds a question and picks the cached note whose vector has the
  largest dot product with the question's vector. The first maximum wins.
- **Answer.** It sends that note and the question to a chat provider in a fixed
  four-message prompt.

`run` chooses between these from the `--dosya` argument:

- `hepsi` in any letter case ingests every note;
- any other non-empty value ingests that one file;
- no value starts the question loop, which ends on `bitir`.

The modules follow the program's layers:

| file | module | what it holds |
|---|---|---|
| `wrappers.dfy` | `Wrappers` | `Option` and `Result` |
| `text.dfy` | `Text` | the string operations the program relies on: `str.isspace`/`strip`, ASCII `lower`, `endswith`, `split(":")` |
| `vectors.dfy` | `Vectors` | the dot product, `argmax` and `find_closest` |
| `embeddings.dfy` | `Embeddings` | `get_embeddings` and its blank filter |
| `vector_cache.dfy` | `VectorCache` | the key codec and the Redis store, as class `VectorStore` |
| `note_finder.dfy` | `NoteFinder` | the methods of class `NoteFinder`, plus the specification functions: `IngestOne`, `Refreshed`, `AnswerQuestion`, `IsSessionOutcome` |

**How the outside world is represented:**

- **Providers:**
  - the embedding provider is a function parameter `embed: string -> Vector`;
  - the chat provider is a function parameter `chat: seq<Message> -> string`;
  - so the model proves what holds for every deterministic provider: a text always gets the same vector and a prompt the same reply.
- **Notes folder:** the listing and the file reads are parameters of the constructor. The notes are a `const` map, since the source never changes `self.notes` after `__init__`.
- **Redis:**
  - a `VectorStore` object holds a mutable `map`;
  - `set`, `get` and `keys` are its methods;
  - the order `KEYS` returns is unspecified, so the model picks it with `:|`.
- **Bulk ingest order:** Python walks the notes dict in insertion order. The model picks each next note with `:|` and proves the resulting cache is the same for every order.
- **Console:** the typed lines are a sequence `lines`. Running out of lines stands for `input()` raising `EOFError`.
- **Exceptions:** each exception the code raises, and does not catch, becomes an error value:
  - `BlankNote` and `BlankQuestion` for the `IndexError` of `get_embeddings([...])[0]` on blank text;
  - `Unmatched(EmptyIndex)` and `Unmatched(DimensionMismatch)` for numpy's `dot` failures;
  - `UnknownNote` for the `KeyError` of `self.notes[note_dates[index]]`.
  A failed question ends the session, as the uncaught exception ends `run`.

**Behaviour of the code that the model keeps:**

- **Not-found on single ingest.** The code only prints a message (app.py:58-59); nothing is raised. The model returns `NotFound` and writes nothing.
- **Blank note on single ingest.** The code raises `IndexError` (app.py:56); it does not report a skip. The model returns `BlankNote` and writes nothing.
- **Provider failure during bulk ingest.** The code has no per-note recovery: the first exception ends the bulk ingest. Provider failures are not modelled at all (see below).
- **Blank question.** The code has no separate check before embedding. The blank question fails at `[0]` (app.py:99), before the matcher and the chat provider are reached.
- **Key decoding.** `key.split(":")[1]` keeps only the text up to the first `':'` of the filename:
  - `DecodeEncode` proves a filename reads back unchanged exactly when it has no `':'`;
  - `DecodeEncodeTruncates` proves what it reads back as otherwise;
  - `ColonNameIsLost` proves that, if that shortened name is not a note, matching it fails the lookup;
  - `ColonNameShadows` proves that, if the shortened name is another note (`x.md:y.md` read back as `x.md`), the question is answered from that other note's text, with no error.

## Model

| member | source | states |
|---|---|---|
| Text.WhitespaceClasses | app.py:27 | the characters `strip()` removes include the ASCII space, tab, line feed, vertical tab, form feed and carriage return, and no ASCII letter or digit |
| Text.TrimStart | app.py:27 | the result is a suffix of the input; the dropped prefix is all whitespace; the result does not start with whitespace; it is empty exactly when the input is blank |
| Text.TrimEnd | app.py:27 | the result is a prefix; the dropped suffix is all whitespace; the result does not end with whitespace; it is empty exactly when the input is blank |
| Text.Strip | app.py:27 | a non-empty `strip()` neither starts nor ends with a character of the `str.isspace` set |
| Text.StripEmptyIffBlank | app.py:66 | `content.strip()` is falsy exactly when every character is whitespace |
| Text.ToLower | app.py:87 | lowering keeps the length and lowers each character on its own with `LowerAscii`, which changes only `A`-`Z`; the same function serves the stop-word test at app.py:96 |
| Text.LowerMatchesIff | app.py:87 | lowering the ASCII letters of `s` gives the lower-case ASCII word `t` exactly when `s` spells `t` with each letter in either case; for words without `'k'`, such as `hepsi` and `bitir`, this is Python's `s.lower() == t` |
| Text.EndsWith | app.py:16 | a text ends with a suffix exactly when it is at least as long and its last characters are the suffix's, in order |
| Text.IndexOf | app.py:46 | the position returned holds the separator, and no earlier position does |
| Text.Split | app.py:46 | `split` gives at least one piece; no piece contains the separator; there are two or more pieces exactly when the separator occurs |
| Text.JoinSplit | app.py:46 | joining the pieces with the separator gives back the original string |
| Vectors.Dot | app.py:62 | the dot product of empty vectors is zero and of one-component vectors is the product of the components |
| Vectors.DotAppend | app.py:62 | splitting both vectors at the same place splits their dot product into the sum of the parts' |
| Vectors.Scores | app.py:62 | `note_embeddings.dot(query)` has one score per candidate, the candidate's dot product with the query |
| Vectors.ArgMax | app.py:62 | `argmax` returns a position of a maximal score with no equal or larger score before it |
| Vectors.FirstMaxUnique | app.py:62 | the first maximum is unique, so `argmax` is determined by the scores |
| Vectors.FindClosest | app.py:61-62 | an empty index fails; a dimension mismatch fails; otherwise the match succeeds, and the index returned has a dot product at least every other candidate's and strictly greater than every earlier one's |
| Embeddings.NonBlank | app.py:27 | the filtered list is no longer than the input and holds no blank text |
| Embeddings.NonBlankOne | app.py:27 | a single text is kept exactly when it is not blank |
| Embeddings.NonBlankAppend | app.py:27 | the filter keeps order: filtering a concatenation is the concatenation of the filtered parts |
| Embeddings.NonBlankEmptyIffAllBlank | app.py:27-30 | nothing is kept exactly when every text is blank |
| Embeddings.NonBlankKeepsAll | app.py:27 | a list with no blank text is passed on unchanged |
| Embeddings.ProviderRequest | app.py:27-32 | the provider is not called exactly when all texts are blank; when it is called, the request is non-empty and holds no blank text |
| Embeddings.GetEmbeddings | app.py:26-35 | the result is empty exactly when all texts are blank; otherwise it holds one vector per kept text, in order, each the provider's vector for that text |
| Embeddings.EmbedOne | app.py:56 | `get_embeddings([text])` is empty for a blank text; otherwise it is exactly one vector, the provider's vector for that text |
| VectorCache.EncodeKey | app.py:39 | every derived key lies in the `embedding:` namespace |
| VectorCache.EncodeKeyInjective | app.py:39 | two filenames share a key only when they are equal |
| VectorCache.EncodeNameOf | app.py:45 | every key in the namespace is the key of the name after its prefix |
| VectorCache.FirstColonOfKey | app.py:46 | the first `':'` of a cache key is the one ending the prefix |
| VectorCache.DecodeKey | app.py:46 | the decoded identity has no `':'`, is a prefix of the name after the namespace, and stops only at a `':'` or at the end |
| VectorCache.DecodeEncode | app.py:39-46 | decoding an encoded filename gives it back exactly when it contains no `':'` |
| VectorCache.DecodeEncodeTruncates | app.py:39-46 | a filename with `':'` is read back as its text before the first `':'` |
| VectorCache.Put | app.py:39-40 | after the write, the filename's key holds the vector, and every other key keeps its presence and value |
| VectorCache.PutOverwrites | app.py:40 | writing the same key twice leaves the last value only |
| VectorCache.VectorStore.constructor | app.py:38 | the store starts with the given contents |
| VectorCache.VectorStore.Set | app.py:40 | `set` updates exactly that key |
| VectorCache.VectorStore.Get | app.py:49 | `get` returns the stored value of a present key |
| VectorCache.VectorStore.KeysWithPrefix | app.py:45 | `keys("embedding:*")` lists exactly the stored keys with the prefix, each once |
| NoteFinder.LoadNotes | app.py:13-19 | the notes are exactly the listed names ending in `.md`, each mapped to its file content |
| NoteFinder.IngestOne | app.py:53-59 | a missing or blank note leaves the cache as it was; an embeddable note writes its provider vector under its key; no other key changes |
| NoteFinder.IngestOneIdempotent | app.py:53-59 | ingesting the same unchanged note twice gives the cache of one ingest |
| NoteFinder.Refreshed | app.py:64-70 | after the bulk loop over `names`, every embeddable note has its fresh vector, and every key not belonging to one of them is unchanged |
| NoteFinder.RefreshedStep | app.py:65-68 | one more turn of the bulk loop is a single ingest of that note, whatever the order of the notes |
| NoteFinder.RefreshedIdempotent | app.py:64-70 | a second bulk ingest over unchanged notes leaves the cache of the first |
| NoteFinder.BulkIngestFrame | app.py:64-70 | a bulk ingest writes nothing for blank notes and touches no key outside the notes |
| NoteFinder.BulkIngestSkipsBlank | app.py:64-70 | with one blank and two non-blank notes, exactly the two non-blank notes get entries, and the blank one is the only skip |
| NoteFinder.Dispatch | app.py:85-90 | no value or an empty value asks questions; `hepsi` in any case ingests everything; any other value ingests that file |
| NoteFinder.IsStopWord | app.py:96-97 | the loop stops exactly on `bitir` spelled with each letter in either case |
| NoteFinder.NoteNameIsNeverSentinel | app.py:86-90 | a `.md` name is never taken for `hepsi`, so each note can be ingested alone |
| NoteFinder.RoleOf | app.py:76-79 | exactly the document and question messages have the user role, and exactly the instruction the system role |
| NoteFinder.ContentOf | app.py:76-79 | the content of the document message is the document, and of the question message the question |
| NoteFinder.ChatMessages | app.py:75-80 | the prompt is four turns, system, user, assistant and user, whose user contents are the document and then the question |
| NoteFinder.ChatMessagesWire | app.py:75-80 | the prompt is four messages: the fixed system text, the document as a user message, the fixed assistant text, and the question as a user message; the document and the question are the only user content |
| NoteFinder.PromptDeterminesInputs | app.py:75-80 | two prompts carry the same texts exactly when their documents and questions are equal; their fixed messages never differ |
| NoteFinder.AnswerQuestion | app.py:99-107 | one question fails as blank exactly when it is blank; an answer names a listed identity that is a note, and is the chat provider's reply to that note's prompt with the question |
| NoteFinder.AnswerQuestionSpec | app.py:99-107 | a blank question, an empty cache and a dimension mismatch fail before the chat provider is asked; otherwise the first best match is looked up, and when present it is the prompt's document |
| NoteFinder.ColonNameIsLost | app.py:106 | a note whose name contains `':'` is cached under a name that decodes to something else, and answering from it fails the notes lookup |
| NoteFinder.ColonNameShadows | app.py:106 | a note whose name contains `':'` and whose truncated name is another note is answered from that other note's text, with no error |
| NoteFinder.SessionOutcomeUnique | app.py:94-108 | for fixed providers, the lines typed determine the answers printed and how the session ends |
| NoteFinder.SnapshotRoundTrip | app.py:43-51 | every saved filename without `':'` appears in the loaded snapshot, paired with its saved vector |
| NoteFinder.TwoNoteCache | app.py:64-70 | bulk-ingesting two non-blank notes into an empty cache writes exactly their two keys |
| NoteFinder.TwoKeySnapshot | app.py:43-51 | a snapshot of a two-key cache lists the first key somewhere, with its decoded identity, and lists nothing but the two keys with their vectors |
| NoteFinder.BestOfTwo | app.py:61-62 | over two distinct keys, the candidate with the strictly higher score is the first best match |
| NoteFinder.AnswerScenario | app.py:92-107 | after ingesting two notes, in whatever order Redis lists them, a question scoring strictly higher against the first note is answered with that note as the document |
| NoteFinder.NoteFinder.constructor | app.py:9-11 | the notes are exactly the `.md` files of the listing with their contents |
| NoteFinder.NoteFinder.SaveEmbedding | app.py:37-41 | the store afterwards is the old store with the filename's key set to the vector |
| NoteFinder.NoteFinder.LoadEmbeddings | app.py:43-51 | the identities and vectors come from one key list, aligned by index, and cover exactly the namespace keys; every saved filename without `':'` is found with its vector |
| NoteFinder.NoteFinder.UpdateEmbedding | app.py:53-59 | the outcome is `NotFound` for a missing note, `BlankNote` for a blank one and `Saved` otherwise; the store afterwards is `IngestOne` of the old store |
| NoteFinder.NoteFinder.IngestListed | app.py:66-70 | one turn of the bulk loop: reports a blank note, and updates the store as `IngestOne` |
| NoteFinder.NoteFinder.UpdateAllEmbeddings | app.py:64-70 | the store afterwards is `Refreshed` over all notes; the skipped set is exactly the blank notes |
| NoteFinder.NoteFinder.AskQuestions | app.py:94-108 | the answers and the end of the session satisfy `IsSessionOutcome` for the typed lines |
| NoteFinder.NoteFinder.Run | app.py:85-108 | bulk ingest gives `Refreshed` and the blank notes as skips; single ingest gives `IngestOne` and its outcome; the question mode leaves the store unchanged, loads a snapshot and runs the loop over it |

## Left out

- OpenAI calls:
  - the embedding and chat providers are function parameters;
  - the model name, the HTTP request and the response parsing (app.py:32-35, 73-83) are not modelled;
  - provider exceptions (network, rate limit, malformed response) are not modelled: every call returns a value;
  - the providers are deterministic functions, so a real provider that answers the same request differently on two calls is not modelled. `SessionOutcomeUnique`, `IngestOneIdempotent` and `RefreshedIdempotent` depend on this.
- Redis: an in-memory map. Connection failures and the per-call `redis.Redis()` connection are not modelled.
- Vector format:
  - vectors are sequences of `int`, not float64, so dot products are exact and there is no NaN or rounding tie;
  - `tobytes`/`frombuffer` are taken to round-trip exactly, so a corrupted blob of the wrong length is not modelled.
- Ragged arrays: `np.array(embeddings)` in `load_embeddings_from_redis` may reject vectors of mixed length at load time. The model loads them and reports `DimensionMismatch` when the question is matched.
- Unreachable question loop: `main` calls `note_finder.run(args)` only when `--dosya` is given. So the question branch of `run` cannot be reached from the command line as written. It is modelled as `run` defines it.
- Console output: prints, the `input()` prompt text and the console are not modelled. The typed lines are a parameter.
- `argparse` is not modelled; `--dosya` is an `Option<string>`.
- The Gradio interface (app.py:112-165) is not modelled. It compares `filename == "hepsi"` case-sensitively, unlike `run`.
- Text.ToLower: lowers ASCII letters only. This gives the same verdict as Python's `str.lower()` for the two comparisons the program makes, against `hepsi` and `bitir`. It is not a model of `str.lower()` on arbitrary text.
- Filesystem: `os.listdir` and `open(...).read()` are parameters. Read errors and file encodings are not modelled.
