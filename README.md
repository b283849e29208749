# Modular RAG assistant — session core in Dafny

This project models the retrieval-augmented question-answering session of a small Gradio app.
A `RAGManager` owns two things:

- a vector index, which is absent until the first document is added;
- a chat memory of Human/AI messages.

`add_document` loads a PDF, Word or text file, splits it into chunks and appends them to the
index. `query` retrieves the three nearest chunks for a question and builds a prompt from three
parts: the chunks' texts, the last six history messages and the question. It asks Gemini for
an answer and records the question and the answer in the history. The two UI handlers drive
the session:

- `process_uploads` indexes a batch of files in order and stops at the first failure;
- `chat_interface` answers one chat message.

Files:

- `wrappers.dfy`: the `Option`, `Result` and `Outcome` values that stand in for `None` and
  exceptions.
- `text.dfy`: the Python string built-ins the core uses. These are `str.endswith`,
  `str.strip` with Python's whitespace set, `str.join`, and `str(n)` for a count.
- `rag_engine.dfy`: the `RAGManager` class and the functions that specify its methods.
  - `Ingest` specifies `AddDocument`, and `QueryResult` specifies `Query`.
  - `Context`, `HistoryText` and `Prompt` build the prompt.
  - `CallLlm` models `_call_llm`.
- `app.dfy`: `ProcessUploads`, which is specified by `RunUploads`, and `ChatInterface`.

The libraries are passed in as functions that either return a value or fail with `str(e)`:

- an `Extractor` is the chosen loader's `load()` followed by `split_documents`;
- a `Retriever` is `as_retriever(search_kwargs={"k": k}).invoke(question)`;
- a `Generator` is Gemini's `generate_content(prompt).text` for a model name.

The module-level `rag_system` is a `RAGManager?`, which is `null` when construction failed.
Gradio's message list is a `ChatLog` object that `ChatInterface` appends to in place.

When the Gemini call fails, `_call_llm` turns the exception into the answer
`" Gemini API Error: ..."`, and `query` records that answer in the chat history like any other
answer (rag_engine.py:97-98, 139-142). `QueryRecordsModelFailure` states this.

## Model

| member | source | states |
|---|---|---|
| RagEngine.RAGManager.Create | rag_engine.py:24-45 | Construction fails with " GEMINI_API_KEY is missing" when the key is missing or empty. With a key, it fails with the setup's own message when configuring Gemini, loading the embeddings or creating the store directory raised. Otherwise the new session has that key and model name, no index and an empty history. |
| RagEngine.ChooseLoaderBySuffix | rag_engine.py:51-56 | The PDF loader is chosen iff the path ends in ".pdf", the Word loader iff it ends in ".docx", and the UTF-8 text loader iff it ends in neither. |
| RagEngine.UpperCaseSuffixIsText | rag_engine.py:51-56 | The suffix tests are case-sensitive, so a path ending in ".PDF" or ".DOCX" goes to the text loader. |
| RagEngine.Ingest | rag_engine.py:49-82 | `add_document` fails iff loading or splitting raises, or the splitter returns no chunks. On success the index exists and is non-empty. |
| RagEngine.IngestAppends | rag_engine.py:69-76 | On success, the first document creates the index from its chunks. Later documents append their chunks after the chunks already there. |
| RagEngine.IngestPropagatesError | rag_engine.py:58-82 | When the loader or the splitter raises, `add_document` re-raises that same error. |
| RagEngine.IngestRejectsNoChunks | rag_engine.py:66-67 | An empty chunk list raises "No text chunks generated". |
| RagEngine.IngestTwiceDuplicates | rag_engine.py:69-76 | Nothing is deduplicated: adding the same document twice stores its chunks twice. |
| RagEngine.RAGManager.AddDocument | rag_engine.py:49-82 | Success or failure and the new index are exactly as `Ingest` says. A failure leaves the index unchanged. The history is never touched, and the session invariant is kept. |
| RagEngine.CallLlmAnswer | rag_engine.py:86-98 | On success, `_call_llm` returns the model text stripped, which has no leading or trailing whitespace, so stripping it again changes nothing. On failure it returns " Gemini API Error: " followed by the message, never an exception. |
| Text.Strip | rag_engine.py:96 | `s.strip()` neither starts nor ends with whitespace; it is empty exactly when the leading whitespace runs to the end of `s`; otherwise it is the slice of `s` that starts where the leading whitespace ends and ends where the trailing whitespace begins. |
| Text.StripEmptyIffAllSpace | app.py:35 | `s.strip() == ""` holds iff every character of `s` is whitespace. |
| Text.StripIdempotent | rag_engine.py:96 | Stripping a stripped text changes nothing. |
| RagEngine.ContextOfMore | rag_engine.py:115 | The context of two runs of chunks is the first run's context, then one blank line, then the second run's context. |
| RagEngine.ContextLength | rag_engine.py:115 | The context is as long as the chunk texts together, plus two characters per boundary between chunks. |
| RagEngine.PageContentsAppend | rag_engine.py:115 | The page contents of two runs of chunks are the first run's page contents followed by the second's. |
| Text.JoinAppend | rag_engine.py:115 | Joining two non-empty lists of parts puts exactly one separator between the two joins. |
| Text.JoinLength | rag_engine.py:115 | A join of n > 0 parts is as long as the parts together plus n - 1 separators. |
| RagEngine.RenderHistory | rag_engine.py:118-123 | The history loop produces `HistoryText` of its window, which is one "Human: "/"Assistant: " line per message, in order. |
| RagEngine.HistoryTextCons | rag_engine.py:118-123 | Rendering a message in front of others puts its line in front of their lines. |
| RagEngine.HistoryTextRoundTrip | rag_engine.py:118-123 | If no message contains a line feed, the rendered block reads back as exactly the same messages, in order and with their roles. |
| RagEngine.ParseHistoryOfLine | rag_engine.py:118-123 | A rendered line followed by more text reads back as that line's message, followed by whatever the rest reads back as. |
| RagEngine.ParseLineOfLabel | rag_engine.py:120-123 | A rendered line without its line feed reads back as its message, with the role given by its label. |
| RagEngine.FirstNewlineOfLine | rag_engine.py:121-123 | The first line feed after a rendered single-line message is the one that ends its line. |
| RagEngine.LastN | rag_engine.py:119 | `s[-n:]` has `n` elements, or all of `s` when it is shorter, and is the suffix of `s` of that length. |
| RagEngine.WindowIsLastTurns | rag_engine.py:119 | If the history is whole turns, the `[-6:]` window is whole turns too: the last three question/answer pairs, or all of them when there are fewer. |
| RagEngine.PromptLayout | rag_engine.py:125-137 | The prompt contains the fixed instructions, then the context, the "Chat History" header and the history text, in that order and at the stated positions. It ends with the question followed by the "Assistant:" cue. |
| RagEngine.QueryResult | rag_engine.py:103-149 | Without an index the answer is " Please upload documents first." and the history is unchanged. In every other case the history is either unchanged or gains exactly the question and the returned answer. |
| RagEngine.QueryRecordsIffModelReached | rag_engine.py:107-144 | The history gains one Human and one AI message iff an index exists and retrieval returned chunks. Otherwise it is unchanged, covering the two sentinels and a retrieval exception. |
| RagEngine.QueryRetrievalFailure | rag_engine.py:107-149 | When retrieval raises, the answer is " Error processing query: " followed by its message, and the history is unchanged. |
| RagEngine.QueryAnswersModelText | rag_engine.py:115-144 | When retrieval finds chunks, the model is asked with the prompt built from their context, the rendered last six messages and the question. Its text, stripped, is the answer, and the question and that answer are recorded. |
| RagEngine.QueryEmptyRetrieval | rag_engine.py:112-113 | When retrieval returns nothing, the answer is " No relevant information found in the documents." and nothing is recorded. |
| RagEngine.QueryRecordsModelFailure | rag_engine.py:139-142 | A Gemini failure answers " Gemini API Error: " followed by the message, and records the question and that answer. |
| RagEngine.QueryKeepsTurns | rag_engine.py:141-142 | `query` keeps the history a sequence of whole Human/AI turns. |
| RagEngine.AppendTurnKeepsTurns | rag_engine.py:141-142 | Appending a question and its answer to whole turns gives whole turns. |
| RagEngine.SecondQuestionSeesFirstTurn | rag_engine.py:119-142 | After a first question in a fresh session reaches the model, the next prompt's history window is exactly that turn. It renders as one Human line and one Assistant line. |
| RagEngine.OneTurnWindow | rag_engine.py:119-123 | A history of one turn fits in the window and renders as its two lines. |
| RagEngine.RAGManager.Query | rag_engine.py:103-149 | The answer and the new history are exactly those of `QueryResult` on the old state. The index is unchanged, and the history stays whole turns. |
| App.RunUploads | app.py:21-29 | A batch indexes files in order. It processes every file iff no file fails, and it never reports more files than it was given. An index appears once a file succeeds, and is left alone when the first file fails. |
| App.UploadsAppendInOrder | app.py:23-25 | The index afterwards is the old chunks followed by the processed files' chunks, file after file. |
| App.UploadsStopAtFirstFailure | app.py:23-29 | Every file before the first failing one was indexed, leaving the reported index. The failing file raised the reported error on that index. |
| App.UploadsIgnoreLaterFiles | app.py:23-29 | Files after the first failing one are never attempted: replacing them by any other files gives the same outcome. |
| App.ProcessUploads | app.py:15-29 | No files gives " No files uploaded." and no session gives " RAG system not initialized.". Otherwise the index becomes the one `RunUploads` gives and the status line reports either the processed count or " Error: " followed by the first error. The history is never touched. |
| App.SuccessStatusReportsCount | app.py:27 | Different processed counts give different status lines. |
| Text.NatToString | app.py:27 | `str(n)` of a count is a non-empty run of decimal digits with no leading zero (other than "0" itself). |
| Text.NatToStringRoundTrip | app.py:27 | The decimal text of the count reads back as the count. |
| Text.NatToStringInjective | app.py:27 | Different counts print differently. |
| App.IsBlankIffAllSpace | app.py:35-36 | A message is ignored iff it is empty or made of whitespace only. |
| App.ChatInterface | app.py:34-71 | Four cases: (1) A blank message changes nothing. (2) With no session, one assistant notice " RAG system not initialized." is appended. (3) With no index, " Please upload documents first." is appended and nothing is queried. (4) Otherwise the session is queried with the message as typed, and the user's message and then the answer are appended. In all cases the same list object is returned. |

## Left out

- Loaders, splitter, embeddings, Chroma and Gemini are external libraries. They are oracles passed in as functions, so the model does not cover PDF or Word parsing, chunk size 1000 and overlap 150, similarity ranking, or the sampling parameters (temperature 0.4, 512 output tokens).
- A failure inside Chroma's own insertion is not modelled: adding chunks to the index always succeeds once the splitter has produced them.
- The store directory is not modelled. Every new session starts with no index (rag_engine.py:39), and nothing reopens the directory. The first `Chroma.from_documents(..., persist_directory=...)` (rag_engine.py:70-74) writes into whatever collection that directory already holds. RagEngine.IngestAppends: "the first document creates the index from its chunks" assumes the store directory starts empty; otherwise the index also holds chunks from earlier runs.
- `config.py`, `genai.configure`, `os.makedirs` and the `print` logging are I/O. The environment-derived API key and model name become parameters of `Create`.
- RagEngine.RAGManager.Create: `__init__` raising is modelled as an `Err` result, and the module-level `try`/`except` that sets `rag_system = None` is represented by passing a `null` session to the handlers. `genai.configure`, the `HuggingFaceEmbeddings` constructor and `os.makedirs` (rag_engine.py:30, 34-36, 40) are folded into one `setup` outcome. The model does not say which of them raised. Because a failed `__init__` leaves no object behind, the order in which they run against the field assignments does not matter.
- The Gradio layout, button wiring and `demo.launch` are UI code and are not modelled.
- App.ChatInterface: the `except` branch of `chat_interface` (app.py:66-71) is not modelled, because `query` catches every exception raised inside its body, so that branch is never reached.
- App.ProcessUploads: a `None` file list is modelled as the empty list, and files are given by their `str(file)` paths.
- App.IsBlank: a `None` message is modelled as the empty string.
- The history only holds Human and AI messages, so the `isinstance` filter in the history loop never skips a message. Other message kinds cannot be represented.
- Concurrent uploads and queries are not modelled: each handler runs to completion before the next one starts.
- RagEngine.HistoryTextRoundTrip: the round trip is stated only for messages without a line feed, because a line feed inside a message makes the rendered block ambiguous.
