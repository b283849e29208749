/**
 * The RAG session of rag_engine.py: a `RAGManager` holding a vector index that is absent until
 * the first document is indexed, and a chat history of Human/AI messages.
 *
 * The libraries the session calls are oracles passed in by the caller:
 *   - an `Extractor` stands for the chosen loader's `load()` followed by the splitter's
 *     `split_documents` (chunk size 1000, overlap 150);
 *   - a `Retriever` stands for `as_retriever(search_kwargs={"k": k}).invoke(question)` on the index;
 *   - a `Generator` stands for Gemini's `generate_content(prompt).text` under a model name.
 * Each either returns a value or raises; a raise is an `Err` carrying `str(e)`.
 */
module RagEngine {
  import opened Wrappers
  import opened Text

  /** A chunk produced by the splitter; the session only ever reads its page content. */
  datatype Chunk = Chunk(pageContent: string)

  /** An entry of the chat memory: a `HumanMessage` or an `AIMessage`. */
  datatype Message = Human(content: string) | AI(content: string)

  /** The three document loaders: PyPDFLoader, Docx2txtLoader and TextLoader (UTF-8). */
  datatype Loader = PdfLoader | DocxLoader | TextLoader

  /** `vector_db`: `None` before the first document, then the store's chunks in insertion order. */
  type Index = Option<seq<Chunk>>

  type Extractor = (Loader, string) -> Result<seq<Chunk>>
  type Retriever = (seq<Chunk>, string, nat) -> Result<seq<Chunk>>
  type Generator = (string, string) -> Result<string>

  const RetrievalK: nat := 3
  const HistoryWindow: nat := 6
  const ContextSeparator := "\n\n"
  const HumanLabel := "Human: "
  const AssistantLabel := "Assistant: "

  const MissingKeyError := " GEMINI_API_KEY is missing"
  const NoChunksError := "No text chunks generated"
  const NoDocumentsReply := " Please upload documents first."
  const NoRelevantReply := " No relevant information found in the documents."
  const QueryErrorPrefix := " Error processing query: "
  const GeminiErrorPrefix := " Gemini API Error: "

  const PromptHeader := "\nYou are a helpful AI assistant.\nAnswer strictly using the provided context.\n\nContext:\n"
  const HistoryHeader := "\n\nChat History:\n"
  const QuestionHeader := "\n\nHuman: "
  const AnswerCue := "\nAssistant:\n"

  // ---------------------------------------------------------------------------------------------
  // Document ingestion

  /** The loader `add_document` picks for `path`. */
  function ChooseLoader(path: string): Loader {
    if EndsWith(path, ".pdf") then PdfLoader
    else if EndsWith(path, ".docx") then DocxLoader
    else TextLoader
  }

  /**
   * `.pdf` is tested first, then `.docx`, and any other path is read as UTF-8 text. No path
   * ends in both suffixes, so each loader is chosen exactly when its own test holds.
   */
  lemma ChooseLoaderBySuffix(path: string)
    ensures ChooseLoader(path) == PdfLoader <==> EndsWith(path, ".pdf")
    ensures ChooseLoader(path) == DocxLoader <==> EndsWith(path, ".docx")
    ensures ChooseLoader(path) == TextLoader <==> !EndsWith(path, ".pdf") && !EndsWith(path, ".docx")
  {
    if EndsWith(path, ".docx") {
      assert path[|path| - 1] == 'x';
    }
  }

  /** Suffix tests are case-sensitive: `report.PDF` goes to the text loader. */
  lemma UpperCaseSuffixIsText(path: string)
    requires EndsWith(path, ".PDF") || EndsWith(path, ".DOCX")
    ensures ChooseLoader(path) == TextLoader
  {
    assert path[|path| - 1] == (if EndsWith(path, ".PDF") then 'F' else 'X');
  }

  /** The chunks held by an index; none while it is absent. */
  function Chunks(db: Index): seq<Chunk> {
    if db.Some? then db.value else []
  }

  /**
   * The index after `add_document(path)`, or the error it raises. An empty chunk list is
   * rejected before the index is touched; otherwise the first document creates the index and
   * later ones append, so the old chunks stay a strict prefix of the new ones.
   */
  function Ingest(db: Index, path: string, extract: Extractor): (r: Result<Index>)
    ensures r.Err? <==> extract(ChooseLoader(path), path).Err? || extract(ChooseLoader(path), path) == Ok([])
    ensures r.Ok? ==> r.value.Some? && r.value.value != []
  {
    match extract(ChooseLoader(path), path)
    case Err(e) => Err(e)
    case Ok(chunks) =>
      if chunks == [] then Err(NoChunksError)
      else if db.None? then Ok(Some(chunks))
      else Ok(Some(db.value + chunks))
  }

  /**
   * A successful `add_document` creates the index from the document's chunks when there is
   * none, and otherwise appends them after the chunks already there.
   */
  lemma IngestAppends(db: Index, path: string, extract: Extractor)
    requires Ingest(db, path, extract).Ok?
    ensures var chunks := extract(ChooseLoader(path), path).value;
            && Chunks(Ingest(db, path, extract).value) == Chunks(db) + chunks
            && (db.None? ==> Ingest(db, path, extract).value == Some(chunks))
  {
  }

  /** The empty-chunk error is the one raised when the splitter returns nothing. */
  lemma IngestRejectsNoChunks(db: Index, path: string, extract: Extractor)
    requires extract(ChooseLoader(path), path) == Ok([])
    ensures Ingest(db, path, extract) == Err(NoChunksError)
  {
  }

  /** A loader or splitter exception propagates out of `add_document` with its own message. */
  lemma IngestPropagatesError(db: Index, path: string, extract: Extractor, e: string)
    requires extract(ChooseLoader(path), path) == Err(e)
    ensures Ingest(db, path, extract) == Err(e)
  {
  }

  /** Nothing is deduplicated: indexing the same document twice stores its chunks twice. */
  lemma {:induction false} IngestTwiceDuplicates(db: Index, path: string, extract: Extractor)
    requires Ingest(db, path, extract).Ok?
    ensures var once := Ingest(db, path, extract).value;
            var chunks := extract(ChooseLoader(path), path).value;
            Ingest(once, path, extract) == Ok(Some(Chunks(db) + chunks + chunks))
  {
    var chunks := extract(ChooseLoader(path), path).value;
    var once := Ingest(db, path, extract).value;
    assert Chunks(once) == Chunks(db) + chunks;
  }

  // ---------------------------------------------------------------------------------------------
  // Gemini call

  /**
   * `_call_llm`: the stripped model text, or an error string when the call raises. It never
   * raises itself.
   */
  function CallLlm(outcome: Result<string>): string {
    match outcome
    case Ok(text) => Strip(text)
    case Err(e) => GeminiErrorPrefix + e
  }

  /**
   * What `_call_llm` returns: on success the model's text with the surrounding whitespace cut
   * off, so that stripping it again changes nothing; on failure the error string, never an
   * exception.
   */
  lemma CallLlmAnswer(outcome: Result<string>)
    ensures var r := CallLlm(outcome);
            && (outcome.Ok? ==> r == Strip(outcome.value) && Strip(r) == r)
            && (outcome.Ok? ==> r == [] || (!IsSpace(r[0]) && !IsSpace(r[|r| - 1])))
            && (outcome.Err? ==> r == GeminiErrorPrefix + outcome.msg)
  {
    if outcome.Ok? {
      StripIdempotent(outcome.value);
    }
  }

  // ---------------------------------------------------------------------------------------------
  // Prompt assembly

  /** The page contents of the retrieved chunks, in retrieval order. */
  function PageContents(docs: seq<Chunk>): (r: seq<string>)
    ensures |r| == |docs|
    ensures forall i :: 0 <= i < |docs| ==> r[i] == docs[i].pageContent
    decreases |docs|
  {
    if docs == [] then [] else [docs[0].pageContent] + PageContents(docs[1..])
  }

  /** `"\n\n".join(doc.page_content for doc in docs)`. */
  function Context(docs: seq<Chunk>): string {
    Join(ContextSeparator, PageContents(docs))
  }

  /** Context of n > 0 chunks: their texts in order, with one blank line between neighbours. */
  lemma ContextOfMore(docs: seq<Chunk>, more: seq<Chunk>)
    requires docs != [] && more != []
    ensures Context(docs + more) == Context(docs) + ContextSeparator + Context(more)
  {
    PageContentsAppend(docs, more);
    JoinAppend(ContextSeparator, PageContents(docs), PageContents(more));
  }

  /** The page contents of two runs of chunks are the two runs' page contents, in order. */
  lemma {:induction false} PageContentsAppend(docs: seq<Chunk>, more: seq<Chunk>)
    ensures PageContents(docs + more) == PageContents(docs) + PageContents(more)
    decreases |docs|
  {
    if docs != [] {
      assert (docs + more)[1..] == docs[1..] + more;
      PageContentsAppend(docs[1..], more);
    }
  }

  /** The length of the context is the texts' lengths plus two characters per boundary. */
  lemma ContextLength(docs: seq<Chunk>)
    requires docs != []
    ensures |Context(docs)| == TotalLength(PageContents(docs)) + 2 * (|docs| - 1)
  {
    JoinLength(ContextSeparator, PageContents(docs));
  }

  /** Python's `s[-n:]`: the last `n` elements, or all of `s` when it is shorter. */
  function LastN<T>(s: seq<T>, n: nat): (r: seq<T>)
    ensures |r| == if |s| < n then |s| else n
    ensures r == s[|s| - |r|..]
  {
    if |s| <= n then s else s[|s| - n..]
  }

  /** The role label of a message in the "Chat History" block. */
  function Label(m: Message): string {
    match m
    case Human(_) => HumanLabel
    case AI(_) => AssistantLabel
  }

  /** How one message is rendered in the "Chat History" block: its label, its content, a line feed. */
  function Line(m: Message): string {
    Label(m) + m.content + "\n"
  }

  /** The text the history loop of `query` builds: one labelled line per message, in order. */
  function HistoryText(window: seq<Message>): string
    decreases |window|
  {
    if window == [] then "" else HistoryText(window[..|window| - 1]) + Line(window[|window| - 1])
  }

  /** The history loop of `query`. */
  method RenderHistory(window: seq<Message>) returns (text: string)
    ensures text == HistoryText(window)
  {
    text := "";
    for i := 0 to |window|
      invariant text == HistoryText(window[..i])
    {
      assert window[..i + 1][..i] == window[..i];
      match window[i]
      case Human(c) =>
        text := text + (HumanLabel + c + "\n");
      case AI(c) =>
        text := text + (AssistantLabel + c + "\n");
    }
    assert window[..|window|] == window;
  }

  /** Rendering a message in front of others puts its line in front of theirs. */
  lemma {:induction false} HistoryTextCons(m: Message, ms: seq<Message>)
    ensures HistoryText([m] + ms) == Line(m) + HistoryText(ms)
    decreases |ms|
  {
    if ms == [] {
      assert [m] + ms == [m];
      assert [m][..0] == [];
    } else {
      var front, last := ms[..|ms| - 1], ms[|ms| - 1];
      var all := [m] + ms;
      assert all[..|all| - 1] == [m] + front;
      assert all[|all| - 1] == last;
      assert HistoryText(all) == HistoryText([m] + front) + Line(last);
      HistoryTextCons(m, front);
      assert HistoryText(ms) == HistoryText(front) + Line(last);
      assert (Line(m) + HistoryText(front)) + Line(last) == Line(m) + (HistoryText(front) + Line(last));
    }
  }

  /** Position of the first line feed of `s`, or `|s|` when there is none. */
  function FirstNewline(s: string): (i: nat)
    ensures i <= |s| && (i < |s| ==> s[i] == '\n')
    ensures forall j :: 0 <= j < i ==> s[j] != '\n'
    decreases |s|
  {
    if s == [] || s[0] == '\n' then 0 else 1 + FirstNewline(s[1..])
  }

  /** Reads one rendered line (without its line feed) back as a message. */
  function ParseLine(line: string): Option<Message> {
    if |HumanLabel| <= |line| && line[..|HumanLabel|] == HumanLabel then Some(Human(line[|HumanLabel|..]))
    else if |AssistantLabel| <= |line| && line[..|AssistantLabel|] == AssistantLabel then Some(AI(line[|AssistantLabel|..]))
    else None
  }

  /** Reads a "Chat History" block back as the messages it renders. */
  function ParseHistory(text: string): Option<seq<Message>>
    decreases |text|
  {
    if text == [] then Some([])
    else
      var i := FirstNewline(text);
      if i == |text| then None
      else match ParseLine(text[..i])
        case None => None
        case Some(m) =>
          match ParseHistory(text[i + 1..])
          case None => None
          case Some(ms) => Some([m] + ms)
  }

  predicate SingleLine(ms: seq<Message>) {
    forall i :: 0 <= i < |ms| ==> '\n' !in ms[i].content
  }

  /**
   * The rendering loses nothing: when no message contains a line feed, the block reads back as
   * exactly the messages, in order and with their roles.
   */
  lemma {:induction false} HistoryTextRoundTrip(ms: seq<Message>)
    requires SingleLine(ms)
    ensures ParseHistory(HistoryText(ms)) == Some(ms)
    decreases |ms|
  {
    if ms != [] {
      var m, rest := ms[0], ms[1..];
      assert ms == [m] + rest;
      HistoryTextCons(m, rest);
      assert SingleLine(rest) by {
        forall i | 0 <= i < |rest| ensures '\n' !in rest[i].content {
          assert rest[i] == ms[i + 1];
        }
      }
      HistoryTextRoundTrip(rest);
      ParseHistoryOfLine(m, HistoryText(rest));
    }
  }

  /** Reading a rendered line followed by more text reads the line's message, then the rest. */
  lemma ParseHistoryOfLine(m: Message, rest: string)
    requires '\n' !in m.content
    ensures ParseHistory(Line(m) + rest) ==
              match ParseHistory(rest)
              case None => None
              case Some(ms) => Some([m] + ms)
  {
    var text := Line(m) + rest;
    var k := |Line(m)| - 1;
    FirstNewlineOfLine(m, rest);
    assert text[..k] == Label(m) + m.content;
    assert text[k + 1..] == rest;
    ParseLineOfLabel(m);
  }

  /** A rendered line, without its line feed, reads back as its message. */
  lemma ParseLineOfLabel(m: Message)
    ensures ParseLine(Label(m) + m.content) == Some(m)
  {
    var body := Label(m) + m.content;
    assert body[..|Label(m)|] == Label(m);
    assert body[|Label(m)|..] == m.content;
    if m.AI? {
      assert body[0] == 'A' != HumanLabel[0];
    }
  }

  /** In a rendered line followed by anything, the first line feed is the one ending the line. */
  lemma FirstNewlineOfLine(m: Message, rest: string)
    requires '\n' !in m.content
    ensures FirstNewline(Line(m) + rest) == |Line(m)| - 1
  {
    var tag := Label(m);
    var text := Line(m) + rest;
    var k := |tag| + |m.content|;
    assert '\n' !in tag;
    forall j | 0 <= j < k ensures text[j] != '\n' {
      if j < |tag| {
        assert text[j] == tag[j];
      } else {
        assert text[j] == m.content[j - |tag|];
      }
    }
    assert text[k] == '\n';
  }

  /**
   * The prompt sent to the model: the fixed instructions, then the context, then the chat
   * history block, and the current question last, followed by the assistant cue.
   */
  function Prompt(context: string, historyText: string, question: string): string {
    PromptHeader + context + HistoryHeader + historyText + QuestionHeader + question + AnswerCue
  }

  /** Where each part sits in the prompt: context, then history, and the question last. */
  lemma PromptLayout(context: string, historyText: string, question: string)
    ensures var p := Prompt(context, historyText, question);
            var c := |PromptHeader|;
            var h := c + |context| + |HistoryHeader|;
            && |p| == h + |historyText| + |QuestionHeader| + |question| + |AnswerCue|
            && p[..c] == PromptHeader
            && p[c..c + |context|] == context
            && p[c + |context|..h] == HistoryHeader
            && p[h..h + |historyText|] == historyText
            && EndsWith(p, QuestionHeader + question + AnswerCue)
  {
    var p := Prompt(context, historyText, question);
    var tail := QuestionHeader + question + AnswerCue;
    assert p == PromptHeader + context + HistoryHeader + historyText + tail;
    assert p[|p| - |tail|..] == tail;
  }

  // ---------------------------------------------------------------------------------------------
  // Query

  /** What `query` answers and the chat history it leaves. */
  datatype QueryStep = QueryStep(answer: string, history: seq<Message>)

  /**
   * `query(question)` on the session state `(db, history)`: the two sentinels and a retrieval
   * failure leave the history alone; once the model is called (even when the call fails and
   * the answer is an error string) the question and the answer are appended.
   */
  function QueryResult(db: Index, history: seq<Message>, modelName: string, question: string,
                       retrieve: Retriever, generate: Generator): (r: QueryStep)
    ensures db.None? ==> r == QueryStep(NoDocumentsReply, history)
    ensures r.history == history || r.history == history + [Human(question), AI(r.answer)]
  {
    if db.None? then QueryStep(NoDocumentsReply, history)
    else
      match retrieve(db.value, question, RetrievalK)
      case Err(e) => QueryStep(QueryErrorPrefix + e, history)
      case Ok(docs) =>
        if docs == [] then QueryStep(NoRelevantReply, history)
        else
          var prompt := Prompt(Context(docs), HistoryText(LastN(history, HistoryWindow)), question);
          var answer := CallLlm(generate(modelName, prompt));
          QueryStep(answer, history + [Human(question), AI(answer)])
  }

  /** True when `query` gets as far as calling the model: an index exists and retrieval found chunks. */
  predicate ReachesModel(db: Index, question: string, retrieve: Retriever) {
    db.Some? && retrieve(db.value, question, RetrievalK).Ok? && retrieve(db.value, question, RetrievalK).value != []
  }

  /** The history grows, by exactly one Human and one AI message, if and only if the model is called. */
  lemma QueryRecordsIffModelReached(db: Index, history: seq<Message>, modelName: string, question: string,
                                    retrieve: Retriever, generate: Generator)
    ensures var r := QueryResult(db, history, modelName, question, retrieve, generate);
            && (ReachesModel(db, question, retrieve) <==> r.history == history + [Human(question), AI(r.answer)])
            && (!ReachesModel(db, question, retrieve) <==> r.history == history)
  {
    var r := QueryResult(db, history, modelName, question, retrieve, generate);
    if r.history == history + [Human(question), AI(r.answer)] {
      assert |r.history| == |history| + 2;
    }
  }

  /** An empty retrieval answers with the "no relevant information" sentinel and records nothing. */
  lemma QueryEmptyRetrieval(db: Index, history: seq<Message>, modelName: string, question: string,
                            retrieve: Retriever, generate: Generator)
    requires db.Some? && retrieve(db.value, question, RetrievalK) == Ok([])
    ensures QueryResult(db, history, modelName, question, retrieve, generate) == QueryStep(NoRelevantReply, history)
  {
  }

  /** A retrieval that raises is reported as " Error processing query: " and records nothing. */
  lemma QueryRetrievalFailure(db: Index, history: seq<Message>, modelName: string, question: string,
                              retrieve: Retriever, generate: Generator, e: string)
    requires db.Some? && retrieve(db.value, question, RetrievalK) == Err(e)
    ensures QueryResult(db, history, modelName, question, retrieve, generate)
            == QueryStep(QueryErrorPrefix + e, history)
  {
  }

  /**
   * Once retrieval finds chunks, the model is asked with the prompt built from their context,
   * the rendered last six messages and the question; its text, stripped, is the answer, and the
   * question and that answer are recorded.
   */
  lemma QueryAnswersModelText(db: Index, history: seq<Message>, modelName: string, question: string,
                              retrieve: Retriever, generate: Generator, t: string)
    requires ReachesModel(db, question, retrieve)
    requires var docs := retrieve(db.value, question, RetrievalK).value;
             generate(modelName, Prompt(Context(docs), HistoryText(LastN(history, HistoryWindow)), question)) == Ok(t)
    ensures QueryResult(db, history, modelName, question, retrieve, generate)
            == QueryStep(Strip(t), history + [Human(question), AI(Strip(t))])
  {
  }

  /**
   * A Gemini failure does not abort the turn: the answer is the error string, and it is recorded
   * in the history after the question like any other answer.
   */
  lemma QueryRecordsModelFailure(db: Index, history: seq<Message>, modelName: string, question: string,
                                 retrieve: Retriever, generate: Generator, e: string)
    requires ReachesModel(db, question, retrieve)
    requires var docs := retrieve(db.value, question, RetrievalK).value;
             generate(modelName, Prompt(Context(docs), HistoryText(LastN(history, HistoryWindow)), question)) == Err(e)
    ensures var answer := GeminiErrorPrefix + e;
            QueryResult(db, history, modelName, question, retrieve, generate) == QueryStep(answer, history + [Human(question), AI(answer)])
  {
  }

  /** A chat history made of whole turns: Human, AI, Human, AI, ... */
  predicate Alternating(h: seq<Message>) {
    |h| % 2 == 0 && forall i :: 0 <= i < |h| ==> (h[i].Human? <==> i % 2 == 0)
  }

  /** `query` keeps the history a sequence of whole turns. */
  lemma QueryKeepsTurns(db: Index, history: seq<Message>, modelName: string, question: string,
                        retrieve: Retriever, generate: Generator)
    requires Alternating(history)
    ensures Alternating(QueryResult(db, history, modelName, question, retrieve, generate).history)
  {
    var r := QueryResult(db, history, modelName, question, retrieve, generate);
    if r.history != history {
      AppendTurnKeepsTurns(history, question, r.answer);
    }
  }

  /** Appending a question and its answer to whole turns gives whole turns. */
  lemma AppendTurnKeepsTurns(history: seq<Message>, question: string, answer: string)
    requires Alternating(history)
    ensures Alternating(history + [Human(question), AI(answer)])
  {
    var h := history + [Human(question), AI(answer)];
    forall i | 0 <= i < |h| ensures (h[i].Human? <==> i % 2 == 0) {
      if i < |history| { assert h[i] == history[i]; }
    }
  }

  /**
   * The `[-6:]` window of a history of whole turns is itself whole turns: the last three
   * question/answer pairs, or all of them when there are fewer.
   */
  lemma WindowIsLastTurns(h: seq<Message>)
    requires Alternating(h)
    ensures var w := LastN(h, HistoryWindow);
            && Alternating(w)
            && |w| == 2 * (if |h| / 2 < 3 then |h| / 2 else 3)
  {
    var w := LastN(h, HistoryWindow);
    var off := |h| - |w|;
    assert off % 2 == 0;
    forall i | 0 <= i < |w| ensures (w[i].Human? <==> i % 2 == 0) {
      assert w[i] == h[off + i];
      assert (off + i) % 2 == i % 2;
    }
  }

  /**
   * A second question in a fresh session sees exactly one prior turn: the first question and its
   * answer, rendered as one Human line and one Assistant line.
   */
  lemma SecondQuestionSeesFirstTurn(db: Index, modelName: string, q1: string,
                                    retrieve: Retriever, generate: Generator)
    requires ReachesModel(db, q1, retrieve)
    ensures var first := QueryResult(db, [], modelName, q1, retrieve, generate);
            var w := LastN(first.history, HistoryWindow);
            && w == [Human(q1), AI(first.answer)]
            && HistoryText(w) == HumanLabel + q1 + "\n" + AssistantLabel + first.answer + "\n"
  {
    var first := QueryResult(db, [], modelName, q1, retrieve, generate);
    QueryRecordsIffModelReached(db, [], modelName, q1, retrieve, generate);
    assert first.history == [Human(q1), AI(first.answer)];
    OneTurnWindow(q1, first.answer);
  }

  /** A history of one turn fits in the window and renders as its two lines. */
  lemma OneTurnWindow(q: string, a: string)
    ensures var w := LastN([Human(q), AI(a)], HistoryWindow);
            && w == [Human(q), AI(a)]
            && HistoryText(w) == HumanLabel + q + "\n" + AssistantLabel + a + "\n"
  {
    var w := [Human(q), AI(a)];
    assert w[..1] == [Human(q)];
    assert [Human(q)][..0] == [];
    assert HistoryText([Human(q)]) == HumanLabel + q + "\n";
    assert HistoryText(w) == HistoryText([Human(q)]) + (AssistantLabel + a + "\n");
  }

  // ---------------------------------------------------------------------------------------------
  // The session object

  class RAGManager {
    const apiKey: string
    const modelName: string
    var vectorDb: Index
    var chatHistory: seq<Message>

    /** The session invariant: a key is configured, an existing index is non-empty, and the history is whole turns. */
    ghost predicate Valid()
      reads this
    {
      apiKey != "" && (vectorDb.Some? ==> vectorDb.value != []) && Alternating(chatHistory)
    }

    constructor (apiKey: string, modelName: string)
      ensures this.apiKey == apiKey && this.modelName == modelName
      ensures vectorDb.None? && chatHistory == []
    {
      this.apiKey := apiKey;
      this.modelName := modelName;
      vectorDb := None;
      chatHistory := [];
    }

    /**
     * `RAGManager()`: fails when the API key is missing or empty. Otherwise `setup` is what
     * configuring Gemini, loading the embedding model and creating the store directory did;
     * when one of them raised, construction fails with its message. Otherwise the result is a
     * session with no index and an empty history.
     */
    static method Create(apiKey: Option<string>, modelName: string, setup: Outcome) returns (r: Result<RAGManager>)
      ensures r.Err? <==> apiKey.None? || apiKey.value == "" || setup.Fail?
      ensures r.Err? && (apiKey.None? || apiKey.value == "") ==> r.msg == MissingKeyError
      ensures r.Err? && apiKey.Some? && apiKey.value != "" ==> r.msg == setup.msg
      ensures r.Ok? ==> fresh(r.value) && r.value.Valid()
      ensures r.Ok? ==> r.value.vectorDb.None? && r.value.chatHistory == []
      ensures r.Ok? ==> r.value.apiKey == apiKey.value && r.value.modelName == modelName
    {
      if apiKey.None? || apiKey.value == "" {
        return Err(MissingKeyError);
      }
      if setup.Fail? {
        return Err(setup.msg);
      }
      var m := new RAGManager(apiKey.value, modelName);
      return Ok(m);
    }

    /**
     * `add_document(path)`: on success the index is the one `Ingest` describes; on failure the
     * exception propagates (as `Fail`) and the index is unchanged. The history is never touched.
     */
    method AddDocument(path: string, extract: Extractor) returns (outcome: Outcome)
      requires Valid()
      modifies this
      ensures Valid()
      ensures chatHistory == old(chatHistory)
      ensures match Ingest(old(vectorDb), path, extract)
              case Ok(db) => outcome == Pass && vectorDb == db
              case Err(e) => outcome == Fail(e) && vectorDb == old(vectorDb)
    {
      var loader := ChooseLoader(path);
      var split := extract(loader, path);
      if split.Err? {
        return Fail(split.msg);
      }
      var chunks := split.value;
      if chunks == [] {
        return Fail(NoChunksError);
      }
      if vectorDb.None? {
        vectorDb := Some(chunks);
      } else {
        vectorDb := Some(vectorDb.value + chunks);
      }
      return Pass;
    }

    /**
     * `query(question)`: answers and updates the history exactly as `QueryResult` says, and
     * never changes the index.
     */
    method Query(question: string, retrieve: Retriever, generate: Generator) returns (answer: string)
      requires Valid()
      modifies this
      ensures Valid()
      ensures vectorDb == old(vectorDb)
      ensures QueryStep(answer, chatHistory)
              == QueryResult(old(vectorDb), old(chatHistory), modelName, question, retrieve, generate)
    {
      if vectorDb.None? {
        return NoDocumentsReply;
      }
      var retrieved := retrieve(vectorDb.value, question, RetrievalK);
      if retrieved.Err? {
        return QueryErrorPrefix + retrieved.msg;
      }
      var docs := retrieved.value;
      if docs == [] {
        return NoRelevantReply;
      }
      var context := Context(docs);
      var historyText := RenderHistory(LastN(chatHistory, HistoryWindow));
      var prompt := Prompt(context, historyText, question);
      answer := CallLlm(generate(modelName, prompt));
      AppendTurnKeepsTurns(chatHistory, question, answer);
      ghost var before := chatHistory;
      chatHistory := chatHistory + [Human(question)];
      chatHistory := chatHistory + [AI(answer)];
      assert chatHistory == before + [Human(question), AI(answer)];
    }
  }
}
