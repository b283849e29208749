/**
 * The two handlers of app.py that drive the session: `process_uploads` indexes a batch of
 * files and reports a status line, and `chat_interface` answers one chat message by appending
 * role-tagged entries to the chat widget's message list. The module-level `rag_system`, which
 * is `None` when construction failed, is passed in as a possibly-null `RAGManager`.
 */
module App {
  import opened Wrappers
  import opened Text
  import opened RagEngine

  const NoFilesStatus := " No files uploaded."
  const NotInitializedStatus := " RAG system not initialized."
  const SuccessPrefix := " Successfully processed "
  const SuccessSuffix := " document(s)."
  const ErrorPrefix := " Error: "
  const UploadFirstNotice := " Please upload documents first."

  /** The status line after every file of a batch was indexed. */
  function SuccessStatus(count: nat): string {
    SuccessPrefix + NatToString(count) + SuccessSuffix
  }

  /** The status line (and chat entry) for an exception `e`. */
  function ErrorStatus(e: string): string {
    ErrorPrefix + e
  }

  /** The success line reports the count unambiguously: different counts give different lines. */
  lemma SuccessStatusReportsCount(a: nat, b: nat)
    requires SuccessStatus(a) == SuccessStatus(b)
    ensures a == b
  {
    var s := SuccessStatus(a);
    assert s[|SuccessPrefix|..|s| - |SuccessSuffix|] == NatToString(a);
    assert SuccessStatus(b)[|SuccessPrefix|..|s| - |SuccessSuffix|] == NatToString(b);
    NatToStringInjective(a, b);
  }

  // ---------------------------------------------------------------------------------------------
  // Batch upload

  /** Where a batch upload ends: the index, how many files were indexed, and the first error. */
  datatype UploadRun = UploadRun(db: Index, count: nat, failure: Option<string>)

  /**
   * The loop of `process_uploads` on the index: files are indexed one at a time in order, and the
   * first failure ends the batch, keeping what the earlier files added.
   */
  function RunUploads(db: Index, paths: seq<string>, extract: Extractor): (r: UploadRun)
    ensures r.count <= |paths|
    ensures r.failure.None? <==> r.count == |paths|
    ensures r.count == 0 ==> r.db == db
    ensures r.count > 0 ==> r.db.Some?
    decreases |paths|
  {
    if paths == [] then UploadRun(db, 0, None)
    else
      match Ingest(db, paths[0], extract)
      case Err(e) => UploadRun(db, 0, Some(e))
      case Ok(next) =>
        var rest := RunUploads(next, paths[1..], extract);
        UploadRun(rest.db, rest.count + 1, rest.failure)
  }

  /** The chunks the loader and splitter produce for one file (none when they raise). */
  function DocumentChunks(path: string, extract: Extractor): seq<Chunk> {
    match extract(ChooseLoader(path), path)
    case Ok(chunks) => chunks
    case Err(_) => []
  }

  /** The chunks `paths` produce, file after file. */
  function ChunksOf(paths: seq<string>, extract: Extractor): seq<Chunk>
    decreases |paths|
  {
    if paths == [] then [] else DocumentChunks(paths[0], extract) + ChunksOf(paths[1..], extract)
  }

  /**
   * The indexed files' chunks are appended to the index in file order; on full success that is
   * every file's chunks.
   */
  lemma {:induction false} UploadsAppendInOrder(db: Index, paths: seq<string>, extract: Extractor)
    ensures var r := RunUploads(db, paths, extract);
            Chunks(r.db) == Chunks(db) + ChunksOf(paths[..r.count], extract)
    decreases |paths|
  {
    var r := RunUploads(db, paths, extract);
    if paths != [] && Ingest(db, paths[0], extract).Ok? {
      var next := Ingest(db, paths[0], extract).value;
      var chunks := DocumentChunks(paths[0], extract);
      UploadsAppendInOrder(next, paths[1..], extract);
      assert paths[1..][..r.count - 1] == paths[..r.count][1..];
      assert Chunks(next) == Chunks(db) + chunks;
    } else {
      assert paths[..r.count] == [];
    }
  }

  /**
   * The batch stops at the first failing file: every file before it was indexed, leaving the
   * index the batch reports, and the failing file raised the reported error on that index.
   */
  lemma {:induction false} UploadsStopAtFirstFailure(db: Index, paths: seq<string>, extract: Extractor)
    requires RunUploads(db, paths, extract).failure.Some?
    ensures var r := RunUploads(db, paths, extract);
            && RunUploads(db, paths[..r.count], extract) == UploadRun(r.db, r.count, None)
            && Ingest(r.db, paths[r.count], extract) == Err(r.failure.value)
    decreases |paths|
  {
    var r := RunUploads(db, paths, extract);
    if r.count > 0 {
      var next := Ingest(db, paths[0], extract).value;
      UploadsStopAtFirstFailure(next, paths[1..], extract);
      assert paths[..r.count][1..] == paths[1..][..r.count - 1];
    } else {
      assert paths[..0] == [];
    }
  }

  /**
   * No file after the first failing one is attempted: replacing everything after it by any
   * other files gives the same outcome.
   */
  lemma {:induction false} UploadsIgnoreLaterFiles(db: Index, paths: seq<string>, extract: Extractor,
                                                    later: seq<string>)
    requires RunUploads(db, paths, extract).failure.Some?
    ensures var r := RunUploads(db, paths, extract);
            RunUploads(db, paths[..r.count + 1] + later, extract) == r
    decreases |paths|
  {
    var r := RunUploads(db, paths, extract);
    var input := paths[..r.count + 1] + later;
    assert input[0] == paths[0];
    if r.count > 0 {
      var next := Ingest(db, paths[0], extract).value;
      UploadsIgnoreLaterFiles(next, paths[1..], extract, later);
      assert input[1..] == paths[1..][..r.count] + later;
    }
  }

  /**
   * `process_uploads(files)`. With no files it touches nothing; without a session it indexes
   * nothing; otherwise it runs the batch as `RunUploads` describes and reports either the
   * number of files processed or the first error. The chat history is never touched.
   */
  method ProcessUploads(files: seq<string>, system: RAGManager?, extract: Extractor) returns (status: string)
    requires system != null ==> system.Valid()
    modifies system
    ensures system != null ==> system.Valid() && system.chatHistory == old(system.chatHistory)
    ensures files == [] ==> status == NoFilesStatus && (system != null ==> system.vectorDb == old(system.vectorDb))
    ensures files != [] && system == null ==> status == NotInitializedStatus
    ensures files != [] && system != null ==>
              var run := RunUploads(old(system.vectorDb), files, extract);
              && system.vectorDb == run.db
              && status == if run.failure.None? then SuccessStatus(run.count) else ErrorStatus(run.failure.value)
  {
    if files == [] {
      return NoFilesStatus;
    }
    if system == null {
      return NotInitializedStatus;
    }
    ghost var run := RunUploads(system.vectorDb, files, extract);
    var processedCount := 0;
    for i := 0 to |files|
      invariant system.Valid() && system.chatHistory == old(system.chatHistory)
      invariant processedCount == i
      invariant var rest := RunUploads(system.vectorDb, files[i..], extract);
                run == UploadRun(rest.db, rest.count + processedCount, rest.failure)
    {
      var outcome := system.AddDocument(files[i], extract);
      if outcome.Fail? {
        return ErrorStatus(outcome.msg);
      }
      assert files[i..][1..] == files[i + 1..];
      processedCount := processedCount + 1;
    }
    return SuccessStatus(processedCount);
  }

  // ---------------------------------------------------------------------------------------------
  // Chat handler

  datatype Role = User | Assistant

  /** One message of the chat widget: `{"role": ..., "content": ...}`. */
  datatype ChatEntry = ChatEntry(role: Role, content: string)

  /** The chat widget's message list, which `chat_interface` appends to in place and returns. */
  class ChatLog {
    var entries: seq<ChatEntry>

    constructor (entries: seq<ChatEntry>)
      ensures this.entries == entries
    {
      this.entries := entries;
    }

    /** `history.append(entry)`. */
    method Append(entry: ChatEntry)
      modifies this
      ensures entries == old(entries) + [entry]
    {
      entries := entries + [entry];
    }
  }

  /** `not message or message.strip() == ""`. */
  predicate IsBlank(message: string) {
    message == "" || Strip(message) == ""
  }

  /** A message is ignored exactly when it is empty or made of whitespace only. */
  lemma IsBlankIffAllSpace(message: string)
    ensures IsBlank(message) <==> AllSpace(message)
  {
    StripEmptyIffAllSpace(message);
  }

  /**
   * `chat_interface(message, history)`: a blank message changes nothing; without a session or
   * without an index it appends one assistant notice and does not query; otherwise it queries
   * the session with the message as typed and appends the user's message, then the answer.
   */
  method ChatInterface(message: string, history: ChatLog, system: RAGManager?,
                       retrieve: Retriever, generate: Generator) returns (r: ChatLog)
    requires system != null ==> system.Valid()
    modifies history, system
    ensures r == history
    ensures system != null ==> system.Valid() && system.vectorDb == old(system.vectorDb)
    ensures IsBlank(message) ==>
              history.entries == old(history.entries)
              && (system != null ==> system.chatHistory == old(system.chatHistory))
    ensures !IsBlank(message) && system == null ==>
              history.entries == old(history.entries) + [ChatEntry(Assistant, NotInitializedStatus)]
    ensures !IsBlank(message) && system != null && old(system.vectorDb).None? ==>
              history.entries == old(history.entries) + [ChatEntry(Assistant, UploadFirstNotice)]
              && system.chatHistory == old(system.chatHistory)
    ensures !IsBlank(message) && system != null && old(system.vectorDb).Some? ==>
              var step := QueryResult(old(system.vectorDb), old(system.chatHistory), system.modelName,
                                      message, retrieve, generate);
              && history.entries == old(history.entries) + [ChatEntry(User, message), ChatEntry(Assistant, step.answer)]
              && system.chatHistory == step.history
  {
    if message == "" || Strip(message) == "" {
      return history;
    }
    if system == null {
      history.Append(ChatEntry(Assistant, NotInitializedStatus));
      return history;
    }
    if system.vectorDb.None? {
      history.Append(ChatEntry(Assistant, UploadFirstNotice));
      return history;
    }
    var answer := system.Query(message, retrieve, generate);
    history.Append(ChatEntry(User, message));
    history.Append(ChatEntry(Assistant, answer));
    return history;
  }
}
