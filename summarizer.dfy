/** The map-reduce summarizer: chunk the result set, build one prompt record
    per chunk, send each record to a chunk assistant, then send the list of
    partial summaries to a final assistant. The generation service is the
    parameter `respond`; every call it receives is recorded, in order, in the
    returned trace. */
module Summarizer {
  import opened Values
  import opened TokenOperator
  import TokenOperatorProperties

  /** `json.dumps(['chunk_id'])`: the value every prompt record carries as `chunk_id`. */
  const CHUNK_ID_TEXT: string := "[\"chunk_id\"]"

  /** The four assistants a `Summarizer` holds. */
  datatype Assistant = ChunkSummary | FinalSummary | ChunkJsonResponse | FinalJsonResponse

  /** One `send_prompt` call: the assistant and the data it was given. */
  datatype Call = Call(assistant: Assistant, data: Json)

  /** The record `_prepare_data` appends for one chunk. */
  function ChunkPrompt(userQuestion: string, chunk: Chunk): Fields
  {
    [ ("user_question", Str(userQuestion)),
      ("chunk", Array(chunk.data)),
      ("chunk_id", Str(CHUNK_ID_TEXT)),
      ("total_chunks", Num(chunk.totalChunks as real)) ]
  }

  /** The data the final assistant is given. */
  function FinalPrompt(userQuestion: string, summaries: seq<Json>): Json
  {
    Object([("user_question", Str(userQuestion)), ("summaries", Array(summaries))])
  }

  /** A prompt record has four keys; it carries the question, the chunk's data
      and total, and the constant `chunk_id` text in place of the chunk's id. */
  lemma ChunkPromptFields(userQuestion: string, chunk: Chunk)
    ensures var p := ChunkPrompt(userQuestion, chunk);
      && Keys(p) == ["user_question", "chunk", "chunk_id", "total_chunks"]
      && Lookup(p, "user_question") == Some(Str(userQuestion))
      && Lookup(p, "chunk") == Some(Array(chunk.data))
      && Lookup(p, "chunk_id") == Some(Str(CHUNK_ID_TEXT))
      && Lookup(p, "total_chunks") == Some(Num(chunk.totalChunks as real))
  {
    var p := ChunkPrompt(userQuestion, chunk);
    FourFields(p);
  }

  /** Lookup and Keys on a four-field record with the prompt's keys. */
  lemma FourFields(p: Fields)
    requires |p| == 4
    requires p[0].0 == "user_question" && p[1].0 == "chunk" && p[2].0 == "chunk_id" && p[3].0 == "total_chunks"
    ensures Keys(p) == ["user_question", "chunk", "chunk_id", "total_chunks"]
    ensures Lookup(p, "user_question") == Some(p[0].1)
    ensures Lookup(p, "chunk") == Some(p[1].1)
    ensures Lookup(p, "chunk_id") == Some(p[2].1)
    ensures Lookup(p, "total_chunks") == Some(p[3].1)
  {
    var t1, t2, t3 := p[1..], p[2..], p[3..];
    assert t1[1..] == t2 && t2[1..] == t3 && t3[1..] == [];
    assert Keys(t3) == ["total_chunks"];
    assert Keys(t2) == ["chunk_id", "total_chunks"];
    assert Keys(t1) == ["chunk", "chunk_id", "total_chunks"];
    assert "chunk" != "user_question" && "chunk_id" != "user_question" && "chunk_id" != "chunk";
    assert "total_chunks" != "user_question" && "total_chunks" != "chunk" && "total_chunks" != "chunk_id";
    assert Lookup(t3, "total_chunks") == Some(p[3].1);
    assert Lookup(t2, "chunk_id") == Some(p[2].1);
    assert Lookup(t2, "total_chunks") == Some(p[3].1);
    assert Lookup(t1, "chunk_id") == Some(p[2].1);
    assert Lookup(t1, "total_chunks") == Some(p[3].1);
  }

  /** `_prepare_data`. */
  method PrepareData(chunks: seq<Chunk>, userQuestion: string) returns (dataList: seq<Fields>)
    ensures |dataList| == |chunks|
    ensures forall i :: 0 <= i < |chunks| ==> dataList[i] == ChunkPrompt(userQuestion, chunks[i])
    ensures forall i :: 0 <= i < |chunks| ==> |dataList[i]| == 4
    ensures forall i :: 0 <= i < |chunks| ==> Lookup(dataList[i], "chunk_id") == Some(Str(CHUNK_ID_TEXT))
  {
    dataList := [];
    for i := 0 to |chunks|
      invariant |dataList| == i
      invariant forall j :: 0 <= j < i ==> dataList[j] == ChunkPrompt(userQuestion, chunks[j])
    {
      dataList := dataList + [ChunkPrompt(userQuestion, chunks[i])];
    }
    forall i | 0 <= i < |chunks|
      ensures Lookup(dataList[i], "chunk_id") == Some(Str(CHUNK_ID_TEXT))
    {
      ChunkPromptFields(userQuestion, chunks[i]);
    }
  }

  /** The position of the first record that `for data_id, data in data_list`
      cannot unpack: iterating a dict yields its keys, so only a dict with
      exactly two keys unpacks into two names. */
  function FirstUnpackFailure(dataList: seq<Fields>): (k: nat)
    ensures k <= |dataList|
    ensures forall i :: 0 <= i < k ==> |dataList[i]| == 2
    ensures k < |dataList| ==> |dataList[k]| != 2
  {
    if dataList == [] || |dataList[0]| != 2 then 0 else 1 + FirstUnpackFailure(dataList[1..])
  }

  /** `_send_chunks_summary` (assistant `ChunkSummary`) and
      `_send_chunks_json_response` (assistant `ChunkJsonResponse`), as written:
      each record is unpacked into `data_id, data`, so `data` is the record's
      second key, and the first record without exactly two keys raises. */
  method SendChunks(respond: Call -> Json, assistant: Assistant, dataList: seq<Fields>)
    returns (r: Result<seq<Json>, PyError>, calls: seq<Call>)
    ensures var k := FirstUnpackFailure(dataList);
      && |calls| == k
      && (forall i :: 0 <= i < k ==> calls[i] == Call(assistant, Str(dataList[i][1].0)))
      && (k < |dataList| ==> r == Failure(UnpackMismatch(2, |dataList[k]|)))
      && (k == |dataList| ==> r.Success? && |r.value| == k && forall i :: 0 <= i < k ==> r.value[i] == respond(calls[i]))
  {
    var summaries := [];
    calls := [];
    var i := 0;
    while i < |dataList|
      invariant 0 <= i <= |dataList|
      invariant forall j :: 0 <= j < i ==> |dataList[j]| == 2
      invariant |calls| == i && |summaries| == i
      invariant forall j :: 0 <= j < i ==> calls[j] == Call(assistant, Str(dataList[j][1].0))
      invariant forall j :: 0 <= j < i ==> summaries[j] == respond(calls[j])
    {
      var keys := Keys(dataList[i]);
      KeysLength(dataList[i]);
      if |keys| != 2 {
        assert FirstUnpackFailure(dataList) == i;
        return Failure(UnpackMismatch(2, |keys|)), calls;
      }
      KeysAt(dataList[i], 1);
      var dataId, data := keys[0], keys[1];
      var call := Call(assistant, Str(data));
      var summary := respond(call);
      summaries := summaries + [summary];
      calls := calls + [call];
      i := i + 1;
    }
    assert FirstUnpackFailure(dataList) == i;
    r := Success(summaries);
  }

  lemma {:induction false} KeysLength(fields: Fields)
    ensures |Keys(fields)| == |fields|
  {
    if fields != [] {
      KeysLength(fields[1..]);
    }
  }

  lemma {:induction false} KeysAt(fields: Fields, i: nat)
    requires i < |fields|
    ensures |Keys(fields)| == |fields| && Keys(fields)[i] == fields[i].0
  {
    KeysLength(fields);
    if i > 0 {
      KeysAt(fields[1..], i - 1);
    }
  }

  /** `summarize`, as written: chunk, prepare, map, then one final call. */
  method Summarize(tokens: Json -> nat, respond: Call -> Json, userQuestion: string, metadataResponse: Fields)
    returns (r: Result<Json, PyError>, calls: seq<Call>)
    ensures Chunked(tokens, TOKEN_LIMIT, metadataResponse).Failure? ==>
      r == Failure(Chunked(tokens, TOKEN_LIMIT, metadataResponse).error) && calls == []
    ensures Chunked(tokens, TOKEN_LIMIT, metadataResponse) == Success([]) ==>
      calls == [Call(FinalSummary, FinalPrompt(userQuestion, []))] && r == Success(respond(calls[0]))
    ensures Chunked(tokens, TOKEN_LIMIT, metadataResponse).Success? && Chunked(tokens, TOKEN_LIMIT, metadataResponse).value != [] ==>
      r == Failure(UnpackMismatch(2, 4)) && calls == []
    ensures forall c :: c in calls ==> c.assistant == FinalSummary
  {
    var chunked := ChunkData(tokens, metadataResponse);
    if chunked.Failure? {
      return Failure(chunked.error), [];
    }
    var preparedDataList := PrepareData(chunked.value, userQuestion);
    var summaries;
    summaries, calls := SendChunks(respond, ChunkSummary, preparedDataList);
    if summaries.Failure? {
      return Failure(summaries.error), calls;
    }
    var finalCall := Call(FinalSummary, FinalPrompt(userQuestion, summaries.value));
    r := Success(respond(finalCall));
    calls := calls + [finalCall];
  }

  /** The records `_prepare_data` builds: never destructurable into two names,
      so the map step fails on the first one whenever there is a chunk. */
  lemma {:induction false} PreparedRecordsNeverUnpack(userQuestion: string, chunks: seq<Chunk>)
    requires chunks != []
    ensures var dataList := seq(|chunks|, i requires 0 <= i < |chunks| => ChunkPrompt(userQuestion, chunks[i]));
      FirstUnpackFailure(dataList) == 0 && |dataList[0]| == 4
  {
  }

  /** A concrete input on which the as-written `summarize` reaches the map
      step with a chunk: a single result entry. */
  lemma OneResultReachesTheMapStep(tokens: Json -> nat)
    ensures var metadataResponse := [("results", Array([Str("x")]))];
      Chunked(tokens, TOKEN_LIMIT, metadataResponse).Success? &&
      Chunked(tokens, TOKEN_LIMIT, metadataResponse).value != []
  {
    var metadataResponse := [("results", Array([Str("x")]))];
    assert ResultsValue(metadataResponse) == Array([Str("x")]);
    TokenOperatorProperties.TraversalSingle(Str("x"));
    TokenOperatorProperties.EmptyChunksIffNoResults(tokens, TOKEN_LIMIT, metadataResponse);
  }

  /** Two different chunks get the same `chunk_id` in their prompt records. */
  lemma ChunkIdDoesNotIdentifyTheChunk(userQuestion: string, c1: Chunk, c2: Chunk)
    ensures Lookup(ChunkPrompt(userQuestion, c1), "chunk_id") == Lookup(ChunkPrompt(userQuestion, c2), "chunk_id")
  {
    ChunkPromptFields(userQuestion, c1);
    ChunkPromptFields(userQuestion, c2);
  }

  // ---------------------------------------------------------------------
  // The evidently intended summarizer
  // ---------------------------------------------------------------------

  /** The record `_prepare_data` evidently meant to build: the chunk's own id. */
  function IntendedChunkPrompt(userQuestion: string, chunk: Chunk): Fields
  {
    [ ("user_question", Str(userQuestion)),
      ("chunk", Array(chunk.data)),
      ("chunk_id", Num(chunk.chunkId as real)),
      ("total_chunks", Num(chunk.totalChunks as real)) ]
  }

  /** `_prepare_data` with each chunk's own `chunk_id`. */
  method PrepareDataIntended(chunks: seq<Chunk>, userQuestion: string) returns (dataList: seq<Fields>)
    ensures |dataList| == |chunks|
    ensures forall i :: 0 <= i < |chunks| ==> dataList[i] == IntendedChunkPrompt(userQuestion, chunks[i])
    ensures forall i :: 0 <= i < |chunks| ==> Lookup(dataList[i], "chunk_id") == Some(Num(chunks[i].chunkId as real))
  {
    dataList := [];
    for i := 0 to |chunks|
      invariant |dataList| == i
      invariant forall j :: 0 <= j < i ==> dataList[j] == IntendedChunkPrompt(userQuestion, chunks[j])
    {
      dataList := dataList + [IntendedChunkPrompt(userQuestion, chunks[i])];
    }
    forall i | 0 <= i < |chunks|
      ensures Lookup(dataList[i], "chunk_id") == Some(Num(chunks[i].chunkId as real))
    {
      FourFields(IntendedChunkPrompt(userQuestion, chunks[i]));
    }
  }

  /** The map loop as evidently intended (`for data_id, data in
      enumerate(data_list)`): one call per record, in order. */
  method SendChunksIntended(respond: Call -> Json, assistant: Assistant, dataList: seq<Fields>)
    returns (summaries: seq<Json>, calls: seq<Call>)
    ensures |calls| == |dataList| && |summaries| == |dataList|
    ensures forall i :: 0 <= i < |dataList| ==> calls[i] == Call(assistant, Object(dataList[i]))
    ensures forall i :: 0 <= i < |dataList| ==> summaries[i] == respond(calls[i])
  {
    summaries, calls := [], [];
    for i := 0 to |dataList|
      invariant |calls| == i && |summaries| == i
      invariant forall j :: 0 <= j < i ==> calls[j] == Call(assistant, Object(dataList[j]))
      invariant forall j :: 0 <= j < i ==> summaries[j] == respond(calls[j])
    {
      var call := Call(assistant, Object(dataList[i]));
      summaries := summaries + [respond(call)];
      calls := calls + [call];
    }
  }

  /** `summarize` with both defects corrected: one chunk call per chunk, in
      chunk order, each with its chunk's own id, then exactly one final call
      over the partial summaries in that order. */
  method SummarizeIntended(tokens: Json -> nat, respond: Call -> Json, userQuestion: string, metadataResponse: Fields)
    returns (r: Result<Json, PyError>, calls: seq<Call>)
    ensures Chunked(tokens, TOKEN_LIMIT, metadataResponse).Failure? ==>
      r == Failure(Chunked(tokens, TOKEN_LIMIT, metadataResponse).error) && calls == []
    ensures Chunked(tokens, TOKEN_LIMIT, metadataResponse).Success? ==>
      var cs := Chunked(tokens, TOKEN_LIMIT, metadataResponse).value;
      && |calls| == |cs| + 1
      && (forall i :: 0 <= i < |cs| ==> calls[i] == Call(ChunkSummary, Object(IntendedChunkPrompt(userQuestion, cs[i]))))
      && (forall i :: 0 <= i < |cs| ==> cs[i].chunkId == i)
      && calls[|cs|] == Call(FinalSummary, FinalPrompt(userQuestion, seq(|cs|, i requires 0 <= i < |cs| => respond(calls[i]))))
      && r == Success(respond(calls[|cs|]))
  {
    var chunked := ChunkData(tokens, metadataResponse);
    if chunked.Failure? {
      return Failure(chunked.error), [];
    }
    var chunks := chunked.value;
    TokenOperatorProperties.ChunkIdsAndTotals(tokens, TOKEN_LIMIT, metadataResponse);
    var preparedDataList := PrepareDataIntended(chunks, userQuestion);
    var summaries;
    summaries, calls := SendChunksIntended(respond, ChunkSummary, preparedDataList);
    assert summaries == seq(|chunks|, i requires 0 <= i < |chunks| => respond(calls[i]));
    var finalCall := Call(FinalSummary, FinalPrompt(userQuestion, summaries));
    r := Success(respond(finalCall));
    var mapCalls := calls;
    calls := calls + [finalCall];
    assert calls[..|chunks|] == mapCalls;
    assert summaries == seq(|chunks|, i requires 0 <= i < |chunks| => respond(calls[i]));
  }
}
