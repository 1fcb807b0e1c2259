/** The token-bounded chunker: one greedy pass over the records of a result
    set that packs their metadata and attribute items into chunks under a
    token limit, re-seeding a chunk with the latest metadata when it is cut in
    the middle of an attribute list. */
module TokenOperator {
  import opened Values

  /** The budget every chunk is packed against (`self.token_limit`). */
  const TOKEN_LIMIT: nat := 120000

  /** The `type` argument of `add_to_chunk`. */
  datatype Kind = Metadata | Attribute

  /** One item of the traversal, with the type it is added under. */
  datatype SubItem = SubItem(item: Json, kind: Kind)

  /** An element of a chunk as the specification sees it: an item the traversal
      added, or a copy of the latest metadata seeded at the head of a chunk,
      together with the size the chunker charged for it. The output carries
      only the JSON values; the tag exists for the proofs. */
  datatype Entry = Added(sub: SubItem) | Seeded(copy: Json, size: nat)
  {
    function Value(): Json
    {
      match this
      case Added(s) => s.item
      case Seeded(m, _) => m
    }
  }

  /** The four variables `add_to_chunk` updates, plus the chunks closed so far. */
  datatype PackState = PackState(
    closed: seq<seq<Entry>>,
    current: seq<Entry>,
    currentSize: nat,
    metadata: Json,
    metadataSize: nat)

  /** An element of the list `chunk_data` returns. */
  datatype Chunk = Chunk(chunkId: nat, totalChunks: nat, data: seq<Json>)

  /** `{}`, which `metadata` holds before the first record is seen. */
  const EMPTY_DICT: Json := Object([])

  const INITIAL: PackState := PackState([], [], 0, EMPTY_DICT, 0)

  // ---------------------------------------------------------------------
  // The traversal: which items are added, in which order, under which type
  // ---------------------------------------------------------------------

  /** `isinstance(result, dict) and result.items()`: a non-empty dict. */
  predicate IsRecord(v: Json)
  {
    v.Object? && v.fields != []
  }

  function AsAttributes(xs: seq<Json>): seq<SubItem>
  {
    seq(|xs|, i requires 0 <= i < |xs| => SubItem(xs[i], Attribute))
  }

  /** The items one entry of `results` contributes: a record gives its metadata
      (the record without `attributes`) and then one item per attribute; any
      other entry is added unchanged as an attribute-typed item. */
  function RecordItems(result: Json): Result<seq<SubItem>, PyError>
  {
    if IsRecord(result) then
      var attributes := GetOr(result.fields, "attributes", Array([]));
      match Iterate(attributes)
      case None => Failure(NotIterable(attributes))
      case Some(xs) => Success([SubItem(Object(WithoutKey(result.fields, "attributes")), Metadata)] + AsAttributes(xs))
    else
      Success([SubItem(result, Attribute)])
  }

  /** The items of all entries, record after record; the first entry that
      cannot be traversed decides the error. */
  function Traversal(results: seq<Json>): Result<seq<SubItem>, PyError>
  {
    if results == [] then Success([])
    else
      match Traversal(results[..|results| - 1])
      case Failure(e) => Failure(e)
      case Success(prefix) =>
        match RecordItems(results[|results| - 1])
        case Failure(e) => Failure(e)
        case Success(items) => Success(prefix + items)
  }

  // ---------------------------------------------------------------------
  // The packing rule and the whole pass
  // ---------------------------------------------------------------------

  /** One call of `add_to_chunk`. */
  function Add(tokens: Json -> nat, limit: nat, st: PackState, sub: SubItem): PackState
  {
    var size := tokens(sub.item);
    var metadata := if sub.kind == Metadata then sub.item else st.metadata;
    var metadataSize := if sub.kind == Metadata then size else st.metadataSize;
    if st.currentSize + size > limit then
      if sub.kind == Attribute then
        PackState(st.closed + [st.current], [Seeded(metadata, metadataSize), Added(sub)],
                  metadataSize + size, metadata, metadataSize)
      else
        PackState(st.closed + [st.current], [Added(sub)], size, metadata, metadataSize)
    else
      PackState(st.closed, st.current + [Added(sub)], st.currentSize + size, metadata, metadataSize)
  }

  /** The state after adding the items of subs, in order, from the initial one. */
  function Pack(tokens: Json -> nat, limit: nat, subs: seq<SubItem>): PackState
  {
    if subs == [] then INITIAL
    else Add(tokens, limit, Pack(tokens, limit, subs[..|subs| - 1]), subs[|subs| - 1])
  }

  /** The closing `if current_chunk: chunks.append(current_chunk)`. */
  function Chunks(st: PackState): seq<seq<Entry>>
  {
    if st.current != [] then st.closed + [st.current] else st.closed
  }

  function TaggedChunks(tokens: Json -> nat, limit: nat, subs: seq<SubItem>): seq<seq<Entry>>
  {
    Chunks(Pack(tokens, limit, subs))
  }

  function Erase(c: seq<Entry>): seq<Json>
  {
    seq(|c|, i requires 0 <= i < |c| => c[i].Value())
  }

  function EraseAll(cs: seq<seq<Entry>>): seq<seq<Json>>
  {
    seq(|cs|, i requires 0 <= i < |cs| => Erase(cs[i]))
  }

  /** The final comprehension that numbers the chunks. */
  function Annotate(chunks: seq<seq<Json>>): seq<Chunk>
  {
    seq(|chunks|, i requires 0 <= i < |chunks| => Chunk(i, |chunks|, chunks[i]))
  }

  /** `json_data.get("results", [])`. */
  function ResultsValue(jsonData: Fields): Json
  {
    GetOr(jsonData, "results", Array([]))
  }

  /** What `chunk_data` returns, or the exception it raises. */
  function Chunked(tokens: Json -> nat, limit: nat, jsonData: Fields): Result<seq<Chunk>, PyError>
  {
    match Iterate(ResultsValue(jsonData))
    case None => Failure(NotIterable(ResultsValue(jsonData)))
    case Some(results) =>
      match Traversal(results)
      case Failure(e) => Failure(e)
      case Success(subs) => Success(Annotate(EraseAll(TaggedChunks(tokens, limit, subs))))
  }

  // ---------------------------------------------------------------------
  // The imperative pass
  // ---------------------------------------------------------------------

  /** The variables `add_to_chunk` closes over (`chunks`, `current_chunk`,
      `current_chunk_size`, `metadata`, `metadata_size`), with the tagged
      specification state kept alongside as a ghost. */
  class ChunkAccumulator {
    const tokens: Json -> nat
    const tokenLimit: nat
    var chunks: seq<seq<Json>>
    var currentChunk: seq<Json>
    var currentChunkSize: nat
    var metadata: Json
    var metadataSize: nat
    ghost var state: PackState

    ghost predicate Valid()
      reads this
    {
      && chunks == EraseAll(state.closed)
      && currentChunk == Erase(state.current)
      && currentChunkSize == state.currentSize
      && metadata == state.metadata
      && metadataSize == state.metadataSize
    }

    constructor (tokens: Json -> nat, tokenLimit: nat)
      ensures Valid() && state == INITIAL
      ensures this.tokens == tokens && this.tokenLimit == tokenLimit
    {
      this.tokens := tokens;
      this.tokenLimit := tokenLimit;
      chunks, currentChunk, currentChunkSize := [], [], 0;
      metadata, metadataSize := EMPTY_DICT, 0;
      state := INITIAL;
    }

    /** `add_to_chunk(item, type)`. */
    method AddToChunk(item: Json, kind: Kind)
      requires Valid()
      modifies this
      ensures Valid()
      ensures state == Add(tokens, tokenLimit, old(state), SubItem(item, kind))
    {
      ghost var before := state;
      ghost var kept := before.current;
      var itemSize := tokens(item);
      if kind == Metadata {
        metadata := item;
        metadataSize := itemSize;
      }
      if currentChunkSize + itemSize > tokenLimit {
        EraseAllSnoc(before.closed, before.current);
        chunks := chunks + [currentChunk];
        if kind == Attribute {
          currentChunk := [metadata];
          currentChunkSize := metadataSize;
          kept := [Seeded(metadata, metadataSize)];
        } else {
          currentChunk := [];
          currentChunkSize := 0;
          kept := [];
        }
      }
      EraseSnoc(kept, Added(SubItem(item, kind)));
      currentChunk := currentChunk + [item];
      currentChunkSize := currentChunkSize + itemSize;
      state := Add(tokens, tokenLimit, before, SubItem(item, kind));
    }
  }

  /** One `add_to_chunk` call, seen as extending the items added so far. */
  method AddItem(acc: ChunkAccumulator, item: Json, kind: Kind, ghost done: seq<SubItem>)
    requires acc.Valid() && acc.state == Pack(acc.tokens, acc.tokenLimit, done)
    modifies acc
    ensures acc.Valid()
    ensures acc.state == Pack(acc.tokens, acc.tokenLimit, done + [SubItem(item, kind)])
  {
    PackSnoc(acc.tokens, acc.tokenLimit, done, SubItem(item, kind));
    acc.AddToChunk(item, kind);
  }

  /** The body of the loop over `results`: one entry's items are added, or
      the TypeError raised by iterating its `attributes` is returned. */
  method AddResult(acc: ChunkAccumulator, result: Json, ghost done: seq<SubItem>) returns (error: Option<PyError>)
    requires acc.Valid() && acc.state == Pack(acc.tokens, acc.tokenLimit, done)
    modifies acc
    ensures acc.Valid()
    ensures match RecordItems(result)
      case Failure(e) => error == Some(e)
      case Success(items) => error == None && acc.state == Pack(acc.tokens, acc.tokenLimit, done + items)
  {
    if result.Object? && result.fields != [] {
      error := AddRecord(acc, result, done);
    } else {
      AddItem(acc, result, Attribute, done);
      assert RecordItems(result) == Success([SubItem(result, Attribute)]);
      error := None;
    }
  }

  /** A record: its metadata first, then its attributes. */
  method AddRecord(acc: ChunkAccumulator, result: Json, ghost done: seq<SubItem>) returns (error: Option<PyError>)
    requires IsRecord(result)
    requires acc.Valid() && acc.state == Pack(acc.tokens, acc.tokenLimit, done)
    modifies acc
    ensures acc.Valid()
    ensures match RecordItems(result)
      case Failure(e) => error == Some(e)
      case Success(items) => error == None && acc.state == Pack(acc.tokens, acc.tokenLimit, done + items)
  {
    var metadata := Object(WithoutKey(result.fields, "attributes"));
    ghost var recordDone := done + [SubItem(metadata, Metadata)];
    AddItem(acc, metadata, Metadata, done);
    var attributesValue := GetOr(result.fields, "attributes", Array([]));
    var attributes := Iterate(attributesValue);
    RecordItemsOfRecord(result);
    if attributes.None? {
      return Some(NotIterable(attributesValue));
    }
    var xs := attributes.value;
    AddAttributes(acc, xs, recordDone);
    ConsAssociates(done, SubItem(metadata, Metadata), AsAttributes(xs));
    error := None;
  }

  /** The inner loop over a record's `attributes`: each one is added as an
      attribute-typed item, in order. */
  method AddAttributes(acc: ChunkAccumulator, xs: seq<Json>, ghost done: seq<SubItem>)
    requires acc.Valid() && acc.state == Pack(acc.tokens, acc.tokenLimit, done)
    modifies acc
    ensures acc.Valid()
    ensures acc.state == Pack(acc.tokens, acc.tokenLimit, done + AsAttributes(xs))
  {
    var j := 0;
    assert done + AsAttributes(xs[..0]) == done;
    while j < |xs|
      invariant 0 <= j <= |xs|
      invariant acc.Valid()
      invariant acc.state == Pack(acc.tokens, acc.tokenLimit, done + AsAttributes(xs[..j]))
    {
      AsAttributesSnoc(done, xs, j);
      AddItem(acc, xs[j], Attribute, done + AsAttributes(xs[..j]));
      j := j + 1;
    }
    assert xs[..j] == xs;
  }

  /** `TokenOperator.chunk_data` with its tokenizer passed in. */
  method ChunkData(tokens: Json -> nat, jsonData: Fields) returns (r: Result<seq<Chunk>, PyError>)
    ensures r == Chunked(tokens, TOKEN_LIMIT, jsonData)
  {
    var acc := new ChunkAccumulator(tokens, TOKEN_LIMIT);
    var resultsValue := GetOr(jsonData, "results", Array([]));
    var iterated := Iterate(resultsValue);
    if iterated.None? {
      return Failure(NotIterable(resultsValue));
    }
    var results := iterated.value;
    ghost var done: seq<SubItem> := [];
    var i := 0;
    while i < |results|
      invariant 0 <= i <= |results|
      invariant acc.Valid() && acc.tokens == tokens && acc.tokenLimit == TOKEN_LIMIT
      invariant Traversal(results[..i]) == Success(done)
      invariant acc.state == Pack(tokens, TOKEN_LIMIT, done)
    {
      TraversalStep(results, i);
      var error := AddResult(acc, results[i], done);
      if error.Some? {
        TraversalFailurePropagates(results, i + 1);
        return Failure(error.value);
      }
      done := done + RecordItems(results[i]).value;
      i := i + 1;
    }
    assert results[..i] == results;
    var chunks := acc.chunks;
    if acc.currentChunk != [] {
      EraseAllSnoc(acc.state.closed, acc.state.current);
      chunks := chunks + [acc.currentChunk];
    }
    r := Success(Annotate(chunks));
  }

  // ---------------------------------------------------------------------
  // Unfolding helpers
  // ---------------------------------------------------------------------

  lemma PackSnoc(tokens: Json -> nat, limit: nat, subs: seq<SubItem>, x: SubItem)
    ensures Pack(tokens, limit, subs + [x]) == Add(tokens, limit, Pack(tokens, limit, subs), x)
  {
    assert (subs + [x])[..|subs|] == subs;
  }

  lemma TraversalSnoc(results: seq<Json>, r: Json)
    ensures Traversal(results + [r]) ==
      match Traversal(results)
      case Failure(e) => Failure(e)
      case Success(prefix) =>
        match RecordItems(r)
        case Failure(e) => Failure(e)
        case Success(items) => Success(prefix + items)
  {
    assert (results + [r])[..|results|] == results;
  }

  lemma TraversalStep(results: seq<Json>, i: nat)
    requires i < |results|
    ensures Traversal(results[..i + 1]) ==
      match Traversal(results[..i])
      case Failure(e) => Failure(e)
      case Success(prefix) =>
        match RecordItems(results[i])
        case Failure(e) => Failure(e)
        case Success(items) => Success(prefix + items)
  {
    assert results[..i + 1] == results[..i] + [results[i]];
    TraversalSnoc(results[..i], results[i]);
  }

  lemma TraversalFailurePropagates(results: seq<Json>, k: nat)
    requires 0 < k <= |results|
    requires Traversal(results[..k]).Failure?
    ensures Traversal(results) == Traversal(results[..k])
    decreases |results| - k
  {
    if k < |results| {
      var init := results[..|results| - 1];
      assert init[..k] == results[..k];
      TraversalFailurePropagates(init, k);
    } else {
      assert results[..k] == results;
    }
  }

  lemma RecordItemsOfRecord(result: Json)
    requires IsRecord(result)
    ensures var attributes := GetOr(result.fields, "attributes", Array([]));
      RecordItems(result) ==
        match Iterate(attributes)
        case None => Failure(NotIterable(attributes))
        case Some(xs) => Success([SubItem(Object(WithoutKey(result.fields, "attributes")), Metadata)] + AsAttributes(xs))
  {
  }

  lemma ConsAssociates(done: seq<SubItem>, x: SubItem, rest: seq<SubItem>)
    ensures done + ([x] + rest) == (done + [x]) + rest
  {
  }

  lemma AsAttributesSnoc(prefix: seq<SubItem>, xs: seq<Json>, j: nat)
    requires j < |xs|
    ensures prefix + AsAttributes(xs[..j + 1]) == (prefix + AsAttributes(xs[..j])) + [SubItem(xs[j], Attribute)]
  {
    assert AsAttributes(xs[..j + 1]) == AsAttributes(xs[..j]) + [SubItem(xs[j], Attribute)];
  }

  lemma EraseSnoc(c: seq<Entry>, e: Entry)
    ensures Erase(c + [e]) == Erase(c) + [e.Value()]
  {
  }

  lemma EraseAllSnoc(cs: seq<seq<Entry>>, c: seq<Entry>)
    ensures EraseAll(cs + [c]) == EraseAll(cs) + [Erase(c)]
  {
  }
}
