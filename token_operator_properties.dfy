/** What the chunking pass guarantees: every traversed item lands in exactly
    one chunk, in order; only a leading chunk can be empty; every chunk over
    the limit is a lone oversized item (with its seed); every later chunk starts
    with metadata context. */
module TokenOperatorProperties {
  import opened Values
  import opened TokenOperator

  // ---------------------------------------------------------------------
  // Views of the tagged chunks
  // ---------------------------------------------------------------------

  /** The items of a chunk with its seeded metadata copy deleted. */
  function AddedItems(c: seq<Entry>): seq<SubItem>
  {
    if c == [] then []
    else AddedItems(c[..|c| - 1]) + (if c[|c| - 1].Added? then [c[|c| - 1].sub] else [])
  }

  /** All chunks' items, in order, with the seeded copies deleted. */
  function Flatten(cs: seq<seq<Entry>>): seq<SubItem>
  {
    if cs == [] then [] else Flatten(cs[..|cs| - 1]) + AddedItems(cs[|cs| - 1])
  }

  /** The size the pass charges for an entry: the tokenizer's count for an
      added item, the recorded `metadata_size` for a seed. */
  function EntryCost(tokens: Json -> nat, e: Entry): nat
  {
    match e
    case Added(s) => tokens(s.item)
    case Seeded(_, n) => n
  }

  /** The tracked size of a chunk. */
  function Cost(tokens: Json -> nat, c: seq<Entry>): nat
  {
    if c == [] then 0 else Cost(tokens, c[..|c| - 1]) + EntryCost(tokens, c[|c| - 1])
  }

  /** The two shapes a chunk over the limit can have: one metadata item alone,
      or a seed followed by one attribute-typed item. */
  predicate LoneOverflow(c: seq<Entry>)
  {
    || (|c| == 1 && c[0].Added? && c[0].sub.kind == Metadata)
    || (|c| == 2 && c[0].Seeded? && c[1].Added? && c[1].sub.kind == Attribute)
  }

  /** A chunk starts with metadata context: a seed or a metadata item. */
  predicate StartsWithContext(c: seq<Entry>)
  {
    c != [] && (c[0].Seeded? || c[0].sub.kind == Metadata)
  }

  /** A seed can only stand at the head of a chunk. */
  predicate SeedOnlyAtHead(c: seq<Entry>)
  {
    forall j :: 0 < j < |c| ==> c[j].Added?
  }

  /** The most recent metadata item of a traversal prefix. */
  function LastMetadata(subs: seq<SubItem>): Option<Json>
  {
    if subs == [] then None
    else if subs[|subs| - 1].kind == Metadata then Some(subs[|subs| - 1].item)
    else LastMetadata(subs[..|subs| - 1])
  }

  /** The seed an attribute overflow inserts after the prefix subs: the latest
      metadata item at its own size, or `{}` at size 0 before any metadata. */
  function SeedAfter(tokens: Json -> nat, subs: seq<SubItem>): Entry
  {
    match LastMetadata(subs)
    case Some(m) => Seeded(m, tokens(m))
    case None => Seeded(EMPTY_DICT, 0)
  }

  // ---------------------------------------------------------------------
  // Unfolding helpers
  // ---------------------------------------------------------------------

  lemma AddedItemsSnoc(c: seq<Entry>, e: Entry)
    ensures AddedItems(c + [e]) == AddedItems(c) + (if e.Added? then [e.sub] else [])
  {
    assert (c + [e])[..|c|] == c;
  }

  lemma FlattenSnoc(cs: seq<seq<Entry>>, c: seq<Entry>)
    ensures Flatten(cs + [c]) == Flatten(cs) + AddedItems(c)
  {
    assert (cs + [c])[..|cs|] == cs;
  }

  lemma CostSnoc(tokens: Json -> nat, c: seq<Entry>, e: Entry)
    ensures Cost(tokens, c + [e]) == Cost(tokens, c) + EntryCost(tokens, e)
  {
    assert (c + [e])[..|c|] == c;
  }

  lemma CostPair(tokens: Json -> nat, a: Entry, b: Entry)
    ensures Cost(tokens, [a]) == EntryCost(tokens, a)
    ensures Cost(tokens, [a, b]) == EntryCost(tokens, a) + EntryCost(tokens, b)
  {
    CostSnoc(tokens, [], a);
    assert [] + [a] == [a];
    CostSnoc(tokens, [a], b);
    assert [a] + [b] == [a, b];
  }

  lemma SplitLast(a: seq<Json>, b: seq<Json>)
    requires b != []
    ensures b == b[..|b| - 1] + [b[|b| - 1]]
    ensures a + b == (a + b[..|b| - 1]) + [b[|b| - 1]]
  {
  }

  lemma AppendAssociates(x: seq<SubItem>, y: seq<SubItem>, z: seq<SubItem>)
    ensures (x + y) + z == x + (y + z)
  {
  }

  lemma TraversalLastItems(results: seq<Json>)
    requires results != []
    ensures Traversal(results).Success? <==>
      Traversal(results[..|results| - 1]).Success? && RecordItems(results[|results| - 1]).Success?
    ensures Traversal(results).Success? ==>
      Traversal(results).value == Traversal(results[..|results| - 1]).value + RecordItems(results[|results| - 1]).value
  {
  }

  // ---------------------------------------------------------------------
  // The traversal
  // ---------------------------------------------------------------------

  /** Traversing two runs of entries is traversing each and concatenating,
      so the traversal is record after record, each record's items in order. */
  lemma {:induction false} TraversalAppend(a: seq<Json>, b: seq<Json>)
    ensures Traversal(a + b).Success? <==> Traversal(a).Success? && Traversal(b).Success?
    ensures Traversal(a + b).Success? ==> Traversal(a + b).value == Traversal(a).value + Traversal(b).value
  {
    if b == [] {
      assert a + b == a;
    } else {
      var b0, r := b[..|b| - 1], b[|b| - 1];
      SplitLast(a, b);
      TraversalAppend(a, b0);
      TraversalSnoc(a + b0, r);
      TraversalSnoc(b0, r);
      if Traversal(a + b0).Success? && RecordItems(r).Success? {
        AppendAssociates(Traversal(a).value, Traversal(b0).value, RecordItems(r).value);
      }
    }
  }

  /** One entry on its own is traversed into exactly its own items. */
  lemma TraversalSingle(r: Json)
    ensures Traversal([r]) == RecordItems(r)
  {
    assert [r][..0] == [];
    if RecordItems(r).Success? {
      assert [] + RecordItems(r).value == RecordItems(r).value;
    }
  }

  /** A record contributes its metadata (the record with only `attributes`
      removed) and then its attributes in order; any other entry, including
      `{}`, contributes itself unchanged as an attribute-typed item. */
  lemma RecordItemsShape(result: Json)
    ensures !IsRecord(result) ==> RecordItems(result) == Success([SubItem(result, Attribute)])
    ensures IsRecord(result) ==>
      match Iterate(GetOr(result.fields, "attributes", Array([])))
      case None => RecordItems(result).Failure?
      case Some(xs) =>
        RecordItems(result).Success? &&
        var items := RecordItems(result).value;
        && |items| == |xs| + 1
        && items[0].kind == Metadata && items[0].item.Object?
        && "attributes" !in Keys(items[0].item.fields)
        && (forall k :: k != "attributes" ==> Lookup(items[0].item.fields, k) == Lookup(result.fields, k))
        && (forall j :: 0 <= j < |xs| ==> items[j + 1] == SubItem(xs[j], Attribute))
  {
  }

  /** Every entry contributes at least one item. */
  lemma {:induction false} TraversalCoversEveryEntry(results: seq<Json>)
    requires Traversal(results).Success?
    ensures |Traversal(results).value| >= |results|
  {
    if results != [] {
      TraversalLastItems(results);
      TraversalCoversEveryEntry(results[..|results| - 1]);
      var last := results[|results| - 1];
      if IsRecord(last) {
        assert |RecordItems(last).value| >= 1;
      }
    }
  }

  // ---------------------------------------------------------------------
  // The pass: invariants by induction over the traversal
  // ---------------------------------------------------------------------

  /** Nothing is split, dropped or duplicated: the closed chunks and the
      current one, seeds deleted, are the items added so far. */
  lemma {:induction false} PackKeepsEveryItem(tokens: Json -> nat, limit: nat, subs: seq<SubItem>)
    ensures Flatten(Pack(tokens, limit, subs).closed) + AddedItems(Pack(tokens, limit, subs).current) == subs
  {
    if subs != [] {
      var init, x := subs[..|subs| - 1], subs[|subs| - 1];
      assert subs == init + [x];
      PackKeepsEveryItem(tokens, limit, init);
      PackSnoc(tokens, limit, init, x);
      AddKeepsItems(tokens, limit, Pack(tokens, limit, init), x);
    }
  }

  /** One call of `add_to_chunk` appends its item to the chunks' items. */
  lemma AddKeepsItems(tokens: Json -> nat, limit: nat, st: PackState, x: SubItem)
    ensures var after := Add(tokens, limit, st, x);
      Flatten(after.closed) + AddedItems(after.current) == (Flatten(st.closed) + AddedItems(st.current)) + [x]
  {
    var after := Add(tokens, limit, st, x);
    if st.currentSize + tokens(x.item) > limit {
      assert after.closed == st.closed + [st.current];
      FlattenSnoc(st.closed, st.current);
      FreshChunkItems(Seeded(after.metadata, after.metadataSize), x);
      assert after.current == [Seeded(after.metadata, after.metadataSize), Added(x)] || after.current == [Added(x)];
    } else {
      assert after.closed == st.closed && after.current == st.current + [Added(x)];
      AddedItemsSnoc(st.current, Added(x));
      assert Flatten(st.closed) + (AddedItems(st.current) + [x]) == (Flatten(st.closed) + AddedItems(st.current)) + [x];
    }
  }

  /** A chunk opened by an overflow holds just the overflowing item. */
  lemma FreshChunkItems(seed: Entry, x: SubItem)
    requires seed.Seeded?
    ensures AddedItems([Added(x)]) == [x]
    ensures AddedItems([seed, Added(x)]) == [x]
  {
    AddedItemsSnoc([], Added(x));
    assert [] + [Added(x)] == [Added(x)];
    AddedItemsSnoc([], seed);
    assert [] + [seed] == [seed];
    AddedItemsSnoc([seed], Added(x));
    assert [seed] + [Added(x)] == [seed, Added(x)];
  }

  /** `metadata` and `metadata_size` hold the latest metadata item and its
      size, or `{}` and 0 before the first one. */
  lemma {:induction false} PackTracksLatestMetadata(tokens: Json -> nat, limit: nat, subs: seq<SubItem>)
    ensures Seeded(Pack(tokens, limit, subs).metadata, Pack(tokens, limit, subs).metadataSize) == SeedAfter(tokens, subs)
  {
    if subs != [] {
      PackTracksLatestMetadata(tokens, limit, subs[..|subs| - 1]);
    }
  }

  /** The current chunk is non-empty once anything was added, no closed chunk
      after the first is empty, and the first closed chunk is empty exactly
      when the very first item alone exceeds the limit. */
  lemma {:induction false} PackEmptyChunks(tokens: Json -> nat, limit: nat, subs: seq<SubItem>)
    ensures var st := Pack(tokens, limit, subs);
      && (subs == [] ==> st.closed == [] && st.current == [])
      && (subs != [] ==> st.current != [])
      && (forall k :: 0 < k < |st.closed| ==> st.closed[k] != [])
      && (subs != [] ==> (tokens(subs[0].item) > limit <==> st.closed != [] && st.closed[0] == []))
  {
    if subs != [] {
      var init, x := subs[..|subs| - 1], subs[|subs| - 1];
      PackEmptyChunks(tokens, limit, init);
      if init != [] {
        assert subs[0] == init[0];
      }
    }
  }

  /** A chunk within the limit, or one of the two shapes that may exceed it. */
  predicate WithinLimit(tokens: Json -> nat, limit: nat, c: seq<Entry>)
  {
    Cost(tokens, c) <= limit || LoneOverflow(c)
  }

  /** The size facts the pass keeps: the tracked size is the cost of the
      current chunk, every chunk is within the limit or a lone overflow, and
      the first chunk is within the limit. */
  predicate SizesHold(tokens: Json -> nat, limit: nat, st: PackState)
  {
    && st.currentSize == Cost(tokens, st.current)
    && WithinLimit(tokens, limit, st.current)
    && (forall k :: 0 <= k < |st.closed| ==> WithinLimit(tokens, limit, st.closed[k]))
    && (if st.closed == [] then Cost(tokens, st.current) <= limit else Cost(tokens, st.closed[0]) <= limit)
  }

  lemma AddKeepsSizes(tokens: Json -> nat, limit: nat, st: PackState, x: SubItem)
    requires SizesHold(tokens, limit, st)
    ensures SizesHold(tokens, limit, Add(tokens, limit, st, x))
  {
    var after := Add(tokens, limit, st, x);
    if st.currentSize + tokens(x.item) > limit {
      assert after.closed == st.closed + [st.current];
      assert forall k :: 0 <= k < |st.closed| ==> after.closed[k] == st.closed[k];
      assert after.closed[|st.closed|] == st.current;
      if x.kind == Attribute {
        CostPair(tokens, Seeded(after.metadata, after.metadataSize), Added(x));
        assert after.current == [Seeded(after.metadata, after.metadataSize), Added(x)];
      } else {
        CostPair(tokens, Added(x), Added(x));
        assert after.current == [Added(x)];
      }
      assert LoneOverflow(after.current);
    } else {
      assert after.closed == st.closed && after.current == st.current + [Added(x)];
      CostSnoc(tokens, st.current, Added(x));
    }
  }

  lemma {:induction false} PackSizes(tokens: Json -> nat, limit: nat, subs: seq<SubItem>)
    ensures SizesHold(tokens, limit, Pack(tokens, limit, subs))
  {
    if subs != [] {
      var init, x := subs[..|subs| - 1], subs[|subs| - 1];
      PackSizes(tokens, limit, init);
      AddKeepsSizes(tokens, limit, Pack(tokens, limit, init), x);
    }
  }

  /** Every closed chunk after the first, and the current chunk once one was
      closed, starts with metadata context; seeds stand only at heads. */
  lemma {:induction false} PackHeads(tokens: Json -> nat, limit: nat, subs: seq<SubItem>)
    ensures var st := Pack(tokens, limit, subs);
      && (forall k :: 0 < k < |st.closed| ==> StartsWithContext(st.closed[k]))
      && (st.closed != [] ==> StartsWithContext(st.current))
      && (forall k :: 0 <= k < |st.closed| ==> SeedOnlyAtHead(st.closed[k]))
      && SeedOnlyAtHead(st.current)
  {
    if subs != [] {
      var init, x := subs[..|subs| - 1], subs[|subs| - 1];
      PackHeads(tokens, limit, init);
      PackEmptyChunks(tokens, limit, init);
    }
  }

  // ---------------------------------------------------------------------
  // One step of add_to_chunk
  // ---------------------------------------------------------------------

  /** An attribute-typed item that overflows closes the current chunk and
      starts the next one with the latest metadata item (or `{}` before any),
      the tracked size restarting at that metadata's size. */
  lemma AttributeOverflowSeedsLatestMetadata(tokens: Json -> nat, limit: nat, subs: seq<SubItem>, attr: SubItem)
    requires attr.kind == Attribute
    requires Cost(tokens, Pack(tokens, limit, subs).current) + tokens(attr.item) > limit
    ensures var before, after := Pack(tokens, limit, subs), Pack(tokens, limit, subs + [attr]);
      && after.closed == before.closed + [before.current]
      && after.current == [SeedAfter(tokens, subs), Added(attr)]
      && after.currentSize == SeedAfter(tokens, subs).size + tokens(attr.item)
  {
    PackSizes(tokens, limit, subs);
    PackTracksLatestMetadata(tokens, limit, subs);
    PackSnoc(tokens, limit, subs, attr);
  }

  /** A metadata item that overflows closes the current chunk and starts the
      next one with just itself; nothing is seeded. */
  lemma MetadataOverflowStartsClean(tokens: Json -> nat, limit: nat, subs: seq<SubItem>, meta: SubItem)
    requires meta.kind == Metadata
    requires Cost(tokens, Pack(tokens, limit, subs).current) + tokens(meta.item) > limit
    ensures var before, after := Pack(tokens, limit, subs), Pack(tokens, limit, subs + [meta]);
      && after.closed == before.closed + [before.current]
      && after.current == [Added(meta)]
      && after.currentSize == tokens(meta.item)
  {
    PackSizes(tokens, limit, subs);
    PackSnoc(tokens, limit, subs, meta);
  }

  /** An item that fits joins the current chunk. */
  lemma FittingItemJoinsCurrentChunk(tokens: Json -> nat, limit: nat, subs: seq<SubItem>, x: SubItem)
    requires Cost(tokens, Pack(tokens, limit, subs).current) + tokens(x.item) <= limit
    ensures var before, after := Pack(tokens, limit, subs), Pack(tokens, limit, subs + [x]);
      && after.closed == before.closed
      && after.current == before.current + [Added(x)]
      && Cost(tokens, after.current) <= limit
  {
    PackSizes(tokens, limit, subs);
    PackSnoc(tokens, limit, subs, x);
    CostSnoc(tokens, Pack(tokens, limit, subs).current, Added(x));
  }

  // ---------------------------------------------------------------------
  // The emitted chunk list
  // ---------------------------------------------------------------------

  /** Concatenating the chunks in order and deleting the seeded copies gives
      exactly the traversal. */
  lemma ChunksKeepEveryItem(tokens: Json -> nat, limit: nat, subs: seq<SubItem>)
    ensures Flatten(TaggedChunks(tokens, limit, subs)) == subs
  {
    PackKeepsEveryItem(tokens, limit, subs);
    var st := Pack(tokens, limit, subs);
    if st.current != [] {
      FlattenSnoc(st.closed, st.current);
    }
  }

  /** No chunk list is empty unless the traversal is; only chunk 0 can be
      empty, and it is exactly when the first item alone exceeds the limit;
      the last chunk is never empty. */
  lemma OnlyALeadingChunkIsEmpty(tokens: Json -> nat, limit: nat, subs: seq<SubItem>)
    ensures var cs := TaggedChunks(tokens, limit, subs);
      && (cs == [] <==> subs == [])
      && (forall k :: 0 <= k < |cs| ==> (cs[k] == [] <==> k == 0 && tokens(subs[0].item) > limit))
      && (cs != [] ==> cs[|cs| - 1] != [])
  {
    PackEmptyChunks(tokens, limit, subs);
  }

  /** Any chunk over the limit is a lone metadata item or a seed followed by a
      lone attribute-typed item; chunk 0 is within the limit. */
  lemma OversizedChunksAreLoneItems(tokens: Json -> nat, limit: nat, subs: seq<SubItem>)
    ensures var cs := TaggedChunks(tokens, limit, subs);
      && (forall k :: 0 <= k < |cs| ==> Cost(tokens, cs[k]) <= limit || LoneOverflow(cs[k]))
      && (cs != [] ==> Cost(tokens, cs[0]) <= limit)
  {
    PackSizes(tokens, limit, subs);
    var st := Pack(tokens, limit, subs);
    if st.current != [] {
      assert TaggedChunks(tokens, limit, subs) == st.closed + [st.current];
    }
  }

  /** Every chunk after the first starts with a metadata item or a seed, so no
      attribute reaches a later chunk without something in front of it; seeds
      appear only at the head of a chunk. The seed is the `{}` placeholder when
      no record has been seen yet (see `EmptyDictSeedExample`). */
  lemma LaterChunksStartWithContext(tokens: Json -> nat, limit: nat, subs: seq<SubItem>)
    ensures var cs := TaggedChunks(tokens, limit, subs);
      && (forall k :: 0 < k < |cs| ==> StartsWithContext(cs[k]))
      && (forall k :: 0 <= k < |cs| ==> SeedOnlyAtHead(cs[k]))
  {
    PackHeads(tokens, limit, subs);
  }

  // ---------------------------------------------------------------------
  // What chunk_data returns
  // ---------------------------------------------------------------------

  /** The output is the erased tagged chunks, and those hold the traversal. */
  lemma ChunkDataKeepsTraversal(tokens: Json -> nat, limit: nat, jsonData: Fields, results: seq<Json>, subs: seq<SubItem>)
    requires Iterate(ResultsValue(jsonData)) == Some(results)
    requires Traversal(results) == Success(subs)
    ensures Chunked(tokens, limit, jsonData) == Success(Annotate(EraseAll(TaggedChunks(tokens, limit, subs))))
    ensures Flatten(TaggedChunks(tokens, limit, subs)) == subs
  {
    ChunksKeepEveryItem(tokens, limit, subs);
  }

  /** Every entry carries its own position as `chunk_id` and the length of
      the list as `total_chunks`. */
  lemma ChunkIdsAndTotals(tokens: Json -> nat, limit: nat, jsonData: Fields)
    requires Chunked(tokens, limit, jsonData).Success?
    ensures var cs := Chunked(tokens, limit, jsonData).value;
      forall i :: 0 <= i < |cs| ==> cs[i].chunkId == i && cs[i].totalChunks == |cs|
  {
  }

  /** The chunk list is empty exactly when `results` iterates to nothing; an
      absent `results` key counts as `[]`. */
  lemma EmptyChunksIffNoResults(tokens: Json -> nat, limit: nat, jsonData: Fields)
    ensures Chunked(tokens, limit, jsonData) == Success([]) <==> Iterate(ResultsValue(jsonData)) == Some([])
    ensures Lookup(jsonData, "results") == None ==> Chunked(tokens, limit, jsonData) == Success([])
  {
    match Iterate(ResultsValue(jsonData))
    case None =>
    case Some(results) =>
      if Traversal(results).Success? {
        var subs := Traversal(results).value;
        TraversalCoversEveryEntry(results);
        OnlyALeadingChunkIsEmpty(tokens, limit, subs);
        assert |Annotate(EraseAll(TaggedChunks(tokens, limit, subs)))| == |TaggedChunks(tokens, limit, subs)|;
      }
  }

  // ---------------------------------------------------------------------
  // Worked examples
  // ---------------------------------------------------------------------

  /** A single record whose metadata alone exceeds the limit: the empty chunk
      open at the start is closed and emitted first. */
  lemma LeadingEmptyChunkExample()
    ensures var record := Object([("name", Str("t"))]);
      Chunked((v: Json) => 500, 100, [("results", Array([record]))]) ==
        Success([Chunk(0, 2, []), Chunk(1, 2, [record])])
  {
    var record := Object([("name", Str("t"))]);
    var tokens := (v: Json) => 500;
    var jsonData := [("results", Array([record]))];
    assert ResultsValue(jsonData) == Array([record]);
    assert WithoutKey(record.fields, "attributes") == record.fields;
    assert RecordItems(record) == Success([SubItem(record, Metadata)] + AsAttributes([]));
    assert AsAttributes([]) == [];
    TraversalSingle(record);
    var subs := [SubItem(record, Metadata)];
    assert subs[..0] == [];
    assert Pack(tokens, 100, subs) == PackState([[]], [Added(SubItem(record, Metadata))], 500, record, 500);
    var tagged := [[], [Added(SubItem(record, Metadata))]];
    assert TaggedChunks(tokens, 100, subs) == tagged;
    assert Erase(tagged[0]) == [] && Erase(tagged[1]) == [record];
    assert EraseAll(tagged) == [[], [record]];
    assert Annotate([[], [record]]) == [Chunk(0, 2, []), Chunk(1, 2, [record])];
  }

  /** Two plain entries of 60 tokens each under a limit of 100: the second one
      overflows as an attribute before any metadata was seen, so the next chunk
      is seeded with `{}`. */
  lemma EmptyDictSeedExample()
    ensures Chunked((v: Json) => 60, 100, [("results", Array([Str("x"), Str("y")]))]) ==
      Success([Chunk(0, 2, [Str("x")]), Chunk(1, 2, [EMPTY_DICT, Str("y")])])
  {
    var tokens := (v: Json) => 60;
    var jsonData := [("results", Array([Str("x"), Str("y")]))];
    assert ResultsValue(jsonData) == Array([Str("x"), Str("y")]);
    var x, y := SubItem(Str("x"), Attribute), SubItem(Str("y"), Attribute);
    assert RecordItems(Str("x")) == Success([x]);
    assert RecordItems(Str("y")) == Success([y]);
    TraversalSingle(Str("x"));
    TraversalSnoc([Str("x")], Str("y"));
    assert [Str("x")] + [Str("y")] == [Str("x"), Str("y")];
    assert [x] + [y] == [x, y];
    assert Traversal([Str("x"), Str("y")]) == Success([x, y]);
    assert [x][..0] == [];
    assert Pack(tokens, 100, [x]) == PackState([], [Added(x)], 60, EMPTY_DICT, 0);
    assert [x, y][..1] == [x];
    assert Pack(tokens, 100, [x, y]) == PackState([[Added(x)]], [Seeded(EMPTY_DICT, 0), Added(y)], 60, EMPTY_DICT, 0);
    var tagged := [[Added(x)], [Seeded(EMPTY_DICT, 0), Added(y)]];
    assert TaggedChunks(tokens, 100, [x, y]) == tagged;
    assert Erase(tagged[0]) == [Str("x")] && Erase(tagged[1]) == [EMPTY_DICT, Str("y")];
    assert EraseAll(tagged) == [[Str("x")], [EMPTY_DICT, Str("y")]];
    assert Annotate([[Str("x")], [EMPTY_DICT, Str("y")]]) == [Chunk(0, 2, [Str("x")]), Chunk(1, 2, [EMPTY_DICT, Str("y")])];
  }

  const EXAMPLE_META: Json := Object([("name", Str("t"))])
  const EXAMPLE_RECORD: Json := Object([("name", Str("t")), ("attributes", Array([Str("a"), Str("b"), Str("c")]))])

  /** The metadata costs 40 tokens, the attribute "c" 50 and every other value 30. */
  function ExampleTokens(v: Json): nat
  {
    if v == EXAMPLE_META then 40 else if v == Str("c") then 50 else 30
  }

  /** The example record traverses into its metadata and three attributes. */
  lemma ExampleRecordItems()
    ensures RecordItems(EXAMPLE_RECORD) == Success([SubItem(EXAMPLE_META, Metadata),
      SubItem(Str("a"), Attribute), SubItem(Str("b"), Attribute), SubItem(Str("c"), Attribute)])
  {
    var fields := EXAMPLE_RECORD.fields;
    assert fields[1..][1..] == [];
    assert Lookup(fields[1..], "attributes") == Some(Array([Str("a"), Str("b"), Str("c")]));
    assert WithoutKey(fields[1..], "attributes") == [];
    assert WithoutKey(fields, "attributes") == EXAMPLE_META.fields;
    var xs := [Str("a"), Str("b"), Str("c")];
    assert GetOr(fields, "attributes", Array([])) == Array(xs);
    assert AsAttributes(xs) == [SubItem(Str("a"), Attribute), SubItem(Str("b"), Attribute), SubItem(Str("c"), Attribute)];
    RecordItemsOfRecord(EXAMPLE_RECORD);
    assert Object(WithoutKey(fields, "attributes")) == EXAMPLE_META;
    assert [SubItem(EXAMPLE_META, Metadata)] + AsAttributes(xs) == [SubItem(EXAMPLE_META, Metadata),
      SubItem(Str("a"), Attribute), SubItem(Str("b"), Attribute), SubItem(Str("c"), Attribute)];
  }

  /** The pass over the example's items: the third attribute overflows and
      opens a chunk seeded with the metadata. */
  lemma ExamplePack()
    ensures Pack(ExampleTokens, 100, [SubItem(EXAMPLE_META, Metadata),
      SubItem(Str("a"), Attribute), SubItem(Str("b"), Attribute), SubItem(Str("c"), Attribute)])
      == PackState([[Added(SubItem(EXAMPLE_META, Metadata)), Added(SubItem(Str("a"), Attribute)), Added(SubItem(Str("b"), Attribute))]],
                   [Seeded(EXAMPLE_META, 40), Added(SubItem(Str("c"), Attribute))], 90, EXAMPLE_META, 40)
  {
    var tokens := ExampleTokens;
    var m, x1, x2, x3 := SubItem(EXAMPLE_META, Metadata), SubItem(Str("a"), Attribute), SubItem(Str("b"), Attribute), SubItem(Str("c"), Attribute);
    PackSnoc(tokens, 100, [], m);
    assert [] + [m] == [m];
    assert Pack(tokens, 100, [m]) == PackState([], [Added(m)], 40, EXAMPLE_META, 40);
    PackSnoc(tokens, 100, [m], x1);
    assert [m] + [x1] == [m, x1];
    assert Pack(tokens, 100, [m, x1]) == PackState([], [Added(m), Added(x1)], 70, EXAMPLE_META, 40);
    PackSnoc(tokens, 100, [m, x1], x2);
    assert [m, x1] + [x2] == [m, x1, x2];
    assert Pack(tokens, 100, [m, x1, x2]) == PackState([], [Added(m), Added(x1), Added(x2)], 100, EXAMPLE_META, 40);
    PackSnoc(tokens, 100, [m, x1, x2], x3);
    assert [m, x1, x2] + [x3] == [m, x1, x2, x3];
  }

  /** A record cut in the middle of its attribute list: the second chunk is
      seeded with the record's metadata before the attribute that overflowed. */
  lemma SeededChunkExample()
    ensures Chunked(ExampleTokens, 100, [("results", Array([EXAMPLE_RECORD]))]) ==
      Success([Chunk(0, 2, [EXAMPLE_META, Str("a"), Str("b")]), Chunk(1, 2, [EXAMPLE_META, Str("c")])])
  {
    var jsonData := [("results", Array([EXAMPLE_RECORD]))];
    var m, x1, x2, x3 := SubItem(EXAMPLE_META, Metadata), SubItem(Str("a"), Attribute), SubItem(Str("b"), Attribute), SubItem(Str("c"), Attribute);
    var subs := [m, x1, x2, x3];
    assert Iterate(ResultsValue(jsonData)) == Some([EXAMPLE_RECORD]);
    ExampleRecordItems();
    TraversalSingle(EXAMPLE_RECORD);
    assert Chunked(ExampleTokens, 100, jsonData) == Success(Annotate(EraseAll(TaggedChunks(ExampleTokens, 100, subs))));
    ExampleChunks();
  }

  lemma ExampleChunks()
    ensures Annotate(EraseAll(TaggedChunks(ExampleTokens, 100, [SubItem(EXAMPLE_META, Metadata),
      SubItem(Str("a"), Attribute), SubItem(Str("b"), Attribute), SubItem(Str("c"), Attribute)]))) ==
      [Chunk(0, 2, [EXAMPLE_META, Str("a"), Str("b")]), Chunk(1, 2, [EXAMPLE_META, Str("c")])]
  {
    ExamplePack();
    var m, x1, x2, x3 := SubItem(EXAMPLE_META, Metadata), SubItem(Str("a"), Attribute), SubItem(Str("b"), Attribute), SubItem(Str("c"), Attribute);
    var tagged := [[Added(m), Added(x1), Added(x2)], [Seeded(EXAMPLE_META, 40), Added(x3)]];
    assert TaggedChunks(ExampleTokens, 100, [m, x1, x2, x3]) == tagged;
    assert Erase(tagged[0]) == [EXAMPLE_META, Str("a"), Str("b")] && Erase(tagged[1]) == [EXAMPLE_META, Str("c")];
    assert EraseAll(tagged) == [[EXAMPLE_META, Str("a"), Str("b")], [EXAMPLE_META, Str("c")]];
  }
}
