/**
 * Splitting the extracted items into token-bounded chunks (`chunk_by_tokens`), naming the
 * chunk files (`write_chunks`) and the `--last N` slice, from
 * plugins/claude-code-team-plugin/lib/extract_conversation.py.
 */
module Chunking {
  import opened Wrappers
  import opened Strings
  import opened Json
  import opened Items
  import opened Paths

  /** The default `max_tokens`. */
  const TokenChunkSize: int := 20000

  /** The token count of one item: the counter applied to its `json.dumps`. */
  function Cost(f: Foreign, tokens: string -> nat, x: Item): nat {
    tokens(f.dumps(ItemToJson(x)))
  }

  /** The token count of a chunk. */
  function Tokens(f: Foreign, tokens: string -> nat, xs: seq<Item>): nat
    decreases |xs|
  {
    if xs == [] then 0 else Tokens(f, tokens, xs[..|xs| - 1]) + Cost(f, tokens, xs[|xs| - 1])
  }

  /** The chunks laid end to end. */
  function Flatten(chunks: seq<seq<Item>>): seq<Item>
    decreases |chunks|
  {
    if chunks == [] then [] else Flatten(chunks[..|chunks| - 1]) + chunks[|chunks| - 1]
  }

  /** The conditions on the chunks themselves: none is empty, a chunk over the limit holds a
      single item, and every chunk was closed only because the next item would have taken it
      over the limit. */
  predicate ChunksOk(f: Foreign, tokens: string -> nat, maxTokens: int, chunks: seq<seq<Item>>) {
    && (forall i :: 0 <= i < |chunks| ==> chunks[i] != [])
    && (forall i :: 0 <= i < |chunks| ==> Tokens(f, tokens, chunks[i]) > maxTokens ==> |chunks[i]| == 1)
    && (forall i :: 0 <= i < |chunks| - 1 ==>
          Tokens(f, tokens, chunks[i]) + Cost(f, tokens, chunks[i + 1][0]) > maxTokens)
  }

  /** What the greedy loop produces: chunks that are the items in order and satisfy `ChunksOk`. */
  predicate GreedyPartition(f: Foreign, tokens: string -> nat, maxTokens: int,
                            items: seq<Item>, chunks: seq<seq<Item>>) {
    Flatten(chunks) == items && ChunksOk(f, tokens, maxTokens, chunks)
  }

  /** What the loop keeps true of the closed chunks and the open one. */
  predicate Progress(f: Foreign, tokens: string -> nat, maxTokens: int,
                     chunks: seq<seq<Item>>, current: seq<Item>) {
    && ChunksOk(f, tokens, maxTokens, chunks)
    && (chunks != [] ==>
          current != [] && Tokens(f, tokens, chunks[|chunks| - 1]) + Cost(f, tokens, current[0]) > maxTokens)
    && (Tokens(f, tokens, current) > maxTokens ==> |current| <= 1)
  }

  /** Appending a non-empty chunk whose first item did not fit after the last chunk keeps the
      chunks well formed. */
  lemma AppendChunk(f: Foreign, tokens: string -> nat, maxTokens: int,
                    chunks: seq<seq<Item>>, current: seq<Item>)
    requires Progress(f, tokens, maxTokens, chunks, current)
    requires current != []
    ensures ChunksOk(f, tokens, maxTokens, chunks + [current])
    ensures Flatten(chunks + [current]) == Flatten(chunks) + current
  {
    var cs := chunks + [current];
    assert cs[..|cs| - 1] == chunks;
    assert cs[|cs| - 1] == current;
    forall k | 0 <= k < |cs|
      ensures cs[k] != [] && (Tokens(f, tokens, cs[k]) > maxTokens ==> |cs[k]| == 1)
    {
      if k < |chunks| {
        assert cs[k] == chunks[k];
      }
    }
    forall k | 0 <= k < |cs| - 1
      ensures Tokens(f, tokens, cs[k]) + Cost(f, tokens, cs[k + 1][0]) > maxTokens
    {
      assert cs[k] == chunks[k];
      if k + 1 < |chunks| {
        assert cs[k + 1] == chunks[k + 1];
      }
    }
  }

  /** What the loop keeps true once it has scanned `items[..i]`: the closed chunks and the open
      one lay out the scanned items, and `currentTokens` counts the open chunk. */
  predicate Scanned(f: Foreign, tokens: string -> nat, maxTokens: int, items: seq<Item>, i: nat,
                    chunks: seq<seq<Item>>, current: seq<Item>, currentTokens: int) {
    && i <= |items|
    && Flatten(chunks) + current == items[..i]
    && Progress(f, tokens, maxTokens, chunks, current)
    && currentTokens == Tokens(f, tokens, current)
  }

  /** Closing the open chunk because the next item does not fit, and opening one with the item. */
  lemma CloseChunk(f: Foreign, tokens: string -> nat, maxTokens: int, items: seq<Item>, i: nat,
                   chunks: seq<seq<Item>>, current: seq<Item>, currentTokens: int)
    requires i < |items|
    requires Scanned(f, tokens, maxTokens, items, i, chunks, current, currentTokens)
    requires current != [] && currentTokens + Cost(f, tokens, items[i]) > maxTokens
    ensures Scanned(f, tokens, maxTokens, items, i + 1, chunks + [current], [items[i]], Cost(f, tokens, items[i]))
  {
    assert items[..i + 1] == items[..i] + [items[i]];
    AppendChunk(f, tokens, maxTokens, chunks, current);
    assert [items[i]][..0] == [];
  }

  /** Adding an item that fits (or starts the first chunk) to the open chunk. */
  lemma ExtendChunk(f: Foreign, tokens: string -> nat, maxTokens: int, items: seq<Item>, i: nat,
                    chunks: seq<seq<Item>>, current: seq<Item>, currentTokens: int)
    requires i < |items|
    requires Scanned(f, tokens, maxTokens, items, i, chunks, current, currentTokens)
    requires current == [] || currentTokens + Cost(f, tokens, items[i]) <= maxTokens
    ensures Scanned(f, tokens, maxTokens, items, i + 1, chunks, current + [items[i]],
                    currentTokens + Cost(f, tokens, items[i]))
  {
    var next := current + [items[i]];
    assert Flatten(chunks) + next == items[..i + 1] by {
      assert items[..i + 1] == items[..i] + [items[i]];
      assert Flatten(chunks) + next == (Flatten(chunks) + current) + [items[i]];
    }
    assert Tokens(f, tokens, next) == Tokens(f, tokens, current) + Cost(f, tokens, items[i]) by {
      assert next[..|next| - 1] == current;
    }
    if current != [] {
      assert next[0] == current[0];
    }
  }

  /** Closing the last open chunk ends the partition. */
  lemma CloseLast(f: Foreign, tokens: string -> nat, maxTokens: int, items: seq<Item>,
                  chunks: seq<seq<Item>>, current: seq<Item>, currentTokens: int)
    requires Scanned(f, tokens, maxTokens, items, |items|, chunks, current, currentTokens)
    ensures current != [] ==> GreedyPartition(f, tokens, maxTokens, items, chunks + [current])
    ensures current == [] ==> GreedyPartition(f, tokens, maxTokens, items, chunks)
  {
    assert items[..|items|] == items;
    if current != [] {
      AppendChunk(f, tokens, maxTokens, chunks, current);
    } else {
      assert Flatten(chunks) + current == Flatten(chunks);
    }
  }

  /** `chunk_by_tokens(items, max_tokens)` with the token counter as a parameter. */
  method ChunkByTokens(f: Foreign, tokens: string -> nat, items: seq<Item>, maxTokens: int)
    returns (chunks: seq<seq<Item>>)
    ensures GreedyPartition(f, tokens, maxTokens, items, chunks)
  {
    chunks := [];
    var current: seq<Item> := [];
    var currentTokens: nat := 0;
    for i := 0 to |items|
      invariant Scanned(f, tokens, maxTokens, items, i, chunks, current, currentTokens)
    {
      var itemTokens := Cost(f, tokens, items[i]);
      if currentTokens + itemTokens > maxTokens && current != [] {
        CloseChunk(f, tokens, maxTokens, items, i, chunks, current, currentTokens);
        chunks := chunks + [current];
        current := [items[i]];
        currentTokens := itemTokens;
      } else {
        ExtendChunk(f, tokens, maxTokens, items, i, chunks, current, currentTokens);
        current := current + [items[i]];
        currentTokens := currentTokens + itemTokens;
      }
    }
    CloseLast(f, tokens, maxTokens, items, chunks, current, currentTokens);
    if current != [] {
      chunks := chunks + [current];
    }
  }

  // ------------------------------------------------------------ the partition is unique

  lemma {:induction false} TokensAppend(f: Foreign, tokens: string -> nat, a: seq<Item>, b: seq<Item>)
    ensures Tokens(f, tokens, a + b) == Tokens(f, tokens, a) + Tokens(f, tokens, b)
    decreases |b|
  {
    if b != [] {
      var n := |b| - 1;
      TokensAppend(f, tokens, a, b[..n]);
      assert (a + b)[..|a + b| - 1] == a + b[..n];
    } else {
      assert a + b == a;
    }
  }

  /** A prefix never costs more than the whole. */
  lemma TokensPrefix(f: Foreign, tokens: string -> nat, xs: seq<Item>, k: nat)
    requires k <= |xs|
    ensures Tokens(f, tokens, xs[..k]) <= Tokens(f, tokens, xs)
  {
    TokensAppend(f, tokens, xs[..k], xs[k..]);
    assert xs[..k] + xs[k..] == xs;
  }

  /** Flattening from the front: the first chunk, then the rest. */
  lemma {:induction false} FlattenCons(chunks: seq<seq<Item>>)
    requires chunks != []
    ensures Flatten(chunks) == chunks[0] + Flatten(chunks[1..])
    decreases |chunks|
  {
    var n := |chunks| - 1;
    if n > 0 {
      FlattenCons(chunks[..n]);
      assert chunks[..n][1..] == chunks[1..][..n - 1];
      assert chunks[..n][0] == chunks[0];
    }
  }

  /** Dropping the first chunk of a greedy partition leaves a greedy partition of the rest. */
  lemma GreedyTail(f: Foreign, tokens: string -> nat, maxTokens: int, items: seq<Item>, chunks: seq<seq<Item>>)
    requires chunks != []
    requires GreedyPartition(f, tokens, maxTokens, items, chunks)
    ensures |chunks[0]| <= |items| && items[..|chunks[0]|] == chunks[0]
    ensures GreedyPartition(f, tokens, maxTokens, items[|chunks[0]|..], chunks[1..])
  {
    FlattenCons(chunks);
    var rest := chunks[1..];
    assert forall i :: 0 <= i < |rest| ==> rest[i] == chunks[i + 1];
  }

  /** A chunk reaching past a point where the next item would not fit is over the limit. */
  lemma PrefixOverflows(f: Foreign, tokens: string -> nat, maxTokens: int, items: seq<Item>,
                        a0: seq<Item>, b0: seq<Item>)
    requires |a0| < |b0| <= |items|
    requires items[..|a0|] == a0 && items[..|b0|] == b0
    requires Tokens(f, tokens, a0) + Cost(f, tokens, items[|a0|]) > maxTokens
    ensures Tokens(f, tokens, b0) > maxTokens
  {
    var n := |a0|;
    assert b0[..n] == a0 by {
      assert b0[..n] == items[..|b0|][..n];
    }
    assert b0[n] == items[n];
    TokensLast(f, tokens, b0, n);
    TokensPrefix(f, tokens, b0, n + 1);
  }

  /** Extending a prefix by one item adds that item's cost. */
  lemma TokensLast(f: Foreign, tokens: string -> nat, xs: seq<Item>, n: nat)
    requires n < |xs|
    ensures Tokens(f, tokens, xs[..n + 1]) == Tokens(f, tokens, xs[..n]) + Cost(f, tokens, xs[n])
  {
    assert xs[..n + 1][..n] == xs[..n];
  }

  /** The first chunk of a greedy partition is as long as any other partition's first chunk
      that fits: a chunk closes only when the next item does not fit. */
  lemma GreedyHeadNotShorter(f: Foreign, tokens: string -> nat, maxTokens: int, items: seq<Item>,
                             a: seq<seq<Item>>, b: seq<seq<Item>>)
    requires a != [] && b != []
    requires GreedyPartition(f, tokens, maxTokens, items, a)
    requires GreedyPartition(f, tokens, maxTokens, items, b)
    ensures |b[0]| <= |a[0]|
  {
    GreedyTail(f, tokens, maxTokens, items, a);
    GreedyTail(f, tokens, maxTokens, items, b);
    var n := |a[0]|;
    var a0 := a[0];
    var b0 := b[0];
    FlattenCons(a);
    if |a| == 1 {
      assert a[1..] == [];
      assert items == a0;
    } else {
      var a1 := a[1];
      assert a1 != [];
      FlattenCons(a[1..]);
      assert a[1..][0] == a1;
      assert items == a0 + (a1 + Flatten(a[2..]));
      assert items[n] == a1[0];
      assert Tokens(f, tokens, a0) + Cost(f, tokens, items[n]) > maxTokens;
      if |b0| > n {
        PrefixOverflows(f, tokens, maxTokens, items, a0, b0);
        assert false;
      }
    }
  }

  /** Two greedy partitions of the same items start with the same chunk. */
  lemma GreedyHeadsAgree(f: Foreign, tokens: string -> nat, maxTokens: int, items: seq<Item>,
                         a: seq<seq<Item>>, b: seq<seq<Item>>)
    requires a != [] && b != []
    requires GreedyPartition(f, tokens, maxTokens, items, a)
    requires GreedyPartition(f, tokens, maxTokens, items, b)
    ensures a[0] == b[0]
  {
    GreedyTail(f, tokens, maxTokens, items, a);
    GreedyTail(f, tokens, maxTokens, items, b);
    GreedyHeadNotShorter(f, tokens, maxTokens, items, a, b);
    GreedyHeadNotShorter(f, tokens, maxTokens, items, b, a);
  }

  /** There is exactly one greedy partition of a list of items. */
  lemma {:induction false} GreedyPartitionUnique(f: Foreign, tokens: string -> nat, maxTokens: int,
                                                 items: seq<Item>, a: seq<seq<Item>>, b: seq<seq<Item>>)
    requires GreedyPartition(f, tokens, maxTokens, items, a)
    requires GreedyPartition(f, tokens, maxTokens, items, b)
    ensures a == b
    decreases |items|
  {
    if a == [] || b == [] {
      if a != [] { FlattenCons(a); }
      if b != [] { FlattenCons(b); }
    } else {
      GreedyHeadsAgree(f, tokens, maxTokens, items, a, b);
      GreedyTail(f, tokens, maxTokens, items, a);
      GreedyTail(f, tokens, maxTokens, items, b);
      GreedyPartitionUnique(f, tokens, maxTokens, items[|a[0]|..], a[1..], b[1..]);
      assert a == [a[0]] + a[1..];
      assert b == [b[0]] + b[1..];
    }
  }

  /** Items that fit the limit together form a single chunk. */
  lemma SmallInputIsOneChunk(f: Foreign, tokens: string -> nat, maxTokens: int,
                             items: seq<Item>, chunks: seq<seq<Item>>)
    requires items != [] && Tokens(f, tokens, items) <= maxTokens
    requires GreedyPartition(f, tokens, maxTokens, items, chunks)
    ensures chunks == [items]
  {
    assert Flatten([items]) == items by {
      assert [items][..0] == [];
    }
    GreedyPartitionUnique(f, tokens, maxTokens, items, chunks, [items]);
  }

  // ------------------------------------------------------------ chunk file names

  /** The file name of chunk `i` of several: `{stem}_chunk{i}{suffix or '.txt'}`. */
  function ChunkName(name: string, i: nat): string {
    Stem(name) + "_chunk" + Decimal(i) + (if Suffix(name) == "" then ".txt" else Suffix(name))
  }

  /** The file names `write_chunks` uses, in the same directory as the base path: the base name
      itself for one chunk, numbered names from 1 otherwise. */
  function ChunkNames(name: string, count: nat): (r: seq<string>)
    ensures |r| == count
    ensures count == 1 ==> r == [name]
    ensures count != 1 ==> forall i :: 0 <= i < count ==> r[i] == ChunkName(name, i + 1)
  {
    if count == 1 then [name] else seq(count, i requires 0 <= i < count => ChunkName(name, i + 1))
  }

  /** The names of several chunks are pairwise different, and a single chunk keeps the base
      name: no chunk file overwrites another. */
  lemma ChunkNamesUnique(name: string, count: nat)
    ensures |ChunkNames(name, count)| == count
    ensures count == 1 ==> ChunkNames(name, count) == [name]
    ensures forall i, j :: 0 <= i < j < count ==> ChunkNames(name, count)[i] != ChunkNames(name, count)[j]
  {
    var r := ChunkNames(name, count);
    forall i, j | 0 <= i < j < count ensures r[i] != r[j] {
      if count != 1 && r[i] == r[j] {
        ChunkNamesDistinct(name, i + 1, j + 1);
      }
    }
  }

  /** Equal strings with a common prefix and suffix have equal middles. */
  lemma MiddleUnique(a: string, m: string, m': string, b: string, b': string)
    requires a + m + b == a + m' + b'
    requires |b| == |b'|
    ensures m == m'
  {
    var s := a + m + b;
    assert m == s[|a|..|s| - |b|];
    assert m' == (a + m' + b')[|a|..|s| - |b'|];
  }

  /** Different chunk numbers give different file names: no chunk overwrites another. */
  lemma ChunkNamesDistinct(name: string, i: nat, j: nat)
    requires ChunkName(name, i) == ChunkName(name, j)
    ensures i == j
  {
    var ext := if Suffix(name) == "" then ".txt" else Suffix(name);
    assert ChunkName(name, i) == (Stem(name) + "_chunk") + Decimal(i) + ext;
    assert ChunkName(name, j) == (Stem(name) + "_chunk") + Decimal(j) + ext;
    MiddleUnique(Stem(name) + "_chunk", Decimal(i), Decimal(j), ext, ext);
    DecimalInjective(i, j);
  }

  /** A numbered name keeps the stem and the extension (`.txt` when the base has none). */
  lemma ChunkNameShape(name: string, i: nat)
    ensures StartsWith(ChunkName(name, i), Stem(name) + "_chunk")
    ensures var ext := if Suffix(name) == "" then ".txt" else Suffix(name);
      var r := ChunkName(name, i); |ext| <= |r| && r[|r| - |ext|..] == ext
  {
    var ext := if Suffix(name) == "" then ".txt" else Suffix(name);
    ConcatEnds(Stem(name) + "_chunk", Decimal(i), ext);
  }

  // ------------------------------------------------------------ --last

  /** `items[-n:]` when `--last n` is given and positive; the whole list otherwise. */
  function LastN<T>(items: seq<T>, last: Option<int>): (r: seq<T>)
    ensures last.Some? && last.value > 0 ==> |r| == (if last.value < |items| then last.value else |items|)
    ensures !(last.Some? && last.value > 0) ==> r == items
    ensures |r| <= |items| && r == items[|items| - |r|..]
  {
    if last.Some? && last.value > 0 then
      (if last.value < |items| then items[|items| - last.value..] else items)
    else items
  }
}
