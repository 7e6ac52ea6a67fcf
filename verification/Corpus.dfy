/** The two corpus tables and their content-guarded embedding writes. */
module Corpus {
  import opened Wrappers

  const EMBEDDING_DIM := 1024
  // The width of the chunk_index column.
  const MAX_INT32 := 0x7FFF_FFFF

  type Embedding = seq<real>

  datatype Key = Key(source: string, externalId: string, chunkIndex: int)

  datatype Row = Row(content: string, embedding: Option<Embedding>)

  // A dropped staging table is the empty map: nothing matches in either.
  type Table = map<Key, Row>

  datatype Chunk = Chunk(staging: bool, key: Key, content: string, embedding: Embedding)

  predicate Fits(c: Chunk) {
    c.key.chunkIndex <= MAX_INT32
  }

  predicate Matches(t: Table, c: Chunk) {
    c.key in t && t[c.key].content == c.content
  }

  function Put(t: Table, c: Chunk): Table {
    if Matches(t, c) then t[c.key := t[c.key].(embedding := Some(c.embedding))] else t
  }

  function PutAll(t: Table, cs: seq<Chunk>): Table {
    if cs == [] then t else Put(PutAll(t, cs[..|cs| - 1]), cs[|cs| - 1])
  }

  // The single UPDATE ... FROM: a row takes the vector of some chunk that matches it.
  ghost predicate BulkWritten(t: Table, cs: seq<Chunk>, t': Table) {
    && t'.Keys == t.Keys
    && forall k :: k in t ==>
      && t'[k].content == t[k].content
      && if exists i :: Hits(t, cs, k, i) then exists i :: Hits(t, cs, k, i) && t'[k].embedding == Some(cs[i].embedding)
         else t'[k] == t[k]
  }

  ghost predicate Hits(t: Table, cs: seq<Chunk>, k: Key, i: int)
    requires k in t
  {
    0 <= i < |cs| && cs[i].key == k && cs[i].content == t[k].content
  }

  // Every vector is the embedding of the text it is written for.
  ghost predicate Pointwise(f: string -> Option<Embedding>, cs: seq<Chunk>) {
    forall i :: 0 <= i < |cs| ==> f(cs[i].content) == Some(cs[i].embedding)
  }

  lemma {:induction false} PutAllShape(t: Table, cs: seq<Chunk>)
    ensures PutAll(t, cs).Keys == t.Keys
    ensures forall k :: k in t ==> PutAll(t, cs)[k].content == t[k].content
  {
    if cs != [] { PutAllShape(t, cs[..|cs| - 1]); }
  }

  /** Writing the chunks one by one is one of the outcomes the bulk statement may have. */
  lemma {:induction false} PutAllIsBulk(t: Table, cs: seq<Chunk>)
    ensures BulkWritten(t, cs, PutAll(t, cs))
  {
    PutAllShape(t, cs);
    if cs != [] {
      var n := |cs| - 1;
      var before, after := PutAll(t, cs[..n]), PutAll(t, cs);
      PutAllIsBulk(t, cs[..n]);
      PutAllShape(t, cs[..n]);
      forall k | k in t
        ensures if exists i :: Hits(t, cs, k, i)
                then exists i :: Hits(t, cs, k, i) && after[k].embedding == Some(cs[i].embedding)
                else after[k] == t[k]
      {
        forall i | Hits(t, cs[..n], k, i) ensures Hits(t, cs, k, i) {}
        if Hits(t, cs, k, n) {
          assert after[k].embedding == Some(cs[n].embedding);
        } else {
          assert after[k] == before[k];
          if i :| Hits(t, cs, k, i) {
            assert Hits(t, cs[..n], k, i);
            var j :| Hits(t, cs[..n], k, j) && before[k].embedding == Some(cs[..n][j].embedding);
            assert Hits(t, cs, k, j);
          }
        }
      }
    }
  }

  /** With embeddings that depend only on the text, the bulk statement has one outcome:
      the sequential one, whatever order the database picks. */
  lemma BulkIsPutAll(f: string -> Option<Embedding>, t: Table, cs: seq<Chunk>, t': Table)
    requires Pointwise(f, cs) && BulkWritten(t, cs, t')
    ensures t' == PutAll(t, cs)
  {
    PutAllIsBulk(t, cs);
    var p := PutAll(t, cs);
    forall k | k in t ensures t'[k] == p[k] {
      if exists i :: Hits(t, cs, k, i) {
        var i :| Hits(t, cs, k, i) && t'[k].embedding == Some(cs[i].embedding);
        var j :| Hits(t, cs, k, j) && p[k].embedding == Some(cs[j].embedding);
        assert cs[i].content == cs[j].content;
      }
    }
  }

  /** Redelivery is harmless: writing a batch again changes nothing. */
  lemma BulkWriteIsIdempotent(f: string -> Option<Embedding>, t: Table, cs: seq<Chunk>, t': Table, t'': Table)
    requires Pointwise(f, cs) && BulkWritten(t, cs, t') && BulkWritten(t', cs, t'')
    ensures t'' == t'
  {
    forall k | k in t ensures t''[k] == t'[k] {
      forall i | Hits(t', cs, k, i) ensures Hits(t, cs, k, i) {}
      if i :| Hits(t, cs, k, i) {
        assert Hits(t', cs, k, i);
        var j :| Hits(t, cs, k, j) && t'[k].embedding == Some(cs[j].embedding);
        var l :| Hits(t', cs, k, l) && t''[k].embedding == Some(cs[l].embedding);
        assert cs[j].content == cs[l].content;
      }
    }
  }

  /** After the statement no row with a chunk's text lacks a vector: the row is gone,
      carries other text, or has one. */
  lemma WrittenChunksLand(t: Table, cs: seq<Chunk>, t': Table, i: nat)
    requires BulkWritten(t, cs, t') && i < |cs| && Matches(t', cs[i])
    ensures t'[cs[i].key].embedding.Some?
  {
    assert Hits(t, cs, cs[i].key, i);
  }

  // The vectors computed so far, each with the text it was computed from.
  type Given = set<(string, Embedding)>

  // No vector sits on text it was not computed from.
  ghost predicate Honest(given: Given, t: Table) {
    forall k :: k in t && t[k].embedding.Some? ==> (t[k].content, t[k].embedding.value) in given
  }

  ghost predicate AllGiven(given: Given, cs: seq<Chunk>) {
    forall c :: c in cs ==> (c.content, c.embedding) in given
  }

  /** The content guard keeps every vector with the text it was computed from. */
  lemma BulkWriteKeepsHonest(given: Given, t: Table, cs: seq<Chunk>, t': Table)
    requires Honest(given, t) && AllGiven(given, cs) && BulkWritten(t, cs, t')
    ensures Honest(given, t')
  {
    forall k | k in t' && t'[k].embedding.Some? ensures (t'[k].content, t'[k].embedding.value) in given {
      if exists i :: Hits(t, cs, k, i) {
        var i :| Hits(t, cs, k, i) && t'[k].embedding == Some(cs[i].embedding);
        assert cs[i] in cs;
      }
    }
  }

  // The crawl worker's upsert of a whole row.
  function UpsertedWhole(t: Table, c: Chunk): Table {
    t[c.key := Row(c.content, Some(c.embedding))]
  }

  // The delta sync's UPDATE by key alone.
  function WrittenByKey(t: Table, key: Key, vec: Embedding): Table {
    if key in t then t[key := t[key].(embedding := Some(vec))] else t
  }

  /** Without the content guard honesty survives exactly while the row still carries a
      text the vector was computed from. */
  lemma WriteByKeyKeepsHonestIff(given: Given, t: Table, key: Key, vec: Embedding)
    requires Honest(given, t)
    ensures Honest(given, WrittenByKey(t, key, vec)) <==> (key in t ==> (t[key].content, vec) in given)
  {
    if Honest(given, WrittenByKey(t, key, vec)) && key in t {
      var t' := WrittenByKey(t, key, vec);
      assert key in t' && t'[key].embedding.Some?;
    }
  }
}
