/** Keyset pagination over the embedded corpus, and writing scores back in groups. */
module Paging {
  import opened Wrappers

  const MAX_INT32 := 0x7FFF_FFFF

  datatype Cursor = Cursor(source: string, externalId: string, chunkIndex: int)

  datatype Row = Row(key: Cursor, embedding: seq<real>)

  // The zero value, meant to sort before every row.
  const START := Cursor("", "", 0)

  // The database's collation.
  type Collation = (string, string) -> bool

  ghost predicate StrictTotal(lt: Collation) {
    && (forall a :: !lt(a, a))
    && (forall a, b, c :: lt(a, b) && lt(b, c) ==> lt(a, c))
    && (forall a, b :: a == b || lt(a, b) || lt(b, a))
  }

  // (source, external_id, chunk_index) order.
  predicate Before(lt: Collation, a: Cursor, b: Cursor) {
    lt(a.source, b.source)
    || (a.source == b.source && (lt(a.externalId, b.externalId)
        || (a.externalId == b.externalId && a.chunkIndex < b.chunkIndex)))
  }

  lemma BeforeIsTransitive(lt: Collation, a: Cursor, b: Cursor, c: Cursor)
    requires StrictTotal(lt) && Before(lt, a, b) && Before(lt, b, c)
    ensures Before(lt, a, c) && !Before(lt, c, a)
  {
  }

  // The table in key order; keys are unique.
  ghost predicate Ordered(lt: Collation, rows: seq<Row>) {
    forall i, j :: 0 <= i < j < |rows| ==> Before(lt, rows[i].key, rows[j].key)
  }

  // The rows strictly after the cursor.
  function After(lt: Collation, rows: seq<Row>, cur: Cursor): (r: seq<Row>)
    ensures |r| <= |rows|
  {
    if rows == [] then []
    else (if Before(lt, cur, rows[0].key) then [rows[0]] else []) + After(lt, rows[1..], cur)
  }

  function Take(rows: seq<Row>, limit: nat): seq<Row> {
    if |rows| <= limit then rows else rows[..limit]
  }

  class Store {
    const lt: Collation
    // The embedded rows of the clustered sources, in key order.
    const rows: seq<Row>
    ghost var written: seq<seq<Row>>

    ghost predicate Valid() {
      StrictTotal(lt) && Ordered(lt, rows)
    }

    /** At most `limit` rows after the cursor. The query may fail. */
    method EmbeddedChunks(cur: Cursor, limit: int) returns (r: Option<seq<Row>>)
      ensures r.Some? ==> 1 <= limit <= MAX_INT32 && r.value == Take(After(lt, rows, cur), limit)
    {
      if limit < 1 || limit > MAX_INT32 { return None; }
      var fails: bool := *;
      if fails { return None; }
      return Some(Take(After(lt, rows, cur), limit));
    }

    /** Writes one group. */
    method SetChunkClustering(group: seq<Row>) returns (ok: bool)
      modifies this
      ensures written == if ok then old(written) + [group] else old(written)
    {
      ok := *;
      if ok { written := written + [group]; }
    }
  }

  // ---------- The rows after a cursor ----------

  lemma {:induction false} AfterKeepsAll(lt: Collation, rows: seq<Row>, cur: Cursor)
    requires forall i :: 0 <= i < |rows| ==> Before(lt, cur, rows[i].key)
    ensures After(lt, rows, cur) == rows
  {
    if rows != [] { AfterKeepsAll(lt, rows[1..], cur); }
  }

  lemma {:induction false} AfterKeepsNone(lt: Collation, rows: seq<Row>, cur: Cursor)
    requires forall i :: 0 <= i < |rows| ==> !Before(lt, cur, rows[i].key)
    ensures After(lt, rows, cur) == []
  {
    if rows != [] { AfterKeepsNone(lt, rows[1..], cur); }
  }

  lemma {:induction false} AfterConcat(lt: Collation, a: seq<Row>, b: seq<Row>, cur: Cursor)
    ensures After(lt, a + b, cur) == After(lt, a, cur) + After(lt, b, cur)
  {
    if a == [] {
      assert a + b == b;
    } else {
      assert (a + b)[1..] == a[1..] + b;
      AfterConcat(lt, a[1..], b, cur);
    }
  }

  lemma NotBeforeItself(lt: Collation, a: Cursor, b: Cursor)
    requires StrictTotal(lt) && (a == b || Before(lt, a, b))
    ensures !Before(lt, b, a)
  {
  }

  /** In an ordered table, the rows after the last key of a prefix are the rest. */
  lemma AfterPrefix(lt: Collation, rows: seq<Row>, n: nat)
    requires StrictTotal(lt) && Ordered(lt, rows) && 0 < n <= |rows|
    ensures After(lt, rows, rows[n - 1].key) == rows[n..]
  {
    hide After, Before, StrictTotal;
    var cur := rows[n - 1].key;
    assert rows == rows[..n] + rows[n..];
    AfterConcat(lt, rows[..n], rows[n..], cur);
    forall i | 0 <= i < n ensures !Before(lt, cur, rows[..n][i].key) { NotBeforeItself(lt, rows[i].key, cur); }
    AfterKeepsNone(lt, rows[..n], cur);
    AfterKeepsAll(lt, rows[n..], cur);
  }

  // The table without the rows at or below the start cursor.
  lemma {:induction false} AfterIsSuffix(lt: Collation, rows: seq<Row>, cur: Cursor)
    requires StrictTotal(lt) && Ordered(lt, rows)
    ensures After(lt, rows, cur) == rows[|rows| - |After(lt, rows, cur)|..]
  {
    if rows != [] {
      if Before(lt, cur, rows[0].key) {
        forall i | 0 <= i < |rows| ensures Before(lt, cur, rows[i].key) {
          if i > 0 { BeforeIsTransitive(lt, cur, rows[0].key, rows[i].key); }
        }
        AfterKeepsAll(lt, rows, cur);
      } else {
        AfterIsSuffix(lt, rows[1..], cur);
      }
    }
  }

  lemma {:induction false} AfterMembers(lt: Collation, rows: seq<Row>, cur: Cursor)
    ensures forall r :: r in After(lt, rows, cur) <==> r in rows && Before(lt, cur, r.key)
  {
    if rows != [] {
      AfterMembers(lt, rows[1..], cur);
      assert rows == [rows[0]] + rows[1..];
    }
  }

  // A row after the start: by source, then external id, then a chunk index above zero.
  predicate Started(lt: Collation, key: Cursor) {
    || lt("", key.source)
    || (key.source == "" && lt("", key.externalId))
    || (key.source == "" && key.externalId == "" && key.chunkIndex > 0)
  }

  /** Paging from the start cursor misses nothing exactly when every row sorts after it. */
  lemma {:induction false} StartIsBelowAllIff(lt: Collation, rows: seq<Row>)
    ensures After(lt, rows, START) == rows <==> forall i :: 0 <= i < |rows| ==> Started(lt, rows[i].key)
  {
    assert forall i :: 0 <= i < |rows| ==> (Started(lt, rows[i].key) <==> Before(lt, START, rows[i].key));
    AfterMembers(lt, rows, START);
    if After(lt, rows, START) == rows {
      forall i | 0 <= i < |rows| ensures Before(lt, START, rows[i].key) { assert rows[i] in rows; }
    } else if forall i :: 0 <= i < |rows| ==> Before(lt, START, rows[i].key) {
      AfterKeepsAll(lt, rows, START);
    }
  }

  /** Pages through the corpus. Against an unchanging table it ends, having read every
      row after the start cursor exactly once, in order; an impossible batch size is an
      error, not a loop. */
  method ReadEmbedded(store: Store, batch: int) returns (r: Option<seq<Row>>)
    requires store.Valid()
    ensures r.Some? ==> 1 <= batch <= MAX_INT32 && r.value == After(store.lt, store.rows, START)
  {
    var all: seq<Row>, cur := [], START;
    ghost var rest := After(store.lt, store.rows, START);
    while true
      invariant After(store.lt, store.rows, cur) == rest
      invariant all + rest == After(store.lt, store.rows, START)
      decreases |rest|
    {
      var page := store.EmbeddedChunks(cur, batch);
      if page == None { return None; }
      if |page.value| == 0 { break; }
      all := all + page.value;
      PageAdvances(store.lt, store.rows, cur, |page.value|);
      cur := page.value[|page.value| - 1].key;
      rest := rest[|page.value|..];
      if |page.value| < batch { break; }
    }
    return Some(all);
  }

  lemma PageAdvances(lt: Collation, rows: seq<Row>, cur: Cursor, n: nat)
    requires StrictTotal(lt) && Ordered(lt, rows) && 0 < n <= |After(lt, rows, cur)|
    ensures var rest := After(lt, rows, cur); After(lt, rows, rest[n - 1].key) == rest[n..]
  {
    AfterIsSuffix(lt, rows, cur);
    var rest := After(lt, rows, cur);
    AfterPrefix(lt, rows, |rows| - |rest| + n);
  }

  // ---------- Writing back ----------

  function Flat(groups: seq<seq<Row>>): seq<Row> {
    if groups == [] then [] else Flat(groups[..|groups| - 1]) + groups[|groups| - 1]
  }

  lemma FlatSnoc(groups: seq<seq<Row>>, g: seq<Row>)
    ensures Flat(groups + [g]) == Flat(groups) + g
  {
    assert (groups + [g])[..|groups|] == groups;
  }

  // Groups of at most `batch`, all but the last of exactly that many.
  ghost predicate Grouped(groups: seq<seq<Row>>, batch: int) {
    && (forall i :: 0 <= i < |groups| ==> 1 <= |groups[i]| <= batch)
    && (forall i :: 0 <= i < |groups| - 1 ==> |groups[i]| == batch)
  }

  lemma GroupedSnoc(groups: seq<seq<Row>>, g: seq<Row>, batch: int)
    requires Grouped(groups, batch) && (groups != [] ==> |groups[|groups| - 1]| == batch) && 1 <= |g| <= batch
    ensures Grouped(groups + [g], batch)
  {
  }

  lemma OneGroupMore(groups: seq<seq<Row>>, scored: seq<Row>, start: nat, end: nat, batch: int)
    requires start < end <= |scored| && end - start <= batch && Flat(groups) == scored[..start]
    requires Grouped(groups, batch) && (groups != [] ==> |groups[|groups| - 1]| == batch)
    ensures Grouped(groups + [scored[start..end]], batch) && Flat(groups + [scored[start..end]]) == scored[..end]
  {
    FlatSnoc(groups, scored[start..end]);
    GroupedSnoc(groups, scored[start..end], batch);
    assert scored[..end] == scored[..start] + scored[start..end];
  }

  lemma NewGroups(before: seq<seq<Row>>, groups: seq<seq<Row>>)
    ensures (before + groups)[|before|..] == groups && before <= before + groups
  {
  }

  lemma NoGroups(batch: int)
    ensures Grouped([], batch) && Flat([]) == []
  {
  }

  /** Writes the rows once each, in order, in groups of `batch` and a last one of what is
      left; after a failure the groups before it stand. */
  method WriteClustering(store: Store, scored: seq<Row>, batch: int) returns (ok: bool)
    requires scored == [] || batch >= 1
    modifies store
    ensures old(store.written) <= store.written
    ensures var groups := store.written[|old(store.written)|..];
            Grouped(groups, batch) && Flat(groups) <= scored && (ok ==> Flat(groups) == scored)
  {
    hide Grouped, Flat;
    NoGroups(batch);
    var start := 0;
    ghost var groups: seq<seq<Row>> := [];
    while start < |scored|
      invariant 0 <= start && store.written == old(store.written) + groups && Grouped(groups, batch)
      invariant start < |scored| && groups != [] ==> |groups[|groups| - 1]| == batch
      invariant Flat(groups) == scored[..if start < |scored| then start else |scored|]
      decreases |scored| - start
    {
      var end := if start + batch < |scored| then start + batch else |scored|;
      var group := scored[start..end];
      ok := store.SetChunkClustering(group);
      if !ok {
        NewGroups(old(store.written), groups);
        return false;
      }
      OneGroupMore(groups, scored, start, end, batch);
      groups := groups + [group];
      start := start + batch;
    }
    NewGroups(old(store.written), groups);
    return true;
  }
}
