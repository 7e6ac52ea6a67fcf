/** The write-through embedding cache: text normalization, its keys, the cache itself
    and the embedder that serves hits from it and fills misses. */
module Cache {
  import opened Wrappers

  // ---------- Normalized text ----------

  // The characters with Unicode's White_Space property.
  predicate IsSpace(c: char) {
    || '\t' <= c <= '\r' || c == ' ' || c == '\U{0085}' || c == '\U{00A0}' || c == '\U{1680}'
    || '\U{2000}' <= c <= '\U{200A}' || c == '\U{2028}' || c == '\U{2029}' || c == '\U{202F}'
    || c == '\U{205F}' || c == '\U{3000}'
  }

  predicate IsWord(w: string) {
    w != "" && forall i :: 0 <= i < |w| ==> !IsSpace(w[i])
  }

  predicate AreWords(ws: seq<string>) {
    forall i :: 0 <= i < |ws| ==> IsWord(ws[i])
  }

  // The words of s after the unfinished word w.
  function FieldsFrom(w: string, s: string): (ws: seq<string>)
    requires w == "" || IsWord(w)
    ensures AreWords(ws)
    decreases |s|
  {
    if s == "" then if w == "" then [] else [w]
    else if IsSpace(s[0]) then (if w == "" then [] else [w]) + FieldsFrom("", s[1..])
    else FieldsFrom(w + [s[0]], s[1..])
  }

  function Fields(s: string): (ws: seq<string>)
    ensures AreWords(ws)
  {
    FieldsFrom("", s)
  }

  function Join(ws: seq<string>): string {
    if ws == [] then "" else if |ws| == 1 then ws[0] else ws[0] + " " + Join(ws[1..])
  }

  function NormalizeText(s: string): string {
    Join(Fields(s))
  }

  lemma {:induction false} WordPrefix(w: string, v: string, s: string)
    requires (w == "" || IsWord(w)) && (v == "" || IsWord(v))
    ensures w + v == "" || IsWord(w + v)
    ensures FieldsFrom(w, v + s) == FieldsFrom(w + v, s)
    decreases |v|
  {
    if v == "" {
      assert v + s == s && w + v == w;
    } else {
      assert (v + s)[1..] == v[1..] + s;
      assert w + [v[0]] + v[1..] == w + v;
      WordPrefix(w + [v[0]], v[1..], s);
    }
  }

  /** Joined words split into the same words again. */
  lemma {:induction false} FieldsOfJoin(ws: seq<string>)
    requires AreWords(ws)
    ensures Fields(Join(ws)) == ws
  {
    if |ws| == 1 {
      WordPrefix("", ws[0], "");
      assert ws[0] + "" == ws[0] && "" + ws[0] == ws[0];
      assert FieldsFrom(ws[0], "") == [ws[0]];
    } else if ws != [] {
      var rest := Join(ws[1..]);
      assert Join(ws) == ws[0] + (" " + rest);
      WordPrefix("", ws[0], " " + rest);
      assert "" + ws[0] == ws[0] && (" " + rest)[1..] == rest;
      assert FieldsFrom(ws[0], " " + rest) == [ws[0]] + FieldsFrom("", rest);
      FieldsOfJoin(ws[1..]);
      assert ws == [ws[0]] + ws[1..];
    }
  }

  /** Two texts share a normal form exactly when they have the same words, and
      normalizing again changes nothing. */
  lemma SameNormalFormIffSameWords(s: string, t: string)
    ensures NormalizeText(s) == NormalizeText(t) <==> Fields(s) == Fields(t)
    ensures NormalizeText(NormalizeText(s)) == NormalizeText(s)
  {
    FieldsOfJoin(Fields(s));
    FieldsOfJoin(Fields(t));
  }

  // ---------- What the words of a text are ----------

  // A stretch of a text, from its first character up to the one after its last.
  datatype Span = Span(from: nat, to: nat)

  // The spans cover exactly the characters that are no white space, and between any two of
  // them there is some: they are the longest stretches without, in order, and hold ws.
  ghost predicate AreRuns(s: string, spans: seq<Span>, ws: seq<string>) {
    Hold(s, spans, ws) && Apart(spans) && forall k :: 0 <= k < |s| ==> (!IsSpace(s[k]) <==> Covered(spans, k))
  }

  ghost predicate Hold(s: string, spans: seq<Span>, ws: seq<string>) {
    |spans| == |ws| &&
    forall i :: 0 <= i < |spans| ==> spans[i].from < spans[i].to <= |s| && ws[i] == s[spans[i].from..spans[i].to]
  }

  ghost predicate Apart(spans: seq<Span>) {
    forall i, j :: 0 <= i < j < |spans| ==> spans[i].to < spans[j].from
  }

  ghost predicate Covered(spans: seq<Span>, k: int) {
    exists i :: 0 <= i < |spans| && spans[i].from <= k < spans[i].to
  }

  function Shifted(spans: seq<Span>, n: nat): seq<Span> {
    seq(|spans|, i requires 0 <= i < |spans| => Span(spans[i].from + n, spans[i].to + n))
  }

  lemma ShiftedCovers(spans: seq<Span>, n: nat, k: int)
    ensures Covered(Shifted(spans, n), k) <==> Covered(spans, k - n)
  {
    var r := Shifted(spans, n);
    if i :| 0 <= i < |r| && r[i].from <= k < r[i].to { assert spans[i].from <= k - n < spans[i].to; }
    if i :| 0 <= i < |spans| && spans[i].from <= k - n < spans[i].to { assert r[i].from <= k < r[i].to; }
  }

  // Runs of what follows a white space.
  lemma RunsLater(p: string, s: string, spans: seq<Span>, ws: seq<string>)
    requires AreRuns(s, spans, ws) && forall k :: 0 <= k < |p| ==> IsSpace(p[k])
    ensures AreRuns(p + s, Shifted(spans, |p|), ws)
  {
    var r, all := Shifted(spans, |p|), p + s;
    forall i | 0 <= i < |r| ensures ws[i] == all[r[i].from..r[i].to] {}
    forall k | 0 <= k < |all| ensures !IsSpace(all[k]) <==> Covered(r, k) { ShiftedCovers(spans, |p|, k); }
  }

  // A word in front of runs that do not begin at once.
  lemma RunsAfterWord(w: string, s: string, spans: seq<Span>, ws: seq<string>)
    requires IsWord(w) && AreRuns(s, spans, ws) && forall i :: 0 <= i < |spans| ==> spans[i].from > 0
    ensures AreRuns(w + s, [Span(0, |w|)] + Shifted(spans, |w|), [w] + ws)
  {
    var r, all := [Span(0, |w|)] + Shifted(spans, |w|), w + s;
    HoldAfterWord(w, s, spans, ws);
    forall k | 0 <= k < |all| ensures !IsSpace(all[k]) <==> Covered(r, k) { WordCovers(w, spans, k); }
    hide Covered, Hold;
  }

  lemma HoldAfterWord(w: string, s: string, spans: seq<Span>, ws: seq<string>)
    requires IsWord(w) && Hold(s, spans, ws)
    ensures Hold(w + s, [Span(0, |w|)] + Shifted(spans, |w|), [w] + ws)
  {
    var later, all := Shifted(spans, |w|), w + s;
    assert w == all[0..|w|];
    forall i | 0 <= i < |later| ensures ws[i] == all[later[i].from..later[i].to] {
      assert ws[i] == s[spans[i].from..spans[i].to];
    }
  }

  lemma WordCovers(w: string, spans: seq<Span>, k: int)
    ensures Covered([Span(0, |w|)] + Shifted(spans, |w|), k) <==> 0 <= k < |w| || Covered(spans, k - |w|)
  {
    var later := Shifted(spans, |w|);
    var r := [Span(0, |w|)] + later;
    ShiftedCovers(spans, |w|, k);
    assert r[0] == Span(0, |w|);
    if i :| 0 <= i < |later| && later[i].from <= k < later[i].to { assert r[i + 1] == later[i]; }
  }

  lemma WordIsRun(w: string)
    requires IsWord(w)
    ensures AreRuns(w, [Span(0, |w|)], [w])
  {
    var spans := [Span(0, |w|)];
    assert w[0..|w|] == w;
    forall k | 0 <= k < |w| ensures Covered(spans, k) { assert spans[0].from <= k < spans[0].to; }
  }

  lemma ShiftedLater(spans: seq<Span>)
    ensures forall i :: 0 <= i < |spans| ==> Shifted(spans, 1)[i].from > 0
  {
  }

  lemma {:induction false} FromIsRuns(w: string, s: string) returns (spans: seq<Span>)
    requires w == "" || IsWord(w)
    ensures AreRuns(w + s, spans, FieldsFrom(w, s))
    decreases |s|
  {
    if s == "" {
      assert w + s == w;
      spans := if w == "" then [] else [Span(0, |w|)];
      if w != "" { WordIsRun(w); }
    } else {
      hide AreRuns, Shifted;
      var c, rest := s[0], s[1..];
      assert [c] + rest == s;
      if IsSpace(c) {
        var later := FromIsRuns("", rest);
        assert "" + rest == rest;
        RunsLater([c], rest, later, FieldsFrom("", rest));
        ShiftedLater(later);
        spans := Shifted(later, 1);
        if w == "" {
          assert w + s == s && [] + FieldsFrom("", rest) == FieldsFrom("", rest);
        } else {
          RunsAfterWord(w, s, spans, FieldsFrom("", rest));
          spans := [Span(0, |w|)] + Shifted(spans, |w|);
        }
      } else {
        assert w + [c] + rest == w + s;
        spans := FromIsRuns(w + [c], rest);
      }
    }
  }

  lemma FirstUncovered(s: string, a: seq<Span>, ws: seq<string>, b: seq<Span>, vs: seq<string>, i: nat)
    requires AreRuns(s, a, ws) && AreRuns(s, b, vs) && i < |a| && i <= |b| && a[..i] == b[..i]
    ensures i < |b| && b[i].from <= a[i].from
  {
    var k := a[i].from;
    assert Covered(a, k);
    forall j | 0 <= j < i ensures a[j] == b[j] { assert a[..i][j] == b[..i][j]; }
    var j :| 0 <= j < |b| && b[j].from <= k < b[j].to;
  }

  lemma NoLongerRun(s: string, a: seq<Span>, ws: seq<string>, b: seq<Span>, vs: seq<string>, i: nat)
    requires AreRuns(s, a, ws) && AreRuns(s, b, vs) && i < |a| && i < |b| && a[i].from == b[i].from
    ensures b[i].to <= a[i].to
  {
    var k := a[i].to;
    assert !Covered(a, k);
  }

  lemma {:induction false} RunsAreUnique(s: string, a: seq<Span>, ws: seq<string>, b: seq<Span>, vs: seq<string>,
                                         n: nat)
    requires AreRuns(s, a, ws) && AreRuns(s, b, vs) && n <= |a|
    ensures n <= |b| && a[..n] == b[..n]
    decreases n
  {
    if n > 0 {
      var i := n - 1;
      RunsAreUnique(s, a, ws, b, vs, i);
      FirstUncovered(s, a, ws, b, vs, i);
      FirstUncovered(s, b, vs, a, ws, i);
      NoLongerRun(s, a, ws, b, vs, i);
      NoLongerRun(s, b, vs, a, ws, i);
      hide AreRuns;
    }
  }

  ghost predicate WordsOf(s: string, ws: seq<string>) {
    exists spans :: AreRuns(s, spans, ws)
  }

  /** The words of a text are its longest stretches without white space, all of them and in
      order, and nothing else is. */
  lemma FieldsAreRuns(s: string, ws: seq<string>)
    ensures WordsOf(s, ws) <==> ws == Fields(s)
  {
    assert "" + s == s;
    var b := FromIsRuns("", s);
    if a :| AreRuns(s, a, ws) {
      RunsAreUnique(s, a, ws, b, Fields(s), |a|);
      RunsAreUnique(s, b, Fields(s), a, ws, |b|);
      assert a == a[..|a|] && b == b[..|a|];
      forall i | 0 <= i < |ws| ensures ws[i] == Fields(s)[i] { assert a[i] == b[i]; }
    }
  }

  /** Two texts share a normal form, and so a key, exactly when they are made of the same
      stretches without white space. */
  lemma SameNormalFormIff(s: string, t: string)
    ensures NormalizeText(s) == NormalizeText(t) <==> exists ws :: WordsOf(s, ws) && WordsOf(t, ws)
  {
    SameNormalFormIffSameWords(s, t);
    FieldsAreRuns(s, Fields(s));
    hide WordsOf, Fields, NormalizeText;
    forall ws ensures WordsOf(s, ws) <==> ws == Fields(s) { FieldsAreRuns(s, ws); }
    forall ws ensures WordsOf(t, ws) <==> ws == Fields(t) { FieldsAreRuns(t, ws); }
  }

  // The only white space is single blanks between words.
  predicate Tidy(t: string) {
    forall k :: 0 <= k < |t| && IsSpace(t[k]) ==> t[k] == ' ' && 0 < k < |t| - 1 && !IsSpace(t[k + 1])
  }

  lemma {:induction false} JoinIsTidy(ws: seq<string>)
    requires AreWords(ws)
    ensures Tidy(Join(ws)) && (ws != [] ==> Join(ws) != "" && !IsSpace(Join(ws)[0]))
  {
    if |ws| > 1 {
      JoinIsTidy(ws[1..]);
      var w, rest := ws[0], Join(ws[1..]);
      var t := w + " " + rest;
      assert t == Join(ws);
      forall k | 0 <= k < |t| && IsSpace(t[k]) ensures t[k] == ' ' && 0 < k < |t| - 1 && !IsSpace(t[k + 1]) {
        if k > |w| { assert t[k] == rest[k - |w| - 1]; }
      }
    }
  }

  lemma TidyRest(w: string, c: char, rest: string)
    requires IsSpace(c) && Tidy(w + ([c] + rest)) && (w == "" || IsWord(w))
    ensures w != "" && c == ' ' && rest != "" && !IsSpace(rest[0]) && Tidy(rest)
  {
    var t := w + ([c] + rest);
    assert t[|w|] == c && forall k :: 0 <= k < |rest| ==> t[|w| + 1 + k] == rest[k];
    forall k | 0 <= k < |rest| && IsSpace(rest[k])
      ensures rest[k] == ' ' && 0 < k < |rest| - 1 && !IsSpace(rest[k + 1])
    {
      assert IsSpace(t[|w| + 1 + k]);
    }
  }

  lemma {:induction false} TidyIsJoined(w: string, s: string)
    requires (w == "" || IsWord(w)) && Tidy(w + s)
    ensures Join(FieldsFrom(w, s)) == w + s && (w + s != "" ==> FieldsFrom(w, s) != [])
    decreases |s|
  {
    if s != "" {
      var c, rest := s[0], s[1..];
      assert [c] + rest == s;
      if IsSpace(c) {
        TidyRest(w, c, rest);
        assert "" + rest == rest;
        TidyIsJoined("", rest);
        assert ([w] + FieldsFrom("", rest))[1..] == FieldsFrom("", rest);
        assert w + " " + rest == w + s;
      } else {
        assert w + [c] + rest == w + s;
        TidyIsJoined(w + [c], rest);
      }
    } else {
      assert w + s == w;
    }
  }

  /** The texts in normal form are those whose only white space is single blanks between
      words, and every text's normal form is one of them. */
  lemma NormalIffTidy(t: string)
    ensures NormalizeText(t) == t <==> Tidy(t)
    ensures Tidy(NormalizeText(t))
  {
    JoinIsTidy(Fields(t));
    assert "" + t == t;
    if Tidy(t) { TidyIsJoined("", t); }
  }

  // ---------- Keys ----------

  datatype Kind = Document | Query

  function InputType(kind: Kind): string {
    match kind
    case Document => "document"
    case Query => "query"
  }

  const NUL := '\U{0000}'

  // What is hashed.
  function Material(model: string, kind: Kind, text: string): string {
    model + [NUL] + InputType(kind) + [NUL] + NormalizeText(text)
  }

  // The digest is a parameter, required below only not to collide.
  function CacheKey(hash: string -> string, model: string, kind: Kind, text: string): string {
    hash(Material(model, kind, text))
  }

  lemma {:induction false} SplitAtNul(a: string, b: string, x: string, y: string)
    requires NUL !in a && NUL !in b && a + [NUL] + x == b + [NUL] + y
    ensures a == b && x == y
  {
    var l, r := a + [NUL] + x, b + [NUL] + y;
    assert l[|a|] == NUL && r[|b|] == NUL;
    assert forall i :: 0 <= i < |b| ==> r[i] == b[i];
    assert forall i :: 0 <= i < |a| ==> l[i] == a[i];
    assert |a| == |b|;
    assert a == l[..|a|] && b == r[..|b|];
    assert x == l[|a| + 1..] && y == r[|b| + 1..];
  }

  /** Distinct models, input types or normalized texts never share a key's material,
      as long as the model name holds no NUL. */
  lemma MaterialIsInjective(m1: string, k1: Kind, t1: string, m2: string, k2: Kind, t2: string)
    requires NUL !in m1 && NUL !in m2 && Material(m1, k1, t1) == Material(m2, k2, t2)
    ensures m1 == m2 && k1 == k2 && NormalizeText(t1) == NormalizeText(t2)
  {
    hide NormalizeText;
    var x, y := InputType(k1) + [NUL] + NormalizeText(t1), InputType(k2) + [NUL] + NormalizeText(t2);
    assert Material(m1, k1, t1) == m1 + [NUL] + x;
    assert Material(m2, k2, t2) == m2 + [NUL] + y;
    SplitAtNul(m1, m2, x, y);
    SplitAtNul(InputType(k1), InputType(k2), NormalizeText(t1), NormalizeText(t2));
  }

  // What comes before the text.
  function Header(model: string, kind: Kind): string {
    model + [NUL] + InputType(kind) + [NUL]
  }

  // The second header goes on from the first with text in normal form.
  predicate Continues(first: string, second: string) {
    first <= second && NormalizeText(second[|first|..]) == second[|first|..]
  }

  lemma {:induction false} NormalPrefix(ws: seq<string>, p: string) returns (vs: seq<string>)
    requires AreWords(ws) && p != "" && p <= Join(ws) && !IsSpace(p[|p| - 1])
    ensures AreWords(vs) && vs != [] && Join(vs) == p
  {
    var w := ws[0];
    if |p| <= |w| {
      assert forall i :: 0 <= i < |p| ==> p[i] == w[i];
      vs := [p];
    } else {
      var rest := Join(ws[1..]);
      assert Join(ws) == w + " " + rest;
      assert p == w + " " + p[|w| + 1..] && p[|w|] == ' ';
      vs := NormalPrefix(ws[1..], p[|w| + 1..]);
      assert ([w] + vs)[1..] == vs;
      vs := [w] + vs;
    }
  }

  lemma PrefixIsNormal(text: string, p: string)
    requires p <= NormalizeText(text) && (p == "" || !IsSpace(p[|p| - 1]))
    ensures NormalizeText(p) == p
  {
    if p != "" {
      var vs := NormalPrefix(Fields(text), p);
      FieldsOfJoin(vs);
    }
  }

  lemma CollisionContinues(m1: string, k1: Kind, t1: string, m2: string, k2: Kind, t2: string)
    requires Material(m1, k1, t1) == Material(m2, k2, t2) && |Header(m1, k1)| <= |Header(m2, k2)|
    ensures Continues(Header(m1, k1), Header(m2, k2))
  {
    var a, b := Header(m1, k1), Header(m2, k2);
    var x, y := NormalizeText(t1), NormalizeText(t2);
    assert a + x == b + y by {
      assert Material(m1, k1, t1) == a + x && Material(m2, k2, t2) == b + y;
    }
    assert a == (a + x)[..|a|] == (b + y)[..|a|] == b[..|a|];
    var rest := b[|a|..];
    assert x == (a + x)[|a|..] == (b + y)[|a|..] == rest + y;
    assert b[|b| - 1] == NUL;
    hide NormalizeText, Header;
    PrefixIsNormal(t1, rest);
  }

  lemma ContinuationCollides(m1: string, k1: Kind, m2: string, k2: Kind)
    requires Continues(Header(m1, k1), Header(m2, k2))
    ensures Material(m1, k1, Header(m2, k2)[|Header(m1, k1)|..]) == Material(m2, k2, "")
  {
    var a, b := Header(m1, k1), Header(m2, k2);
    assert NormalizeText("") == "";
    assert b == a + b[|a|..] && b + "" == b;
  }

  /** Exactly when some texts share their material under two models and input types. */
  lemma KeysCollideIff(m1: string, k1: Kind, m2: string, k2: Kind)
    ensures (exists t1, t2 :: Material(m1, k1, t1) == Material(m2, k2, t2))
       <==> Continues(Header(m1, k1), Header(m2, k2)) || Continues(Header(m2, k2), Header(m1, k1))
  {
    var a, b := Header(m1, k1), Header(m2, k2);
    if Continues(a, b) { ContinuationCollides(m1, k1, m2, k2); }
    if Continues(b, a) { ContinuationCollides(m2, k2, m1, k1); }
    if t1, t2 :| Material(m1, k1, t1) == Material(m2, k2, t2) {
      if |a| <= |b| { CollisionContinues(m1, k1, t1, m2, k2, t2); } else { CollisionContinues(m2, k2, t2, m1, k1, t1); }
    }
  }

  /** A NUL inside a model name does let two different requests share their material. */
  lemma NulInModelCollides()
    ensures Material("a", Query, "query" + [NUL]) == Material("a" + [NUL] + "query", Query, "")
    ensures Material("a", Document, "document" + [NUL]) == Material("a" + [NUL] + "document", Document, "")
  {
    var w, v := "query" + [NUL], "document" + [NUL];
    assert IsWord(w) && Join([w]) == w && IsWord(v) && Join([v]) == v && NormalizeText("") == "";
    FieldsOfJoin([w]);
    FieldsOfJoin([v]);
  }

  ghost predicate CollisionFree(hash: string -> string) {
    forall x, y :: hash(x) == hash(y) ==> x == y
  }

  // ---------- The cache ----------

  class VectorCache {
    var vectors: map<string, array<real>>
    var dirty: bool

    ghost var Contents: map<string, seq<real>>
    ghost var Repr: set<object>

    ghost predicate Valid() reads this, Repr {
      && this in Repr && Contents.Keys == vectors.Keys
      && forall k :: k in vectors ==> vectors[k] in Repr && Contents[k] == vectors[k][..]
    }

    constructor ()
      ensures Valid() && fresh(Repr) && Contents == map[] && !dirty
    {
      vectors, dirty, Contents, Repr := map[], false, map[], {this};
    }

    /** A copy of the vector, which the caller may change at will. */
    method Get(key: string) returns (v: array?<real>)
      requires Valid()
      ensures v != null <==> key in Contents
      ensures v != null ==> fresh(v) && v[..] == Contents[key]
    {
      if key !in vectors { return null; }
      assert key in Contents.Keys;
      v := Clone(vectors[key]);
    }

    /** Stores a copy, so the caller keeps its own array. */
    method Set(key: string, vec: array<real>)
      requires Valid()
      modifies this
      ensures Valid() && fresh(Repr - old(Repr)) && old(Repr) <= Repr
      ensures Contents == old(Contents)[key := vec[..]] && dirty
    {
      var copy := Clone(vec);
      vectors, dirty := vectors[key := copy], true;
      Contents, Repr := Contents[key := vec[..]], Repr + {copy};
    }
  }

  method Clone(v: array<real>) returns (c: array<real>)
    ensures fresh(c) && c[..] == v[..]
  {
    c := new real[v.Length](i requires 0 <= i < v.Length reads v => v[i]);
  }

  // ---------- The cached embedder ----------

  // The vector a model gives each normalized text.
  type Truth = (string, Kind, string) -> seq<real>

  /** Embeds what the cache lacks. It may fail, or answer with the wrong number of
      vectors; else each depends only on the normalized text. */
  class Filler {
    const truth: Truth
    const model: string
    var calls: nat

    method Embed(kind: Kind, texts: seq<string>) returns (r: Option<seq<array<real>>>)
      modifies this
      ensures calls == old(calls) + 1
      ensures r.Some? ==> forall i :: 0 <= i < |r.value| ==> fresh(r.value[i])
      ensures r.Some? && |r.value| == |texts| ==>
                forall i :: 0 <= i < |texts| ==> r.value[i][..] == truth(model, kind, NormalizeText(texts[i]))
    {
      calls := calls + 1;
      var fails: bool, short: bool := *, *;
      if fails { return None; }
      if short { return Some([]); }
      var vs: seq<array<real>> := [];
      for i := 0 to |texts|
        invariant |vs| == i && calls == old(calls) + 1
        invariant forall j :: 0 <= j < i ==> fresh(vs[j]) && vs[j][..] == truth(model, kind, NormalizeText(texts[j]))
      {
        var t := truth(model, kind, NormalizeText(texts[i]));
        var v := new real[|t|](k requires 0 <= k < |t| => t[k]);
        vs := vs + [v];
      }
      return Some(vs);
    }
  }

  datatype Error = CacheMiss(text: string) | FillerFailed | WrongCount

  // Every cached vector is the one its model gives its text.
  ghost predicate Consistent(hash: string -> string, truth: Truth, contents: map<string, seq<real>>) {
    forall m, k, t :: NUL !in m && CacheKey(hash, m, k, t) in contents ==>
      contents[CacheKey(hash, m, k, t)] == truth(m, k, NormalizeText(t))
  }

  lemma FillKeepsConsistent(hash: string -> string, truth: Truth, contents: map<string, seq<real>>,
                            model: string, kind: Kind, text: string, v: seq<real>)
    requires CollisionFree(hash) && NUL !in model && Consistent(hash, truth, contents)
    requires v == truth(model, kind, NormalizeText(text))
    ensures Consistent(hash, truth, contents[CacheKey(hash, model, kind, text) := v])
  {
    hide Material, NormalizeText;
    var key := CacheKey(hash, model, kind, text);
    forall m, k, t | NUL !in m && CacheKey(hash, m, k, t) == key
      ensures m == model && k == kind && NormalizeText(t) == NormalizeText(text)
    {
      MaterialIsInjective(m, k, t, model, kind, text);
    }
  }

  class Cached {
    const cache: VectorCache
    const hash: string -> string
    const model: string
    // Null for offline use against a complete cache.
    const filler: Filler?
    ghost const truth: Truth

    constructor (cache: VectorCache, hash: string -> string, model: string, filler: Filler?, ghost truth: Truth)
      requires cache.Valid() && CollisionFree(hash) && NUL !in model && Consistent(hash, truth, cache.Contents)
      requires filler != null ==> filler.truth == truth && filler.model == model && filler !in cache.Repr
      ensures this.cache == cache && this.filler == filler && this.hash == hash && this.model == model
        && this.truth == truth
      ensures Valid()
    {
      this.cache, this.hash, this.model, this.filler, this.truth := cache, hash, model, filler, truth;
    }

    ghost predicate Valid() reads this, filler, cache, cache.Repr {
      && cache.Valid() && CollisionFree(hash) && NUL !in model
      && Consistent(hash, truth, cache.Contents)
      && (filler != null ==> filler.truth == truth && filler.model == model && filler !in cache.Repr)
    }

    function Key(kind: Kind, text: string): string {
      CacheKey(hash, model, kind, text)
    }

    ghost predicate AllCached(contents: map<string, seq<real>>, kind: Kind, texts: seq<string>) {
      forall i :: 0 <= i < |texts| ==> Key(kind, texts[i]) in contents
    }

    // The vector the model gives this text.
    ghost predicate Right(v: array?<real>, kind: Kind, text: string) reads v {
      v != null && v[..] == truth(model, kind, NormalizeText(text))
    }

    ghost predicate Misses(contents: map<string, seq<real>>, kind: Kind, texts: seq<string>, missTexts: seq<string>,
                           missPos: seq<nat>) {
      && |missPos| == |missTexts|
      && (forall j :: 0 <= j < |missPos| ==>
            missPos[j] < |texts| && missTexts[j] == texts[missPos[j]] && Key(kind, missTexts[j]) !in contents)
      && (forall j, k :: 0 <= j < k < |missPos| ==> missPos[j] < missPos[k])
      && (forall i :: 0 <= i < |texts| && i !in missPos ==> Key(kind, texts[i]) in contents)
    }

    ghost predicate FirstMiss(contents: map<string, seq<real>>, kind: Kind, texts: seq<string>, text: string) {
      exists i :: 0 <= i < |texts| && texts[i] == text && MissesAt(contents, kind, texts, i)
    }

    ghost predicate MissesAt(contents: map<string, seq<real>>, kind: Kind, texts: seq<string>, i: nat) {
      i < |texts| && Key(kind, texts[i]) !in contents && forall j :: 0 <= j < i ==> Key(kind, texts[j]) in contents
    }

    lemma FirstOfMisses(contents: map<string, seq<real>>, kind: Kind, texts: seq<string>, missTexts: seq<string>,
                        missPos: seq<nat>)
      requires Misses(contents, kind, texts, missTexts, missPos) && missTexts != []
      ensures FirstMiss(contents, kind, texts, missTexts[0])
    {
      var i := missPos[0];
      assert forall k :: 0 <= k < |missPos| ==> missPos[k] >= i;
      assert forall j :: 0 <= j < i ==> j !in missPos;
      assert MissesAt(contents, kind, texts, i);
    }

    lemma MissesSay(contents: map<string, seq<real>>, kind: Kind, texts: seq<string>, missTexts: seq<string>,
                    missPos: seq<nat>)
      requires Misses(contents, kind, texts, missTexts, missPos)
      ensures missTexts == [] <==> AllCached(contents, kind, texts)
      ensures missTexts == [] ==> missPos == []
      ensures |missPos| == |missTexts|
      ensures forall j :: 0 <= j < |missPos| ==> missPos[j] < |texts| && missTexts[j] == texts[missPos[j]]
    {
      if missTexts != [] { assert Key(kind, texts[missPos[0]]) !in contents; }
    }

    lemma MissesSnoc(contents: map<string, seq<real>>, kind: Kind, texts: seq<string>, text: string,
                     missTexts: seq<string>, missPos: seq<nat>)
      requires Misses(contents, kind, texts, missTexts, missPos)
      ensures Key(kind, text) in contents ==> Misses(contents, kind, texts + [text], missTexts, missPos)
      ensures Key(kind, text) !in contents ==>
        Misses(contents, kind, texts + [text], missTexts + [text], missPos + [|texts|])
      ensures |texts| !in missPos
    {
      hide Key;
      forall i | 0 <= i < |texts| ensures (texts + [text])[i] == texts[i] {}
    }

    /** Copies the hits into `out` and lists the misses. */
    method Lookup(kind: Kind, texts: seq<string>)
      returns (out: array<array?<real>>, missTexts: seq<string>, missPos: seq<nat>)
      requires Valid()
      ensures fresh(out) && out.Length == |texts| && Misses(cache.Contents, kind, texts, missTexts, missPos)
      ensures forall i :: 0 <= i < |texts| && i !in missPos ==>
        Right(out[i], kind, texts[i]) && fresh(out[i]) && out[i] !in cache.Repr
    {
      hide NormalizeText, CollisionFree, CacheKey, Key, Right, Consistent, Misses;
      out := new array?<real>[|texts|](_ => null);
      missTexts, missPos := [], [];
      NoMisses(kind);
      for i := 0 to |texts|
        invariant Misses(cache.Contents, kind, texts[..i], missTexts, missPos)
        invariant forall j :: 0 <= j < i && j !in missPos ==>
          Right(out[j], kind, texts[j]) && fresh(out[j]) && out[j] !in cache.Repr
      {
        var vec := cache.Get(Key(kind, texts[i]));
        MissesSnoc(cache.Contents, kind, texts[..i], texts[i], missTexts, missPos);
        assert texts[..i + 1] == texts[..i] + [texts[i]];
        if vec != null {
          HitIsRight(kind, texts[i], vec[..]);
          IsRight(vec, kind, texts[i]);
          out[i] := vec;
        } else {
          missTexts, missPos := missTexts + [texts[i]], missPos + [i];
        }
      }
      assert texts[..|texts|] == texts;
    }

    lemma NoMisses(kind: Kind)
      ensures Misses(cache.Contents, kind, [], [], [])
    {
    }

    lemma HitIsRight(kind: Kind, text: string, v: seq<real>)
      requires Valid() && Key(kind, text) in cache.Contents && v == cache.Contents[Key(kind, text)]
      ensures v == truth(model, kind, NormalizeText(text))
    {
      hide NormalizeText, Material;
    }

    /** Stores copies of the filled vectors and hands the vectors out. */
    method Store(kind: Kind, ghost texts: seq<string>, out: array<array?<real>>, missTexts: seq<string>,
                 missPos: seq<nat>, filled: seq<array<real>>)
      requires Valid() && out.Length == |texts| && Misses(cache.Contents, kind, texts, missTexts, missPos)
      requires |filled| == |missTexts| && forall j :: 0 <= j < |filled| ==> Right(filled[j], kind, missTexts[j])
      modifies cache, out
      ensures Valid() && Filled(old(cache.Contents), cache.Contents, kind, missTexts)
        && fresh(cache.Repr - old(cache.Repr))
      ensures forall j :: 0 <= j < |missPos| ==> out[missPos[j]] == filled[j]
      ensures forall i :: 0 <= i < |texts| && i !in missPos ==> out[i] == old(out[i])
    {
      hide NormalizeText, CollisionFree, CacheKey, Key, Consistent, Right, Filled;
      ghost var before := cache.Contents;
      NoneFilled(before, kind);
      for i := 0 to |missTexts|
        invariant Valid() && Filled(before, cache.Contents, kind, missTexts[..i]) && fresh(cache.Repr - old(cache.Repr))
        invariant forall j :: 0 <= j < |filled| ==> Right(filled[j], kind, missTexts[j])
        invariant forall j :: 0 <= j < i ==> out[missPos[j]] == filled[j]
        invariant forall j :: 0 <= j < |texts| && j !in missPos ==> out[j] == old(out[j])
      {
        StoreOne(before, kind, missTexts, i, filled[i]);
        out[missPos[i]] := filled[i];
      }
      assert missTexts[..|missTexts|] == missTexts;
    }

    lemma AllRight(kind: Kind, texts: seq<string>, out: array<array?<real>>, missTexts: seq<string>, missPos: seq<nat>,
                   filled: seq<array<real>>)
      requires out.Length == |texts| && |missPos| == |missTexts| == |filled|
      requires forall j :: 0 <= j < |missPos| ==>
        missPos[j] < |texts| && missTexts[j] == texts[missPos[j]] && out[missPos[j]] == filled[j]
      requires forall j :: 0 <= j < |filled| ==> Right(filled[j], kind, missTexts[j])
      requires forall i :: 0 <= i < |texts| && i !in missPos ==> Right(out[i], kind, texts[i])
      ensures forall i :: 0 <= i < |texts| ==> Right(out[i], kind, texts[i])
    {
      hide Right;
    }

    lemma IsRight(v: array<real>, kind: Kind, text: string)
      requires v[..] == truth(model, kind, NormalizeText(text))
      ensures Right(v, kind, text)
    {
    }

    method StoreOne(ghost before: map<string, seq<real>>, kind: Kind, missTexts: seq<string>, i: nat, vec: array<real>)
      requires Valid() && i < |missTexts| && Right(vec, kind, missTexts[i])
      requires Filled(before, cache.Contents, kind, missTexts[..i]) && Key(kind, missTexts[i]) !in before
      modifies cache
      ensures Valid() && Filled(before, cache.Contents, kind, missTexts[..i + 1]) && fresh(cache.Repr - old(cache.Repr))
    {
      hide NormalizeText, CollisionFree, CacheKey, Key, Consistent, Filled;
      FillOne(kind, missTexts[i], vec[..]);
      FilledSnoc(before, cache.Contents, kind, missTexts[..i], missTexts[i], vec[..]);
      assert missTexts[..i + 1] == missTexts[..i] + [missTexts[i]];
      cache.Set(Key(kind, missTexts[i]), vec);
    }

    lemma NoneFilled(contents: map<string, seq<real>>, kind: Kind)
      ensures Filled(contents, contents, kind, [])
    {
    }

    lemma FillOne(kind: Kind, text: string, v: seq<real>)
      requires Valid() && v == truth(model, kind, NormalizeText(text))
      ensures Consistent(hash, truth, cache.Contents[Key(kind, text) := v])
    {
      hide NormalizeText, Material, CollisionFree, Consistent;
      FillKeepsConsistent(hash, truth, cache.Contents, model, kind, text, v);
    }

    // The cache gained these texts' keys (none of which it had) and nothing else.
    ghost predicate Filled(before: map<string, seq<real>>, after: map<string, seq<real>>, kind: Kind,
                           texts: seq<string>) {
      && after.Keys == before.Keys + (set i | 0 <= i < |texts| :: Key(kind, texts[i]))
      && forall key :: key in before ==> after[key] == before[key]
    }

    lemma FilledSnoc(before: map<string, seq<real>>, after: map<string, seq<real>>, kind: Kind, texts: seq<string>,
                     text: string, v: seq<real>)
      requires Filled(before, after, kind, texts) && Key(kind, text) !in before
      ensures Filled(before, after[Key(kind, text) := v], kind, texts + [text])
    {
      hide Key;
      var more := texts + [text];
      var grown := after[Key(kind, text) := v];
      assert more[|texts|] == text;
      forall i | 0 <= i < |texts| ensures more[i] == texts[i] {}
      forall key ensures key in grown.Keys <==> key in before.Keys + (set i | 0 <= i < |more| :: Key(kind, more[i])) {
        if key in after.Keys && key !in before.Keys {
          var i :| 0 <= i < |texts| && Key(kind, texts[i]) == key;
          assert Key(kind, more[i]) == key;
        }
      }
    }

    lemma AllFilled(before: map<string, seq<real>>, after: map<string, seq<real>>, kind: Kind, texts: seq<string>,
                    missTexts: seq<string>, missPos: seq<nat>)
      requires Misses(before, kind, texts, missTexts, missPos) && Filled(before, after, kind, missTexts)
      ensures AllCached(after, kind, texts)
      ensures forall key :: key in before ==> key in after && after[key] == before[key]
      ensures forall key :: key in after && key !in before ==>
        exists i :: 0 <= i < |texts| && key == Key(kind, texts[i])
    {
      hide Key;
      forall i | 0 <= i < |texts| ensures Key(kind, texts[i]) in after {
        if i in missPos {
          var j :| 0 <= j < |missPos| && missPos[j] == i;
          assert Key(kind, missTexts[j]) in after.Keys;
        } else {
          assert Key(kind, texts[i]) in before.Keys;
        }
      }
      forall key | key in after && key !in before ensures exists i :: 0 <= i < |texts| && key == Key(kind, texts[i]) {
        assert key in after.Keys;
        var j :| 0 <= j < |missTexts| && Key(kind, missTexts[j]) == key;
        assert key == Key(kind, texts[missPos[j]]);
      }
    }

    /** Serves what is cached and fills the rest with at most one call. */
    method Embed(kind: Kind, texts: seq<string>) returns (r: Result<array<array?<real>>, Error>)
      requires Valid()
      modifies cache, filler
      ensures Valid()
      ensures var before, after := old(cache.Contents), cache.Contents;
              && (r.Failure? ==> after == before && cache.dirty == old(cache.dirty))
              && (r.Success? ==> AllCached(after, kind, texts))
              && (forall key :: key in before ==> key in after && after[key] == before[key])
              && (forall key :: key in after && key !in before ==>
                    exists i :: 0 <= i < |texts| && key == Key(kind, texts[i]))
      ensures r.Success? ==> r.value.Length == |texts| && fresh(r.value)
      ensures r.Success? ==> forall i :: 0 <= i < |texts| ==> Right(r.value[i], kind, texts[i])
      ensures r.Success? ==> forall i :: 0 <= i < |texts| ==> fresh(r.value[i]) && r.value[i] !in cache.Repr
      ensures filler == null ==> (r.Success? <==> AllCached(old(cache.Contents), kind, texts))
      ensures r.Failure? ==> (r.error.CacheMiss? <==> filler == null)
      ensures r.Failure? && filler == null ==> FirstMiss(old(cache.Contents), kind, texts, r.error.text)
      ensures filler != null ==>
                filler.calls == old(filler.calls) + if AllCached(old(cache.Contents), kind, texts) then 0 else 1
      ensures AllCached(old(cache.Contents), kind, texts) ==> r.Success? && cache.Contents == old(cache.Contents)
    {
      hide NormalizeText, CollisionFree, CacheKey, Key, Consistent, Right, Misses, Filled, AllCached, FirstMiss;
      ghost var before := cache.Contents;
      var out, missTexts, missPos := Lookup(kind, texts);
      MissesSay(before, kind, texts, missTexts, missPos);
      if missTexts == [] {
        return Success(out);
      }
      if filler == null {
        FirstOfMisses(before, kind, texts, missTexts, missPos);
        return Failure(CacheMiss(missTexts[0]));
      }
      var filled := filler.Embed(kind, missTexts);
      if filled == None { return Failure(FillerFailed); }
      if |filled.value| != |missTexts| { return Failure(WrongCount); }
      forall j | 0 <= j < |missTexts|
        ensures Right(filled.value[j], kind, missTexts[j])
      {
        IsRight(filled.value[j], kind, missTexts[j]);
      }
      Store(kind, texts, out, missTexts, missPos, filled.value);
      AllRight(kind, texts, out, missTexts, missPos, filled.value);
      AllFilled(before, cache.Contents, kind, texts, missTexts, missPos);
      assert forall j :: 0 <= j < |filled.value| ==> fresh(filled.value[j]) && filled.value[j] !in cache.Repr;
      return Success(out);
    }

    /** Asking again makes no call and gives the same vectors. */
    method EmbedTwice(kind: Kind, texts: seq<string>)
      returns (r: Result<array<array?<real>>, Error>, again: Result<array<array?<real>>, Error>, ghost calls: nat)
      requires Valid() && filler != null
      modifies cache, filler
      ensures Valid() && calls <= old(filler.calls) + 1
      ensures r.Success? ==> again.Success? && filler.calls == calls && r.value != again.value
    {
      r := Embed(kind, texts);
      calls := filler.calls;
      again := Embed(kind, texts);
    }
  }
}
