/** The composed evidence ids, the hashed series encoding and the period chunk index. */
module Identifiers {
  import opened Wrappers
  import opened Numerals

  // Strings stand for Go's byte strings, one character a byte.

  // ---------- Evidence ids ----------

  predicate ValidKind(kind: string) {
    kind == "claim" || kind == "evidence"
  }

  function Assemble(kind: string, source: string, text: string): string {
    kind + ":" + source + ":" + text
  }

  function ComposeEvidenceID(kind: string, source: string, chunk: int): string {
    Assemble(kind, source, Itoa(chunk))
  }

  function IndexOf(s: string, c: char): (r: Option<nat>)
    ensures r.Some? ==> r.value < |s| && s[r.value] == c && forall k :: 0 <= k < r.value ==> s[k] != c
    ensures r.None? ==> forall k :: 0 <= k < |s| ==> s[k] != c
  {
    if s == "" then None
    else if s[0] == c then Some(0)
    else match IndexOf(s[1..], c)
      case Some(i) => Some(i + 1)
      case None => None
  }

  function LastIndexOf(s: string, c: char): (r: Option<nat>)
    ensures r.Some? ==> r.value < |s| && s[r.value] == c && forall k :: r.value < k < |s| ==> s[k] != c
    ensures r.None? ==> forall k :: 0 <= k < |s| ==> s[k] != c
  {
    if s == "" then None
    else if s[|s| - 1] == c then Some(|s| - 1)
    else LastIndexOf(s[..|s| - 1], c)
  }

  datatype EvidenceID = EvidenceID(kind: string, source: string, chunk: int)

  datatype Error = BadShape | UnknownKind | EmptySource | BadChunk | NegativeChunk

  function CheckParts(kind: string, source: string, text: string): Result<EvidenceID, Error> {
    if !ValidKind(kind) then Failure(UnknownKind)
    else if source == "" then Failure(EmptySource)
    else match Atoi(text)
      case None => Failure(BadChunk)
      case Some(chunk) => if chunk < 0 then Failure(NegativeChunk) else Success(EvidenceID(kind, source, chunk))
  }

  function ParseEvidenceID(id: string): Result<EvidenceID, Error> {
    match (IndexOf(id, ':'), LastIndexOf(id, ':'))
    case (Some(first), Some(last)) =>
      if first >= last then Failure(BadShape) else CheckParts(id[..first], id[first + 1..last], id[last + 1..])
    case _ => Failure(BadShape)
  }

  lemma FirstIs(s: string, c: char, i: nat)
    requires i < |s| && s[i] == c && forall k :: 0 <= k < i ==> s[k] != c
    ensures IndexOf(s, c) == Some(i)
  {
    hide IndexOf;
  }

  lemma LastIs(s: string, c: char, i: nat)
    requires i < |s| && s[i] == c && forall k :: i < k < |s| ==> s[k] != c
    ensures LastIndexOf(s, c) == Some(i)
  {
    hide LastIndexOf;
  }

  // What an id is made of can be read off it.
  lemma Parts(kind: string, source: string, text: string)
    ensures var id, m := Assemble(kind, source, text), |kind| + 1 + |source|;
      && |id| == m + 1 + |text| && id[|kind|] == ':' && id[m] == ':'
      && id[..|kind|] == kind && id[|kind| + 1..m] == source && id[m + 1..] == text
      && (forall k :: 0 <= k < |kind| ==> id[k] == kind[k])
      && (forall k :: m < k < |id| ==> id[k] == text[k - m - 1])
  {
  }

  lemma ParseAssembled(kind: string, source: string, text: string)
    requires ':' !in kind && ':' !in text
    ensures LastIndexOf(Assemble(kind, source, text), ':') == Some(|kind| + 1 + |source|)
    ensures ParseEvidenceID(Assemble(kind, source, text)) == CheckParts(kind, source, text)
  {
    Parts(kind, source, text);
    hide Assemble, IndexOf, LastIndexOf, CheckParts;
    var id := Assemble(kind, source, text);
    FirstIs(id, ':', |kind|);
    LastIs(id, ':', |kind| + 1 + |source|);
  }

  /** What is read from three parts, and the first fault that is reported. */
  lemma ParseSays(kind: string, source: string, text: string)
    requires ':' !in kind && ':' !in text
    ensures var r, known := ParseEvidenceID(kind + ":" + source + ":" + text), kind == "claim" || kind == "evidence";
      && (r == Failure(UnknownKind) <==> !known)
      && (r == Failure(EmptySource) <==> known && source == "")
      && (r == Failure(BadChunk) <==> known && source != "" && Atoi(text) == None)
      && (r == Failure(NegativeChunk) <==> known && source != "" && Atoi(text).Some? && Atoi(text).value < 0)
      && (r.Success? <==> known && source != "" && Atoi(text).Some? && Atoi(text).value >= 0)
      && (r.Success? ==> r.value == EvidenceID(kind, source, Atoi(text).value))
  {
    ParseAssembled(kind, source, text);
    assert Assemble(kind, source, text) == kind + ":" + source + ":" + text;
    hide Assemble, ParseEvidenceID, Atoi;
  }

  /** Without two colons there are no three parts. */
  lemma {:induction false} NoPartsIff(id: string)
    ensures ParseEvidenceID(id) == Failure(BadShape) <==> !exists i, j :: 0 <= i < j < |id| && id[i] == id[j] == ':'
  {
    hide CheckParts;
    var first, last := IndexOf(id, ':'), LastIndexOf(id, ':');
    assert first.Some? && last.Some? && first.value < last.value ==> id[first.value] == id[last.value] == ':';
    if i, j :| 0 <= i < j < |id| && id[i] == id[j] == ':' {
      assert first.Some? && last.Some? && first.value <= i && j <= last.value;
      NeverBadShape(id[..first.value], id[first.value + 1..last.value], id[last.value + 1..]);
    }
  }

  lemma NeverBadShape(kind: string, source: string, text: string)
    ensures CheckParts(kind, source, text) != Failure(BadShape)
  {
  }

  lemma ParsedKind(id: string)
    ensures ParseEvidenceID(id).Success? ==> ValidKind(ParseEvidenceID(id).value.kind)
  {
    hide Atoi, IndexOf, LastIndexOf;
  }

  /** Parsing inverts composing exactly for a known kind, a non-empty source (colons
      and all) and a non-negative chunk. */
  lemma ParseInvertsComposeIff(kind: string, source: string, chunk: int)
    requires MIN_INT64 <= chunk <= MAX_INT64
    ensures ComposeEvidenceID(kind, source, chunk) == kind + ":" + source + ":" + Itoa(chunk)
    ensures ParseEvidenceID(ComposeEvidenceID(kind, source, chunk)) == Success(EvidenceID(kind, source, chunk))
      <==> (kind == "claim" || kind == "evidence") && source != "" && chunk >= 0
  {
    assert ComposeEvidenceID(kind, source, chunk) == kind + ":" + source + ":" + Itoa(chunk);
    hide Assemble, ParseEvidenceID, Atoi, Itoa;
    ParsedKind(ComposeEvidenceID(kind, source, chunk));
    if ValidKind(kind) {
      NoColon(chunk);
      AtoiOfItoa(chunk);
      ParseAssembled(kind, source, Itoa(chunk));
    }
  }

  lemma Reassembled(id: string, first: nat, last: nat)
    requires first < last < |id| && id[first] == ':' && id[last] == ':'
    ensures id == Assemble(id[..first], id[first + 1..last], id[last + 1..])
  {
    assert id == id[..first] + [id[first]] + id[first + 1..last] + [id[last]] + id[last + 1..];
  }

  lemma SameText(kind: string, source: string, a: string, b: string)
    ensures Assemble(kind, source, a) == Assemble(kind, source, b) <==> a == b
  {
    Parts(kind, source, a);
    Parts(kind, source, b);
    hide Assemble;
  }

  lemma AtoiInRange(s: string)
    ensures Atoi(s).Some? ==> MIN_INT64 <= Atoi(s).value <= MAX_INT64
  {
  }

  lemma WrittenIff(text: string)
    requires Atoi(text).Some? && Atoi(text).value >= 0
    ensures text == Itoa(Atoi(text).value) <==> Canonical(text)
  {
    var n := Atoi(text).value;
    DigitsAreCanonical(n);
    if Canonical(text) {
      assert IsDigit(text[0]);
      DigitsOfValue(text);
    }
  }

  /** Whatever is accepted, its recomposition is accepted with the same reading; it is
      the same id exactly when what follows its last colon has no sign and no leading
      zero. */
  lemma AcceptedRecomposes(id: string)
    requires ParseEvidenceID(id).Success?
    ensures var e := ParseEvidenceID(id).value;
      && ParseEvidenceID(ComposeEvidenceID(e.kind, e.source, e.chunk)) == Success(e)
      && LastIndexOf(id, ':').Some?
      && (ComposeEvidenceID(e.kind, e.source, e.chunk) == id <==> Canonical(id[LastIndexOf(id, ':').value + 1..]))
  {
    hide Assemble, IndexOf, LastIndexOf, Atoi, Itoa, Canonical;
    var e := ParseEvidenceID(id).value;
    var first, last := IndexOf(id, ':').value, LastIndexOf(id, ':').value;
    Reassembled(id, first, last);
    AtoiInRange(id[last + 1..]);
    ParseInvertsComposeIff(e.kind, e.source, e.chunk);
    SameText(e.kind, e.source, id[last + 1..], Itoa(e.chunk));
    WrittenIff(id[last + 1..]);
  }

  /** So not every accepted id was composed: a sign or leading zeros pass as well. */
  lemma UncomposedIDsAreAccepted(source: string)
    requires source != ""
    ensures var id := Assemble("claim", source, "+7");
      ParseEvidenceID(id) == Success(EvidenceID("claim", source, 7)) && ComposeEvidenceID("claim", source, 7) != id
  {
    assert "+7"[1..] == "7" && "7"[..0] == "";
    assert Atoi("+7") == Some(7) && Itoa(7) == "7";
    hide Assemble, Atoi, Itoa, ParseEvidenceID;
    ParseAssembled("claim", source, "+7");
    SameText("claim", source, "+7", "7");
  }

  // ---------- The series encoding ----------

  // Each part is prefixed with its length.
  function Encode(parts: seq<string>): string {
    if parts == [] then "" else Framed(parts[0]) + Encode(parts[1..])
  }

  function Framed(part: string): string {
    Itoa(|part|) + ":" + part
  }

  // FNV-1a with the sign bit cleared.
  type Hash = string -> bv64

  /** Writes the parts to the hasher one after the other. */
  method SeriesPageID(hash: Hash, source: string, dataset: string, key: string) returns (id: int)
    ensures id == (hash(Encode([source, dataset, key])) & 0x7FFF_FFFF_FFFF_FFFF) as int
    ensures Encode([source, dataset, key]) ==
      Itoa(|source|) + ":" + source + (Itoa(|dataset|) + ":" + dataset) + (Itoa(|key|) + ":" + key)
  {
    EncodedThree(source, dataset, key);
    var parts := [source, dataset, key];
    var fed := "";
    assert parts[0..] == parts;
    hide Encode, Framed, Itoa;
    for i := 0 to |parts|
      invariant fed + Encode(parts[i..]) == Encode(parts)
    {
      ghost var before := fed;
      fed := fed + Itoa(|parts[i]|);
      fed := fed + ":";
      fed := fed + parts[i];
      FedOne(before, parts, i);
    }
    FedAll(fed, parts);
    id := (hash(fed) & 0x7FFF_FFFF_FFFF_FFFF) as int;
  }

  lemma FedOne(before: string, parts: seq<string>, i: nat)
    requires i < |parts|
    ensures before + Encode(parts[i..]) == before + Itoa(|parts[i]|) + ":" + parts[i] + Encode(parts[i + 1..])
  {
    hide Itoa;
    assert parts[i..][1..] == parts[i + 1..];
    assert before + Framed(parts[i]) == before + Itoa(|parts[i]|) + ":" + parts[i];
    Regroup(before, Framed(parts[i]), Encode(parts[i + 1..]));
  }

  lemma FedAll(fed: string, parts: seq<string>)
    ensures fed + Encode(parts[|parts|..]) == fed
  {
    assert parts[|parts|..] == [] && fed + "" == fed;
  }

  lemma EncodedThree(a: string, b: string, c: string)
    ensures Encode([a, b, c]) == Itoa(|a|) + ":" + a + (Itoa(|b|) + ":" + b) + (Itoa(|c|) + ":" + c)
  {
    hide Itoa;
    assert [a, b, c][1..] == [b, c] && [b, c][1..] == [c] && [c][1..] == [];
    assert Encode([c]) == Framed(c) + "" == Framed(c);
    assert Encode([b, c]) == Framed(b) + Framed(c);
    Regroup(Framed(a), Framed(b), Framed(c));
  }

  lemma Regroup(a: string, b: string, c: string)
    ensures (a + b) + c == a + (b + c)
  {
  }

  lemma AtoiOfLength(n: nat)
    ensures n == Value(Digits(n)) && Itoa(n) == Digits(n)
  {
    ValueOfDigits(n);
  }

  lemma FramedIsPrefixFree(p: string, q: string, x: string, y: string)
    requires Framed(p) + x == Framed(q) + y
    ensures p == q && x == y
  {
    NoColon(|p|);
    NoColon(|q|);
    var a, b := Itoa(|p|), Itoa(|q|);
    var s := Framed(p) + x;
    assert s[..|a|] == a && s[|a|] == ':';
    assert s[..|b|] == b && s[|b|] == ':';
    assert forall k :: 0 <= k < |a| ==> s[k] == a[k];
    assert forall k :: 0 <= k < |b| ==> s[k] == b[k];
    hide Itoa, IndexOf;
    FirstIs(s, ':', |a|);
    FirstIs(s, ':', |b|);
    AtoiOfLength(|p|);
    AtoiOfLength(|q|);
    assert |p| == |q|;
    assert s[|a| + 1..|a| + 1 + |p|] == p && s[|b| + 1..|b| + 1 + |q|] == q;
    assert s[|a| + 1 + |p|..] == x && s[|b| + 1 + |q|..] == y;
  }

  /** Distinct lists of parts never feed the hash the same bytes. */
  lemma {:induction false} EncodeIsInjective(a: seq<string>, b: seq<string>)
    requires |a| == |b| && Encode(a) == Encode(b)
    ensures a == b
  {
    if a != [] {
      hide Framed;
      FramedIsPrefixFree(a[0], b[0], Encode(a[1..]), Encode(b[1..]));
      EncodeIsInjective(a[1..], b[1..]);
      assert a == [a[0]] + a[1..] && b == [b[0]] + b[1..];
    }
  }

  // ---------- Periods ----------

  const QUARTER_SLOT_BASE := 20

  // The year and the slot within it; None for a period that cannot be read.
  function ParsePeriod(period: string): (r: Option<(int, int)>)
    ensures r.Some? ==> 1 <= r.value.0 <= 9999 && (0 <= r.value.1 <= 12 || 21 <= r.value.1 <= 24)
  {
    var cut := IndexOf(period, '-');
    var head := if cut.Some? then period[..cut.value] else period;
    match Atoi(head)
    case None => None
    case Some(year) =>
      if year < 1 || year > 9999 then None
      else if cut == None then Some((year, 0))
      else
        var tail := period[cut.value + 1..];
        if "Q" <= tail then
          match Atoi(tail[1..])
          case Some(quarter) => if 1 <= quarter <= 4 then Some((year, QUARTER_SLOT_BASE + quarter)) else None
          case None => None
        else
          match Atoi(tail)
          case Some(month) => if 1 <= month <= 12 then Some((year, month)) else None
          case None => None
  }

  function PeriodChunkIndex(period: string): Option<int> {
    match ParsePeriod(period)
    case Some((year, slot)) => Some(year * 100 + slot)
    case None => None
  }

  /** Two periods share an index exactly when they read as the same year and slot; the
      indices sort by year, then slot, and stay within [100, 999924]. */
  lemma PeriodIndexIsFaithful(p: string, q: string)
    requires ParsePeriod(p).Some? && ParsePeriod(q).Some?
    ensures var (i, j) := (PeriodChunkIndex(p).value, PeriodChunkIndex(q).value);
      var (x, y) := (ParsePeriod(p).value, ParsePeriod(q).value);
      && (i == j <==> x == y)
      && (i < j <==> x.0 < y.0 || (x.0 == y.0 && x.1 < y.1))
      && 100 <= i <= 999924
  {
    hide ParsePeriod;
  }

  predicate Within(n: Option<int>, low: int, high: int) {
    n.Some? && low <= n.value <= high
  }

  /** Which texts are periods: a year, a year and a month, or a year, a Q and a quarter,
      each any numeral in its range. */
  lemma PeriodSays(head: string, tail: string)
    requires '-' !in head
    ensures var year := Atoi(head);
      && (ParsePeriod(head).Some? <==> Within(year, 1, 9999))
      && (Within(year, 1, 9999) ==> ParsePeriod(head) == Some((year.value, 0)))
    ensures var year, month, r := Atoi(head), Atoi(tail), ParsePeriod(head + "-" + tail);
      !("Q" <= tail) ==>
        && (r.Some? <==> Within(year, 1, 9999) && Within(month, 1, 12))
        && (r.Some? ==> r == Some((year.value, month.value)))
    ensures var year, quarter, r := Atoi(head), Atoi(tail), ParsePeriod(head + "-Q" + tail);
      && (r.Some? <==> Within(year, 1, 9999) && Within(quarter, 1, 4))
      && (r.Some? ==> r == Some((year.value, 20 + quarter.value)))
  {
    hide Atoi, IndexOf;
    assert forall k :: 0 <= k < |head| ==> head[k] != '-';
    assert IndexOf(head, '-') == None;
    CutAt(head, tail);
    assert head + "-Q" + tail == head + "-" + ("Q" + tail);
    CutAt(head, "Q" + tail);
    assert "Q" <= "Q" + tail && ("Q" + tail)[1..] == tail;
  }

  lemma CutAt(head: string, tail: string)
    requires '-' !in head
    ensures var p := head + "-" + tail;
      IndexOf(p, '-') == Some(|head|) && p[..|head|] == head && p[|head| + 1..] == tail
  {
    var p := head + "-" + tail;
    forall k | 0 <= k < |head| ensures p[k] != '-' { assert head[k] in head; }
    FirstIs(p, '-', |head|);
  }

  // The periods as the sources publish them.
  datatype Period = Annual(year: int) | Monthly(year: int, month: int) | Quarterly(year: int, quarter: int)

  predicate Real(p: Period) {
    1 <= p.year <= 9999 && (p.Monthly? ==> 1 <= p.month <= 12) && (p.Quarterly? ==> 1 <= p.quarter <= 4)
  }

  function Two(n: int): string
    requires 0 <= n < 100
  {
    [DigitChar(n / 10), DigitChar(n % 10)]
  }

  function YearText(year: int): string
    requires 0 <= year < 10000
  {
    Two(year / 100) + Two(year % 100)
  }

  function Render(p: Period): string
    requires Real(p)
  {
    YearText(p.year) +
    match p
    case Annual(_) => ""
    case Monthly(_, m) => "-" + Two(m)
    case Quarterly(_, q) => "-Q" + [DigitChar(q)]
  }

  function Slot(p: Period): int
    requires Real(p)
  {
    match p
    case Annual(_) => 0
    case Monthly(_, m) => m
    case Quarterly(_, q) => 20 + q
  }

  lemma AtoiOfTwo(n: int)
    requires 0 <= n < 100
    ensures Atoi(Two(n)) == Some(n)
  {
    ShortValue(Two(n));
  }

  lemma FourDigits(n: int)
    requires 0 <= n < 10000
    ensures n == n / 100 / 10 * 1000 + n / 100 % 10 * 100 + n % 100 / 10 * 10 + n % 100 % 10
  {
  }

  lemma AtoiOfYear(n: int)
    requires 0 <= n < 10000
    ensures Atoi(YearText(n)) == Some(n)
  {
    var s := YearText(n);
    FourDigits(n);
    ShortValue(s);
    hide Value;
  }

  lemma NoDash(n: int)
    requires 0 <= n < 10000
    ensures '-' !in YearText(n)
  {
  }

  lemma AtoiOfDigit(n: int)
    requires 0 <= n < 10
    ensures Atoi([DigitChar(n)]) == Some(n)
  {
    ShortValue([DigitChar(n)]);
  }

  lemma NotQuarter(n: int)
    requires 0 <= n < 100
    ensures !("Q" <= Two(n))
  {
    assert Two(n)[0] != 'Q';
  }

  lemma RenderedIs(p: Period)
    requires Real(p)
    ensures var head := YearText(p.year);
      Render(p) == match p
                   case Annual(_) => head
                   case Monthly(_, m) => head + "-" + Two(m)
                   case Quarterly(_, q) => head + "-Q" + [DigitChar(q)]
  {
    hide Two, YearText;
  }

  /** Every period reads back as itself, so distinct periods never share an index. */
  lemma RenderedPeriodReads(p: Period)
    requires Real(p)
    ensures ParsePeriod(Render(p)) == Some((p.year, Slot(p)))
  {
    var head := YearText(p.year);
    hide ParsePeriod, Atoi, Two, YearText, Render;
    RenderedIs(p);
    AtoiOfYear(p.year);
    NoDash(p.year);
    match p {
      case Annual(_) => PeriodSays(head, "");
      case Monthly(_, m) =>
        AtoiOfTwo(m);
        NotQuarter(m);
        PeriodSays(head, Two(m));
      case Quarterly(_, q) =>
        AtoiOfDigit(q);
        PeriodSays(head, [DigitChar(q)]);
    }
  }

  /** The index of a published period: the year in hundreds, then nothing, the month, or
      twenty and the quarter. */
  lemma RenderedPeriodIndex(p: Period)
    requires Real(p)
    ensures PeriodChunkIndex(Render(p)) ==
      Some(p.year * 100 + if p.Annual? then 0 else if p.Monthly? then p.month else 20 + p.quarter)
  {
    RenderedPeriodReads(p);
    hide ParsePeriod, Render;
  }

  lemma DistinctPeriodsDistinctIndices(p: Period, q: Period)
    requires Real(p) && Real(q) && PeriodChunkIndex(Render(p)) == PeriodChunkIndex(Render(q))
    ensures p == q
  {
    RenderedPeriodReads(p);
    RenderedPeriodReads(q);
    hide ParsePeriod, Render;
    PeriodIndexIsFaithful(Render(p), Render(q));
  }
}
