/** Reading and rewriting `.env` files, and the bootstrap's merge of generated values. */
module EnvFile {
  import opened Wrappers

  // ---------- Lines ----------

  function Split(s: string): (lines: seq<string>)
    ensures |lines| >= 1
    ensures forall i :: 0 <= i < |lines| ==> '\n' !in lines[i]
  {
    if s == "" then [""] else
      var rest := Split(s[1..]);
      if s[0] == '\n' then [""] + rest else [[s[0]] + rest[0]] + rest[1..]
  }

  function Join(lines: seq<string>): string
    requires lines != []
  {
    if |lines| == 1 then lines[0] else lines[0] + "\n" + Join(lines[1..])
  }

  lemma {:induction false} JoinSplit(s: string)
    ensures Join(Split(s)) == s
  {
    if s != "" {
      var rest := Split(s[1..]);
      JoinSplit(s[1..]);
      if s[0] == '\n' {
        assert ([""] + rest)[1..] == rest;
        assert "" + "\n" + s[1..] == s;
      } else {
        var lines := [[s[0]] + rest[0]] + rest[1..];
        assert lines[1..] == rest[1..];
        if |rest| == 1 {
          assert [s[0]] + rest[0] == s;
        } else {
          assert [s[0]] + rest[0] + "\n" + Join(rest[1..]) == [s[0]] + (rest[0] + "\n" + Join(rest[1..]));
          assert [s[0]] + s[1..] == s;
        }
      }
    }
  }

  lemma {:induction false} SplitLine(line: string)
    requires '\n' !in line
    ensures Split(line) == [line]
  {
    if line != "" {
      SplitLine(line[1..]);
      assert [line[0]] + line[1..] == line;
    }
  }

  lemma {:induction false} SplitConcat(line: string, s: string)
    requires '\n' !in line
    ensures Split(line + "\n" + s) == [line] + Split(s)
  {
    if line == "" {
      assert ("" + "\n" + s)[1..] == s;
    } else {
      assert (line + "\n" + s)[1..] == line[1..] + "\n" + s;
      SplitConcat(line[1..], s);
      assert ([line[1..]] + Split(s))[1..] == Split(s);
      assert [line[0]] + line[1..] == line;
    }
  }

  ghost predicate AreLines(lines: seq<string>) {
    lines != [] && forall i :: 0 <= i < |lines| ==> '\n' !in lines[i]
  }

  lemma {:induction false} SplitJoin(lines: seq<string>)
    requires AreLines(lines)
    ensures Split(Join(lines)) == lines
  {
    if |lines| == 1 {
      SplitLine(lines[0]);
    } else {
      SplitConcat(lines[0], Join(lines[1..]));
      SplitJoin(lines[1..]);
      assert lines == [lines[0]] + lines[1..];
    }
  }

  lemma {:induction false} JoinAppend(a: seq<string>, b: seq<string>)
    requires a != [] && b != []
    ensures Join(a + b) == Join(a) + "\n" + Join(b)
  {
    if |a| == 1 {
      assert (a + b)[1..] == b;
    } else {
      assert (a + b)[1..] == a[1..] + b;
      JoinAppend(a[1..], b);
      assert Join(a + b) == a[0] + "\n" + (Join(a[1..]) + "\n" + Join(b));
      assert Join(a) + "\n" + Join(b) == a[0] + "\n" + Join(a[1..]) + "\n" + Join(b);
    }
  }

  // ---------- Assignments ----------

  function TrimLeft(line: string): (r: string)
    ensures r == "" || (r[0] != ' ' && r[0] != '\t')
  {
    if line != "" && (line[0] == ' ' || line[0] == '\t') then TrimLeft(line[1..]) else line
  }

  function TrimCR(s: string): string {
    if s != "" && s[|s| - 1] == '\r' then s[..|s| - 1] else s
  }

  predicate Assigns(line: string, key: string) {
    key + "=" <= TrimLeft(line)
  }

  function ValueIn(line: string, key: string): string
    requires Assigns(line, key)
  {
    TrimCR(TrimLeft(line)[|key| + 1..])
  }

  // The first line that assigns the key.
  function Find(lines: seq<string>, key: string): (r: Option<nat>)
    ensures r.Some? ==> r.value < |lines| && Assigns(lines[r.value], key)
    ensures forall i :: 0 <= i < (if r.Some? then r.value else |lines|) ==> !Assigns(lines[i], key)
  {
    if lines == [] then None
    else if Assigns(lines[0], key) then Some(0)
    else match Find(lines[1..], key)
      case Some(i) => Some(i + 1)
      case None => None
  }

  function Lookup(lines: seq<string>, key: string): Option<string> {
    match Find(lines, key)
    case Some(i) => Some(ValueIn(lines[i], key))
    case None => None
  }

  function EnvValue(content: string, key: string): Option<string> {
    Lookup(Split(content), key)
  }

  function Updated(content: string, key: string, value: string): string {
    var lines := Split(content);
    var line := key + "=" + value;
    match Find(lines, key)
    case Some(i) => Join(lines[i := line])
    case None =>
      if content == "" then line + "\n"
      else if content[|content| - 1] == '\n' then Join(lines[|lines| - 1 := line]) + "\n"
      else content + "\n" + line + "\n"
  }

  /** Writes the first assignment's line in place, or appends one. */
  method SetEnvValue(content: string, key: string, value: string) returns (r: string)
    ensures r == Updated(content, key, value)
  {
    var prefix, replacement := key + "=", key + "=" + value;
    var lines := Split(content);
    for i := 0 to |lines|
      invariant forall j :: 0 <= j < i ==> !Assigns(lines[j], key)
    {
      if prefix <= TrimLeft(lines[i]) {
        FindIs(lines, key, i);
        lines := lines[i := replacement];
        return Join(lines);
      }
    }
    if content == "" { return replacement + "\n"; }
    if content[|content| - 1] == '\n' {
      lines := lines[|lines| - 1 := replacement];
      return Join(lines) + "\n";
    }
    return content + "\n" + replacement + "\n";
  }

  lemma FindIs(lines: seq<string>, key: string, i: nat)
    requires i < |lines| && Assigns(lines[i], key) && forall j :: 0 <= j < i ==> !Assigns(lines[j], key)
    ensures Find(lines, key) == Some(i)
  {
  }

  // ---------- What an update does to the lines ----------

  // The lines an appended assignment keeps: all but the empty one after a final newline.
  function Kept(lines: seq<string>): seq<string>
    requires lines != []
  {
    if lines[|lines| - 1] == "" then lines[..|lines| - 1] else lines
  }

  lemma {:induction false} LastLine(s: string)
    ensures Split(s)[|Split(s)| - 1] == "" <==> s == "" || s[|s| - 1] == '\n'
  {
    if s != "" { LastLine(s[1..]); }
  }

  lemma JoinOne(line: string)
    ensures Join([line]) == line
  {
  }

  lemma JoinFinalNewline(lines: seq<string>)
    requires lines != []
    ensures Join(lines + [""]) == Join(lines) + "\n"
  {
    JoinAppend(lines, [""]);
    JoinOne("");
    hide Join;
    assert Join(lines) + "\n" + "" == Join(lines) + "\n";
  }

  lemma JoinOneMore(lines: seq<string>, line: string)
    requires lines != []
    ensures Join(lines + [line]) == Join(lines) + "\n" + line
  {
    JoinAppend(lines, [line]);
    JoinOne(line);
  }

  lemma AppendedText(content: string, line: string)
    ensures var lines := Split(content);
      Join(Kept(lines) + [line, ""]) ==
        if content == "" then line + "\n"
        else if content[|content| - 1] == '\n' then Join(lines[|lines| - 1 := line]) + "\n"
        else content + "\n" + line + "\n"
  {
    LastLine(content);
    JoinSplit(content);
    var lines := Split(content);
    var all := Kept(lines) + [line];
    assert Kept(lines) + [line, ""] == all + [""];
    JoinFinalNewline(all);
    if content == "" {
      assert all == [line];
      JoinOne(line);
    } else if lines[|lines| - 1] == "" {
      assert lines[|lines| - 1 := line] == all;
    } else {
      JoinOneMore(lines, line);
    }
    hide Join, Split;
  }

  /** Every line but the assigned one stays as it was, in the replacing case and in all
      three appending ones. */
  lemma UpdatedLines(content: string, key: string, value: string)
    requires '\n' !in key && '\n' !in value
    ensures Split(Updated(content, key, value)) ==
      match Find(Split(content), key)
      case Some(i) => Split(content)[i := key + "=" + value]
      case None => Kept(Split(content)) + [key + "=" + value, ""]
  {
    var lines := Split(content);
    var line := key + "=" + value;
    hide Split, Join, Find;
    match Find(lines, key) {
      case Some(i) => SplitJoin(lines[i := line]);
      case None =>
        AppendedText(content, line);
        SplitJoin(Kept(lines) + [line, ""]);
    }
  }

  // ---------- Lens laws ----------

  predicate GoodKey(key: string) {
    '\n' !in key && (key == "" || (key[0] != ' ' && key[0] != '\t'))
  }

  predicate GoodValue(value: string) {
    '\n' !in value && (value == "" || value[|value| - 1] != '\r')
  }

  lemma OwnLine(key: string, value: string)
    requires key == "" || (key[0] != ' ' && key[0] != '\t')
    ensures TrimLeft(key + "=" + value) == key + "=" + value
    ensures Assigns(key + "=" + value, key) && ValueIn(key + "=" + value, key) == TrimCR(value)
  {
    var line := key + "=" + value;
    assert line == (key + "=") + value;
    assert line[|key| + 1..] == value;
    assert line[0] == if key == "" then '=' else key[0];
  }

  lemma BadKeyNeverFound(lines: seq<string>, key: string)
    requires !GoodKey(key) && forall i :: 0 <= i < |lines| ==> '\n' !in lines[i]
    ensures Find(lines, key) == None
  {
    forall i | 0 <= i < |lines| ensures !Assigns(lines[i], key) { BadKeyNotAssigned(lines[i], key); }
  }

  lemma {:induction false} Trimmed(line: string)
    ensures |TrimLeft(line)| <= |line| && TrimLeft(line) == line[|line| - |TrimLeft(line)|..]
  {
    if line != "" && (line[0] == ' ' || line[0] == '\t') { Trimmed(line[1..]); }
  }

  lemma BadKeyNotAssigned(line: string, key: string)
    requires !GoodKey(key) && '\n' !in line
    ensures !Assigns(line, key)
  {
    var t := TrimLeft(line);
    Trimmed(line);
    if '\n' in key {
      var k :| 0 <= k < |key| && key[k] == '\n';
      assert (key + "=")[k] == '\n';
      assert k < |t| ==> t[k] != '\n';
    } else {
      assert (key + "=")[0] == key[0];
    }
  }

  lemma FindAfterUpdate(content: string, key: string, value: string)
    requires GoodKey(key) && '\n' !in value
    ensures var lines := Split(Updated(content, key, value));
      Find(lines, key).Some? && lines[Find(lines, key).value] == key + "=" + value
  {
    UpdatedLines(content, key, value);
    OwnLine(key, value);
    var lines, before := Split(Updated(content, key, value)), Split(content);
    var at := match Find(before, key) case Some(i) => i case None => |Kept(before)|;
    FindIs(lines, key, at);
  }

  lemma NoNewlineInValue(lines: seq<string>, key: string)
    requires forall i :: 0 <= i < |lines| ==> '\n' !in lines[i]
    ensures Lookup(lines, key).Some? ==> '\n' !in Lookup(lines, key).value
  {
    if Find(lines, key).Some? { Trimmed(lines[Find(lines, key).value]); }
  }

  /** Reading back what was written works exactly for keys without newline or leading
      blank and values without newline or trailing carriage return. */
  lemma GetAfterSetIff(content: string, key: string, value: string)
    ensures EnvValue(Updated(content, key, value), key) == Some(value) <==> GoodKey(key) && GoodValue(value)
  {
    var lines := Split(Updated(content, key, value));
    if !GoodKey(key) {
      BadKeyNeverFound(lines, key);
    } else if '\n' in value {
      NoNewlineInValue(lines, key);
    } else {
      FindAfterUpdate(content, key, value);
      OwnLine(key, value);
    }
  }

  lemma OneKeyPerLine(line: string, k1: string, k2: string)
    requires '=' !in k1 && '=' !in k2 && Assigns(line, k1) && Assigns(line, k2)
    ensures k1 == k2
  {
    var t := TrimLeft(line);
    assert t[|k1|] == '=' && t[|k2|] == '=';
    assert t[..|k1|] == k1 && t[..|k2|] == k2;
  }

  lemma NoKeyInEmpty(key: string)
    ensures !Assigns("", key)
  {
  }

  // ---------- Which keys an update may touch ----------

  function FirstEquals(s: string): (r: Option<nat>)
    ensures r.Some? ==> r.value < |s| && s[r.value] == '=' && forall k :: 0 <= k < r.value ==> s[k] != '='
    ensures r.None? ==> '=' !in s
  {
    if s == "" then None
    else if s[0] == '=' then Some(0)
    else match FirstEquals(s[1..])
      case Some(i) => Some(i + 1)
      case None => None
  }

  // The key a line assigns: what stands before its first equals sign.
  function KeyIn(line: string): Option<string> {
    match FirstEquals(TrimLeft(line))
    case Some(i) => Some(TrimLeft(line)[..i])
    case None => None
  }

  lemma {:induction false} FirstEqualsIs(s: string, i: nat)
    requires i < |s| && s[i] == '=' && '=' !in s[..i]
    ensures FirstEquals(s) == Some(i)
  {
    if i > 0 {
      assert s[0] == s[..i][0];
      assert s[1..][..i - 1] == s[..i][1..];
      FirstEqualsIs(s[1..], i - 1);
    }
  }

  lemma AssignsItsKey(line: string, key: string)
    requires '=' !in key
    ensures Assigns(line, key) <==> KeyIn(line) == Some(key)
  {
    var t := TrimLeft(line);
    if Assigns(line, key) {
      assert t[|key|] == '=' && t[..|key|] == key;
      FirstEqualsIs(t, |key|);
    }
  }

  // The last line of one text runs on into the first of another.
  function Glued(a: seq<string>, b: seq<string>): (r: seq<string>)
    requires a != [] && b != []
    ensures r != []
  {
    a[..|a| - 1] + [a[|a| - 1] + b[0]] + b[1..]
  }

  lemma GluedLine(a: seq<string>, b: seq<string>)
    requires a != [] && b != []
    ensures Glued([""] + a, b) == [""] + Glued(a, b)
  {
    assert ([""] + a)[..|a|] == [""] + a[..|a| - 1];
  }

  lemma GluedChar(c: char, a: seq<string>, b: seq<string>)
    requires a != [] && b != []
    ensures Glued([[c] + a[0]] + a[1..], b) == [[c] + Glued(a, b)[0]] + Glued(a, b)[1..]
  {
    var n := |a| - 1;
    if n == 0 {
      assert [c] + a[0] + b[0] == [c] + (a[0] + b[0]);
    } else {
      var longer := [[c] + a[0]] + a[1..];
      assert longer[..n] == [[c] + a[0]] + a[1..n] && longer[n] == a[n];
      assert Glued(a, b)[1..] == a[1..n] + [a[n] + b[0]] + b[1..];
    }
  }

  lemma {:induction false} SplitContinued(s: string, t: string)
    ensures Split(s + t) == Glued(Split(s), Split(t))
  {
    if s == "" {
      assert s + t == t && "" + Split(t)[0] == Split(t)[0];
    } else {
      assert (s + t)[1..] == s[1..] + t;
      SplitContinued(s[1..], t);
      GluedLine(Split(s[1..]), Split(t));
      GluedChar(s[0], Split(s[1..]), Split(t));
      hide Glued;
    }
  }

  lemma SplitBroken(s: string, t: string)
    ensures Split(s + "\n" + t) == Split(s) + Split(t)
  {
    var a := Split(s);
    assert "\n" + t == "" + "\n" + t;
    SplitConcat("", t);
    SplitContinued(s, "\n" + t);
    assert s + "\n" + t == s + ("\n" + t);
    assert ([""] + Split(t))[1..] == Split(t);
    assert a[|a| - 1] + "" == a[|a| - 1];
    assert a[..|a| - 1] + [a[|a| - 1]] == a;
    hide Split;
  }

  // A text written between lines brings its own lines.
  lemma {:induction false} SplitAround(a: seq<string>, line: string, c: seq<string>)
    requires forall i :: 0 <= i < |a| ==> '\n' !in a[i]
    requires forall i :: 0 <= i < |c| ==> '\n' !in c[i]
    ensures Split(Join(a + [line] + c)) == a + Split(line) + c
  {
    hide Split;
    var all := a + [line] + c;
    if a == [] {
      assert all == [line] + c && all[1..] == c;
      assert [] + Split(line) + c == Split(line) + c;
      if c == [] {
        assert Split(line) + [] == Split(line);
      } else {
        SplitBroken(line, Join(c));
        SplitJoin(c);
      }
    } else {
      var rest := all[1..];
      assert rest == a[1..] + [line] + c;
      SplitAround(a[1..], line, c);
      assert Join(all) == a[0] + "\n" + Join(rest);
      hide Join;
      SplitConcat(a[0], Join(rest));
      assert [a[0]] + (a[1..] + Split(line) + c) == a + Split(line) + c;
    }
  }

  // What an update does to the lines when the value has several.
  lemma UpdatedBlock(content: string, key: string, value: string)
    ensures Split(Updated(content, key, value)) ==
      match Find(Split(content), key)
      case Some(i) => Split(content)[..i] + Split(key + "=" + value) + Split(content)[i + 1..]
      case None => Kept(Split(content)) + Split(key + "=" + value) + [""]
  {
    var lines := Split(content);
    var line := key + "=" + value;
    hide Split, Join, Find;
    match Find(lines, key) {
      case Some(i) =>
        assert lines[i := line] == lines[..i] + [line] + lines[i + 1..];
        SplitAround(lines[..i], line, lines[i + 1..]);
      case None =>
        AppendedText(content, line);
        assert Kept(lines) + [line, ""] == Kept(lines) + [line] + [""];
        SplitAround(Kept(lines), line, [""]);
    }
  }

  predicate Silent(lines: seq<string>, key: string) {
    forall i :: 0 <= i < |lines| ==> !Assigns(lines[i], key)
  }

  lemma LookupConcat(a: seq<string>, b: seq<string>, key: string)
    ensures Lookup(a + b, key) == if Find(a, key).Some? then Lookup(a, key) else Lookup(b, key)
  {
    hide Assigns, ValueIn;
    if Find(a, key).Some? {
      FindIs(a + b, key, Find(a, key).value);
    } else if Find(b, key).Some? {
      FindIs(a + b, key, |a| + Find(b, key).value);
    }
  }

  lemma SilentLookup(lines: seq<string>, key: string)
    requires Silent(lines, key)
    ensures Lookup(lines, key) == None
  {
  }

  // Silent lines may be exchanged.
  lemma SwapSilent(a: seq<string>, x: seq<string>, y: seq<string>, c: seq<string>, key: string)
    requires Silent(x, key) && Silent(y, key)
    ensures Lookup(a + x + c, key) == Lookup(a + y + c, key)
  {
    hide Lookup, Silent, Find;
    SilentLookup(x, key);
    SilentLookup(y, key);
    LookupConcat(a + x, c, key);
    LookupConcat(a + y, c, key);
    LookupConcat(a, x, key);
    LookupConcat(a, y, key);
    FoundIff(a + x, key);
    FoundIff(a + y, key);
    FoundIff(a, key);
  }

  lemma FoundIff(lines: seq<string>, key: string)
    ensures Find(lines, key).Some? <==> Lookup(lines, key).Some?
  {
  }

  // The key is fit for a line of its own, and no further line of the value assigns
  // another key.
  predicate Contained(key: string, value: string) {
    && '=' !in key && GoodKey(key)
    && forall i :: 1 <= i < |Split(value)| ==> KeyIn(Split(value)[i]) == None || KeyIn(Split(value)[i]) == Some(key)
  }

  ghost predicate OthersKeepTheirValues(key: string, value: string) {
    forall content, other :: '=' !in other && other != key ==>
      EnvValue(Updated(content, key, value), other) == EnvValue(content, other)
  }

  lemma GluedOne(x: string, b: seq<string>)
    requires b != []
    ensures Glued([x], b) == [x + b[0]] + b[1..]
  {
  }

  lemma BlockLines(key: string, value: string)
    requires '\n' !in key
    ensures Split(key + "=" + value) == [key + "=" + Split(value)[0]] + Split(value)[1..]
  {
    hide Split, Glued;
    var lines := Split(value);
    SplitLine(key + "=");
    SplitContinued(key + "=", value);
    GluedOne(key + "=", lines);
  }

  lemma BlockIsSilent(key: string, value: string, other: string)
    requires Contained(key, value) && '=' !in other && other != key
    ensures Silent(Split(key + "=" + value), other)
  {
    BlockLines(key, value);
    var block := Split(key + "=" + value);
    OwnLine(key, Split(value)[0]);
    hide Split, Assigns, KeyIn;
    forall i | 0 <= i < |block| ensures !Assigns(block[i], other) {
      AssignsItsKey(block[i], other);
      if i == 0 { AssignsItsKey(block[0], key); }
    }
  }

  lemma ReplacedMeansKept(before: seq<string>, block: seq<string>, i: nat, key: string, other: string)
    requires i < |before| && Assigns(before[i], key) && Silent(block, other)
    requires '=' !in key && '=' !in other && other != key
    ensures Lookup(before[..i] + block + before[i + 1..], other) == Lookup(before, other)
  {
    if Assigns(before[i], other) { OneKeyPerLine(before[i], key, other); }
    assert Silent([before[i]], other);
    hide Silent, Assigns, Lookup;
    SwapSilent(before[..i], block, [before[i]], before[i + 1..], other);
    assert before == before[..i] + [before[i]] + before[i + 1..];
  }

  lemma AppendedMeansKept(before: seq<string>, block: seq<string>, other: string)
    requires before != [] && Silent(block, other)
    ensures Lookup(Kept(before) + block + [""], other) == Lookup(before, other)
  {
    var kept := Kept(before);
    var last := if kept == before then [] else [""];
    NoKeyInEmpty(other);
    assert Silent(last, other) && Silent(block + [""], other);
    hide Silent, Lookup;
    SwapSilent(kept, block + [""], last, [], other);
    assert kept + block + [""] == kept + (block + [""]) + [];
    assert before == kept + last + [];
  }

  lemma ContainedMeansKept(content: string, key: string, value: string, other: string)
    requires Contained(key, value) && '=' !in other && other != key
    ensures EnvValue(Updated(content, key, value), other) == EnvValue(content, other)
  {
    BlockIsSilent(key, value, other);
    UpdatedBlock(content, key, value);
    var before, block := Split(content), Split(key + "=" + value);
    hide Split, Updated, Silent, Lookup, KeyIn;
    match Find(before, key) {
      case Some(i) => ReplacedMeansKept(before, block, i, key, other);
      case None => AppendedMeansKept(before, block, other);
    }
  }

  // In an empty file, any key some line of the new text assigns gets a value.
  lemma LineLeaks(key: string, value: string, i: nat)
    requires i < |Split(key + "=" + value)| && KeyIn(Split(key + "=" + value)[i]).Some?
    requires KeyIn(Split(key + "=" + value)[i]).value != key
    ensures !OthersKeepTheirValues(key, value)
  {
    var block := Split(key + "=" + value);
    var other := KeyIn(block[i]).value;
    NoKeyInEmpty(key);
    NoKeyInEmpty(other);
    UpdatedBlock("", key, value);
    assert Split("") == [""] && Kept([""]) == [];
    var after := Split(Updated("", key, value));
    assert after == block + [""];
    AssignsItsKey(after[i], other);
    assert Find(after, other).Some?;
    assert EnvValue("", other) == None;
    assert EnvValue(Updated("", key, value), other).Some?;
  }

  lemma UnfitKeyLeaks(key: string, value: string)
    requires '=' in key || !GoodKey(key)
    ensures !OthersKeepTheirValues(key, value)
  {
    var block := Split(key + "=" + value);
    var n := LineOfEquals(key, value);
    EqualsSurvivesTrim(block[n]);
    Trimmed(block[n]);
    LineLeaks(key, value, n);
  }

  // The line on which the key ends holds the equals sign.
  lemma LineOfEquals(key: string, value: string) returns (n: nat)
    ensures n == |Split(key)| - 1 && n < |Split(key + "=" + value)|
    ensures Split(key + "=" + value)[n] == Split(key)[n] + ("=" + Split(value)[0])
    ensures '=' in Split(key + "=" + value)[n]
  {
    n := |Split(key)| - 1;
    SplitLine("=");
    SplitContinued("=", value);
    SplitContinued(key, "=" + value);
    assert key + "=" + value == key + ("=" + value);
    assert Split(key + "=" + value)[n][|Split(key)[n]|] == '=';
  }

  lemma {:induction false} EqualsSurvivesTrim(line: string)
    requires '=' in line
    ensures '=' in TrimLeft(line)
  {
    if line[0] == ' ' || line[0] == '\t' { EqualsSurvivesTrim(line[1..]); }
  }

  /** Every other key keeps its value, in every file, exactly when the key has no equals
      sign, no newline and no leading blank and no further line of the value assigns
      another key. */
  lemma OtherKeysUnchangedIff(key: string, value: string)
    ensures OthersKeepTheirValues(key, value) <==> Contained(key, value)
  {
    if Contained(key, value) {
      forall content, other | '=' !in other && other != key
        ensures EnvValue(Updated(content, key, value), other) == EnvValue(content, other)
      {
        ContainedMeansKept(content, key, value, other);
      }
    } else if '=' in key || !GoodKey(key) {
      UnfitKeyLeaks(key, value);
    } else {
      var i :| 1 <= i < |Split(value)| && KeyIn(Split(value)[i]) != None && KeyIn(Split(value)[i]) != Some(key);
      BlockLines(key, value);
      hide Split, KeyIn, OthersKeepTheirValues;
      LineLeaks(key, value, i);
    }
  }

  /** With a value of one line, as the merge writes, no other key's value changes. */
  lemma OtherKeysUnchanged(content: string, key: string, value: string, other: string)
    requires GoodKey(key) && '\n' !in value && '=' !in key && '=' !in other && other != key
    ensures EnvValue(Updated(content, key, value), other) == EnvValue(content, other)
  {
    SplitLine(value);
    ContainedMeansKept(content, key, value, other);
  }

  /** Of two writes to a key only the second remains. */
  lemma LastWriteWins(content: string, key: string, v: string, w: string)
    requires GoodKey(key) && '\n' !in v && '\n' !in w
    ensures Updated(Updated(content, key, v), key, w) == Updated(content, key, w)
  {
    hide Updated, Split, Join;
    var once, direct := Updated(content, key, v), Updated(content, key, w);
    var twice := Updated(once, key, w);
    UpdatedLines(content, key, v);
    UpdatedLines(content, key, w);
    UpdatedLines(once, key, w);
    OwnLine(key, v);
    var before := Split(content);
    var at := match Find(before, key) case Some(i) => i case None => |Kept(before)|;
    FindIs(Split(once), key, at);
    assert Split(twice) == Split(direct);
    JoinSplit(twice);
    JoinSplit(direct);
  }

  /** A key with a leading blank does change another key's value: its own without the blank. */
  lemma BlankKeyLeaks(key: string, value: string)
    requires GoodKey(key) && GoodValue(value)
    ensures EnvValue("", key) == None && EnvValue(Updated("", " " + key, value), key) == Some(value)
  {
    assert Split("") == [""];
    BadKeyNeverFound([""], " " + key);
    UpdatedLines("", " " + key, value);
    var line := " " + key + "=" + value;
    assert line[1..] == key + "=" + value;
    assert " " + key + "=" + value == line;
    OwnLine(key, value);
    hide Split, Updated, Find;
    FindIs([line, ""], key, 0);
  }

  // ---------- The bootstrap's merge ----------

  const EMAIL := "AUTH_EMAIL"
  const HASH := "AUTH_PASSWORD_HASH"
  const SECRET := "SESSION_SECRET"
  const PROVIDER_KEYS := ["TRANSCRIPTION_API_KEY", "EMBEDDING_API_KEY"]
  const PLACEHOLDER := "set-a-real-key-for-live-analysis"

  datatype Error = NoEmail | NoPassword | HashFailed | SecretFailed

  // The operator's input, the password's hash and a fresh secret, if they can be made.
  datatype Inputs = Inputs(email: string, password: string, hash: Option<string>, secret: Option<string>)

  datatype Merged = Merged(content: string, filled: set<string>, kept: set<string>)

  // A managed key with the value it would get, or why there is none.
  datatype Item = Item(key: string, value: Result<string, Error>)

  function Items(inputs: Inputs): seq<Item> {
    [Item(EMAIL, if inputs.email == "" then Failure(NoEmail) else Success(inputs.email)),
     Item(HASH, if inputs.password == "" then Failure(NoPassword)
                else if inputs.hash == None then Failure(HashFailed) else Success("'" + inputs.hash.value + "'")),
     Item(SECRET, if inputs.secret == None then Failure(SecretFailed) else Success(inputs.secret.value)),
     Item(PROVIDER_KEYS[0], Success(PLACEHOLDER)),
     Item(PROVIDER_KEYS[1], Success(PLACEHOLDER))]
  }

  function Get(content: string, key: string): string {
    match EnvValue(content, key)
    case Some(v) => v
    case None => ""
  }

  predicate Eligible(current: string, templateDefault: string) {
    current == "" || current == templateDefault
  }

  predicate Unset(content: string, example: string, key: string) {
    Eligible(Get(content, key), Get(example, key))
  }

  // Only an unset key needs its value.
  function FillOne(m: Merged, example: string, item: Item): Result<Merged, Error> {
    if !Unset(m.content, example, item.key) then Success(m.(kept := m.kept + {item.key})) else
      match item.value
      case Success(v) => Success(m.(content := Updated(m.content, item.key, v), filled := m.filled + {item.key}))
      case Failure(e) => Failure(e)
  }

  function FillAll(m: Merged, example: string, items: seq<Item>): Result<Merged, Error>
    decreases |items|
  {
    if items == [] then Success(m) else
      match FillOne(m, example, items[0])
      case Success(next) => FillAll(next, example, items[1..])
      case Failure(e) => Failure(e)
  }

  function MergeOf(current: string, example: string, inputs: Inputs): Result<Merged, Error> {
    FillAll(Merged(current, {}, {}), example, Items(inputs))
  }

  /** Fills the managed keys one after the other, threading the content. */
  method Merge(current: string, example: string, inputs: Inputs) returns (r: Result<Merged, Error>)
    ensures r == MergeOf(current, example, inputs)
    ensures Fit(inputs) ==> MergeSays(current, example, inputs, r)
  {
    hide Unset, Updated, MergeSays, Fit;
    if Fit(inputs) { MergeSaid(current, example, inputs); }
    var content := current;
    var filled: set<string>, kept: set<string> := {}, {};
    ghost var items := Items(inputs);

    if Unset(content, example, EMAIL) {
      if inputs.email == "" { return Failure(NoEmail); }
      content := SetEnvValue(content, EMAIL, inputs.email);
      filled := filled + {EMAIL};
    } else {
      kept := kept + {EMAIL};
    }
    assert FillAll(Merged(content, filled, kept), example, items[1..]) == MergeOf(current, example, inputs);

    if Unset(content, example, HASH) {
      if inputs.password == "" { return Failure(NoPassword); }
      if inputs.hash == None { return Failure(HashFailed); }
      content := SetEnvValue(content, HASH, "'" + inputs.hash.value + "'");
      filled := filled + {HASH};
    } else {
      kept := kept + {HASH};
    }
    assert items[1..][1..] == items[2..];
    assert FillAll(Merged(content, filled, kept), example, items[2..]) == MergeOf(current, example, inputs);

    if Unset(content, example, SECRET) {
      if inputs.secret == None { return Failure(SecretFailed); }
      content := SetEnvValue(content, SECRET, inputs.secret.value);
      filled := filled + {SECRET};
    } else {
      kept := kept + {SECRET};
    }
    assert items[2..][1..] == items[3..];
    assert FillAll(Merged(content, filled, kept), example, items[3..]) == MergeOf(current, example, inputs);

    for i := 0 to |PROVIDER_KEYS|
      invariant FillAll(Merged(content, filled, kept), example, items[3 + i..]) == MergeOf(current, example, inputs)
    {
      var key := PROVIDER_KEYS[i];
      assert items[3 + i..][1..] == items[3 + (i + 1)..];
      if Unset(content, example, key) {
        content := SetEnvValue(content, key, PLACEHOLDER);
        filled := filled + {key};
      } else {
        kept := kept + {key};
      }
    }
    return Success(Merged(content, filled, kept));
  }

  ghost predicate Managed(items: seq<Item>) {
    && (forall i :: 0 <= i < |items| ==> GoodKey(items[i].key) && '=' !in items[i].key)
    && (forall i, j :: 0 <= i < j < |items| ==> items[i].key != items[j].key)
  }

  // A value that reads back as given and is not taken for an unset one.
  predicate Configures(example: string, item: Item) {
    item.value.Success? && GoodValue(item.value.value) && item.value.value != ""
      && item.value.value != Get(example, item.key)
  }

  // Every key the merge filled got such a value.
  ghost predicate AllConfigure(example: string, items: seq<Item>, filled: set<string>) {
    forall i :: 0 <= i < |items| && items[i].key in filled ==> Configures(example, items[i])
  }

  lemma {:induction false} FillAllGrows(m: Merged, example: string, items: seq<Item>)
    requires FillAll(m, example, items).Success?
    ensures m.filled <= FillAll(m, example, items).value.filled
    decreases |items|
  {
    hide Unset, Updated;
    if items != [] { FillAllGrows(FillOne(m, example, items[0]).value, example, items[1..]); }
  }

  lemma TailItems(example: string, items: seq<Item>, filled: set<string>)
    requires items != [] && Managed(items) && AllConfigure(example, items, filled)
    ensures Managed(items[1..]) && AllConfigure(example, items[1..], filled)
  {
  }

  /** A merge leaves the value of every other key as it was. */
  lemma {:induction false} OthersUntouched(m: Merged, example: string, items: seq<Item>, other: string)
    requires Managed(items) && FillAll(m, example, items).Success? && '=' !in other
    requires AllConfigure(example, items, FillAll(m, example, items).value.filled)
    requires forall i :: 0 <= i < |items| ==> items[i].key != other
    ensures EnvValue(FillAll(m, example, items).value.content, other) == EnvValue(m.content, other)
    decreases |items|
  {
    if items != [] {
      hide Unset, Updated, EnvValue;
      var next := FillOne(m, example, items[0]).value;
      FillAllGrows(next, example, items[1..]);
      TailItems(example, items, FillAll(m, example, items).value.filled);
      OthersUntouched(next, example, items[1..], other);
      if next.content != m.content { OtherKeysUnchanged(m.content, items[0].key, items[0].value.value, other); }
    }
  }

  lemma FilledIsSet(content: string, example: string, item: Item)
    requires GoodKey(item.key) && Configures(example, item)
    ensures !Unset(Updated(content, item.key, item.value.value), example, item.key)
  {
    GetAfterSetIff(content, item.key, item.value.value);
  }

  /** After a merge every managed key is set. */
  lemma {:induction false} AllSet(m: Merged, example: string, items: seq<Item>)
    requires Managed(items) && FillAll(m, example, items).Success?
    requires AllConfigure(example, items, FillAll(m, example, items).value.filled)
    ensures forall i :: 0 <= i < |items| ==> !Unset(FillAll(m, example, items).value.content, example, items[i].key)
    decreases |items|
  {
    if items != [] {
      hide Updated, EnvValue;
      var out := FillAll(m, example, items).value;
      var next := FillOne(m, example, items[0]).value;
      FillAllGrows(next, example, items[1..]);
      TailItems(example, items, out.filled);
      AllSet(next, example, items[1..]);
      if items[0].key in next.filled && Unset(m.content, example, items[0].key) {
        FilledIsSet(m.content, example, items[0]);
      }
      OthersUntouched(next, example, items[1..], items[0].key);
      forall i | 0 <= i < |items| ensures !Unset(out.content, example, items[i].key) {
        if i > 0 { assert items[i] == items[1..][i - 1]; }
      }
    }
  }

  lemma {:induction false} NothingToFill(m: Merged, example: string, items: seq<Item>)
    requires forall i :: 0 <= i < |items| ==> !Unset(m.content, example, items[i].key)
    ensures FillAll(m, example, items).Success?
    ensures FillAll(m, example, items).value.content == m.content && FillAll(m, example, items).value.filled == m.filled
    decreases |items|
  {
    hide Unset;
    if items != [] { NothingToFill(FillOne(m, example, items[0]).value, example, items[1..]); }
  }

  predicate Plain(key: string) {
    key != "" && forall i :: 0 <= i < |key| ==> 'A' <= key[i] <= 'Z' || key[i] == '_'
  }

  lemma PlainIsGood(key: string)
    requires Plain(key)
    ensures GoodKey(key) && '=' !in key
  {
  }

  lemma KeysArePlain()
    ensures Plain(EMAIL) && Plain(HASH) && Plain(SECRET)
    ensures Plain(PROVIDER_KEYS[0]) && Plain(PROVIDER_KEYS[1])
  {
  }

  lemma ItemsAreManaged(inputs: Inputs)
    ensures Managed(Items(inputs))
  {
    KeysArePlain();
    var items := Items(inputs);
    assert |items[0].key| == 10 && |items[1].key| == 18 && |items[2].key| == 14 && |items[3].key| == 21
      && |items[4].key| == 17;
    hide Plain, GoodKey;
    forall i | 0 <= i < |items| ensures GoodKey(items[i].key) && '=' !in items[i].key { PlainIsGood(items[i].key); }
  }

  /** Running the merge again, with any or no inputs, succeeds and leaves the file as it
      is, provided the first run's values are not empty and not the template's own. */
  lemma SecondMergeChangesNothing(current: string, example: string, first: Inputs, second: Inputs)
    requires MergeOf(current, example, first).Success?
    requires AllConfigure(example, Items(first), MergeOf(current, example, first).value.filled)
    ensures var content := MergeOf(current, example, first).value.content;
      var again := MergeOf(content, example, second);
      again.Success? && again.value.content == content && again.value.filled == {}
  {
    hide Unset, Updated, FillAll;
    ItemsAreManaged(first);
    AllSet(Merged(current, {}, {}), example, Items(first));
    var content := MergeOf(current, example, first).value.content;
    forall i | 0 <= i < |Items(second)| ensures !Unset(content, example, Items(second)[i].key) {
      assert Items(second)[i].key == Items(first)[i].key;
    }
    NothingToFill(Merged(content, {}, {}), example, Items(second));
  }

  // ---------- What a merge leaves, said of the file and the inputs ----------

  // The key has no value, an empty one, or the template's own.
  predicate Needs(content: string, example: string, key: string) {
    var v := EnvValue(content, key);
    v == None || v == Some("") || v == EnvValue(example, key)
  }

  lemma NeedsIsUnset(content: string, example: string, key: string)
    ensures Needs(content, example, key) <==> Unset(content, example, key)
  {
    hide EnvValue;
  }

  // What values must keep to: one line each, with nothing that reading strips.
  predicate AllFit(items: seq<Item>) {
    forall i :: 0 <= i < |items| && items[i].value.Success? ==> GoodValue(items[i].value.value)
  }

  predicate Stuck(content: string, example: string, item: Item) {
    Needs(content, example, item.key) && item.value.Failure?
  }

  function KeysThat(content: string, example: string, items: seq<Item>, need: bool): set<string> {
    set i | 0 <= i < |items| && Needs(content, example, items[i].key) == need :: items[i].key
  }

  ghost predicate ValueSays(content: string, example: string, item: Item, after: string) {
    EnvValue(after, item.key) ==
    if Needs(content, example, item.key) && item.value.Success? then Some(item.value.value)
    else EnvValue(content, item.key)
  }

  ghost predicate OthersSame(content: string, items: seq<Item>, after: string) {
    forall other :: '=' !in other && (forall i :: 0 <= i < |items| ==> items[i].key != other) ==>
      EnvValue(after, other) == EnvValue(content, other)
  }

  // Of the items, exactly those whose keys need a value got theirs; no other key changed.
  ghost predicate FilledIn(m: Merged, example: string, items: seq<Item>, out: Merged) {
    && (forall i :: 0 <= i < |items| ==> ValueSays(m.content, example, items[i], out.content))
    && OthersSame(m.content, items, out.content)
    && out.filled == m.filled + KeysThat(m.content, example, items, true)
    && out.kept == m.kept + KeysThat(m.content, example, items, false)
  }

  lemma UpdateSays(content: string, example: string, item: Item)
    requires GoodKey(item.key) && '=' !in item.key && item.value.Success? && GoodValue(item.value.value)
    requires Needs(content, example, item.key)
    ensures var after := Updated(content, item.key, item.value.value);
      ValueSays(content, example, item, after) && OthersSame(content, [item], after)
  {
    hide Updated, EnvValue, Needs, GoodKey;
    var after := Updated(content, item.key, item.value.value);
    GetAfterSetIff(content, item.key, item.value.value);
    forall other | '=' !in other && forall i :: 0 <= i < |[item]| ==> [item][i].key != other
      ensures EnvValue(after, other) == EnvValue(content, other)
    {
      assert [item][0].key != other;
      OtherKeysUnchanged(content, item.key, item.value.value, other);
    }
  }

  lemma KeysOfOne(content: string, example: string, item: Item, need: bool)
    ensures KeysThat(content, example, [item], need) ==
      if Needs(content, example, item.key) == need then {item.key} else {}
  {
    hide Needs;
    assert [item][0] == item;
  }

  lemma FillOneSays(m: Merged, example: string, item: Item)
    requires GoodKey(item.key) && '=' !in item.key && AllFit([item])
    ensures Stuck(m.content, example, item) ==> FillOne(m, example, item) == Failure(item.value.error)
    ensures !Stuck(m.content, example, item) ==>
      FillOne(m, example, item).Success? && FilledIn(m, example, [item], FillOne(m, example, item).value)
  {
    hide Needs, Unset, EnvValue, Updated, GoodKey, GoodValue, KeysThat;
    NeedsIsUnset(m.content, example, item.key);
    assert [item][0] == item;
    KeysOfOne(m.content, example, item, true);
    KeysOfOne(m.content, example, item, false);
    if Needs(m.content, example, item.key) && item.value.Success? { UpdateSays(m.content, example, item); }
  }

  lemma SameNeeds(m: Merged, example: string, item: Item, next: Merged, key: string)
    requires FilledIn(m, example, [item], next) && key != item.key && '=' !in key
    ensures EnvValue(next.content, key) == EnvValue(m.content, key)
    ensures Needs(next.content, example, key) <==> Needs(m.content, example, key)
  {
    hide EnvValue, KeysThat, ValueSays;
    assert forall i :: 0 <= i < |[item]| ==> [item][i].key != key;
  }

  // The first item leaves the others' keys as they were.
  ghost predicate Undisturbed(m: Merged, example: string, items: seq<Item>, next: Merged) {
    forall i :: 1 <= i < |items| ==>
      EnvValue(next.content, items[i].key) == EnvValue(m.content, items[i].key)
      && (Needs(next.content, example, items[i].key) <==> Needs(m.content, example, items[i].key))
  }

  lemma KeysOfMore(m: Merged, example: string, items: seq<Item>, next: Merged, need: bool)
    requires items != [] && Undisturbed(m, example, items, next)
    ensures KeysThat(m.content, example, items, need)
         == KeysThat(m.content, example, [items[0]], need) + KeysThat(next.content, example, items[1..], need)
  {
    hide EnvValue, Needs;
    var rest := items[1..];
    assert [items[0]][0] == items[0];
    forall key | key in KeysThat(m.content, example, items, need)
      ensures key in KeysThat(m.content, example, [items[0]], need) + KeysThat(next.content, example, rest, need)
    {
      var i :| 0 <= i < |items| && Needs(m.content, example, items[i].key) == need && items[i].key == key;
      if i > 0 { assert rest[i - 1] == items[i]; }
    }
    forall key | key in KeysThat(next.content, example, rest, need)
      ensures key in KeysThat(m.content, example, items, need)
    {
      var i :| 0 <= i < |rest| && Needs(next.content, example, rest[i].key) == need && rest[i].key == key;
      assert items[i + 1] == rest[i];
    }
  }

  lemma FilledMore(m: Merged, example: string, items: seq<Item>, next: Merged, out: Merged)
    requires items != [] && Managed(items) && Undisturbed(m, example, items, next)
    requires FilledIn(m, example, [items[0]], next) && FilledIn(next, example, items[1..], out)
    ensures FilledIn(m, example, items, out)
  {
    hide EnvValue, Needs, GoodKey, KeysThat;
    KeysOfMore(m, example, items, next, true);
    KeysOfMore(m, example, items, next, false);
    var rest := items[1..];
    assert [items[0]][0] == items[0];
    assert EnvValue(out.content, items[0].key) == EnvValue(next.content, items[0].key) by {
      forall i | 0 <= i < |rest| ensures rest[i].key != items[0].key { assert rest[i] == items[i + 1]; }
    }
    forall i | 0 <= i < |items| ensures ValueSays(m.content, example, items[i], out.content) {
      if i > 0 { assert rest[i - 1] == items[i]; }
    }
    forall other | '=' !in other && forall i :: 0 <= i < |items| ==> items[i].key != other
      ensures EnvValue(out.content, other) == EnvValue(m.content, other)
    {
      assert items[0].key != other;
      forall i | 0 <= i < |rest| ensures rest[i].key != other { assert rest[i] == items[i + 1]; }
    }
  }

  // The first key that needs a value there is none for.
  ghost predicate FirstStuck(content: string, example: string, items: seq<Item>, i: int) {
    && 0 <= i < |items| && Stuck(content, example, items[i])
    && forall j :: 0 <= j < i ==> !Stuck(content, example, items[j])
  }

  ghost predicate FillSays(m: Merged, example: string, items: seq<Item>, r: Result<Merged, Error>) {
    match r
    case Failure(e) => exists i :: FirstStuck(m.content, example, items, i) && e == items[i].value.error
    case Success(out) =>
      FilledIn(m, example, items, out) && forall i :: 0 <= i < |items| ==> !Stuck(m.content, example, items[i])
  }

  lemma ParsedItems(items: seq<Item>)
    requires items != [] && Managed(items) && AllFit(items)
    ensures Managed(items[1..]) && AllFit(items[1..]) && AllFit([items[0]])
    ensures forall i :: 0 <= i < |items[1..]| ==> items[1..][i] == items[i + 1]
  {
    hide GoodKey, GoodValue;
    assert [items[0]][0] == items[0];
  }

  lemma FillSaysMore(m: Merged, example: string, items: seq<Item>, next: Merged, r: Result<Merged, Error>)
    requires items != [] && Managed(items) && !Stuck(m.content, example, items[0])
    requires FilledIn(m, example, [items[0]], next) && FillSays(next, example, items[1..], r)
    ensures FillSays(m, example, items, r)
  {
    hide EnvValue, Needs, GoodKey, FilledIn;
    forall i | 1 <= i < |items|
      ensures EnvValue(next.content, items[i].key) == EnvValue(m.content, items[i].key)
      ensures Needs(next.content, example, items[i].key) <==> Needs(m.content, example, items[i].key)
    {
      SameNeeds(m, example, items[0], next, items[i].key);
    }
    match r {
      case Success(out) =>
        FilledMore(m, example, items, next, out);
        forall i | 0 <= i < |items| ensures !Stuck(m.content, example, items[i]) {
          if i > 0 { assert items[1..][i - 1] == items[i]; }
        }
      case Failure(e) =>
        var i :| FirstStuck(next.content, example, items[1..], i) && e == items[1..][i].value.error;
        assert items[i + 1] == items[1..][i];
        forall j | 0 <= j < i + 1 ensures !Stuck(m.content, example, items[j]) {
          if j > 0 { assert items[1..][j - 1] == items[j]; }
        }
        assert FirstStuck(m.content, example, items, i + 1);
    }
  }

  lemma {:induction false} FillAllSays(m: Merged, example: string, items: seq<Item>)
    requires Managed(items) && AllFit(items)
    ensures FillSays(m, example, items, FillAll(m, example, items))
    decreases |items|
  {
    if items == [] {
      assert KeysThat(m.content, example, items, true) == {} && KeysThat(m.content, example, items, false) == {};
    } else {
      hide EnvValue, Needs, GoodKey, GoodValue, FilledIn, FillOne, FillSays;
      ParsedItems(items);
      FillOneSays(m, example, items[0]);
      if Stuck(m.content, example, items[0]) {
        StuckAtOnce(m, example, items);
      } else {
        var next := FillOne(m, example, items[0]).value;
        FillAllSays(next, example, items[1..]);
        FillSaysMore(m, example, items, next, FillAll(next, example, items[1..]));
      }
    }
  }

  lemma StuckAtOnce(m: Merged, example: string, items: seq<Item>)
    requires items != [] && Stuck(m.content, example, items[0])
    ensures FillSays(m, example, items, Failure(items[0].value.error))
  {
    hide Needs;
    assert FirstStuck(m.content, example, items, 0);
  }

  // The key got the value if it needed one, and else kept what it had.
  ghost predicate Gets(current: string, example: string, key: string, value: string, after: string) {
    EnvValue(after, key) == if Needs(current, example, key) then Some(value) else EnvValue(current, key)
  }

  const MANAGED := {"AUTH_EMAIL", "AUTH_PASSWORD_HASH", "SESSION_SECRET", "TRANSCRIPTION_API_KEY", "EMBEDDING_API_KEY"}

  // A merge fails for the first thing that is needed and missing. Otherwise the address,
  // the quoted hash, the secret and the two placeholders are where a value was needed, and
  // nothing else has changed.
  ghost predicate MergeSays(current: string, example: string, inputs: Inputs, r: Result<Merged, Error>) {
    var email, secret := Needs(current, example, "AUTH_EMAIL"), Needs(current, example, "SESSION_SECRET");
    var hash := Needs(current, example, "AUTH_PASSWORD_HASH");
    var noEmail, noSecret := email && inputs.email == "", secret && inputs.secret == None;
    var noPassword, noHash := hash && inputs.password == "", hash && inputs.password != "" && inputs.hash == None;
    match r
    case Failure(NoEmail) => noEmail
    case Failure(NoPassword) => !noEmail && noPassword
    case Failure(HashFailed) => !noEmail && noHash
    case Failure(SecretFailed) => !noEmail && !noPassword && !noHash && noSecret
    case Success(out) =>
      && !noEmail && !noPassword && !noHash && !noSecret
      && CredentialsLeft(current, example, inputs, out.content) && RestLeft(current, example, out.content)
      && out.filled == (set key | key in MANAGED && Needs(current, example, key) == true)
      && out.kept == (set key | key in MANAGED && Needs(current, example, key) == false)
  }

  ghost predicate CredentialsLeft(current: string, example: string, inputs: Inputs, after: string) {
    && Gets(current, example, "AUTH_EMAIL", inputs.email, after)
    && (if Needs(current, example, "AUTH_PASSWORD_HASH")
        then inputs.hash.Some? && EnvValue(after, "AUTH_PASSWORD_HASH") == Some("'" + inputs.hash.value + "'")
        else EnvValue(after, "AUTH_PASSWORD_HASH") == EnvValue(current, "AUTH_PASSWORD_HASH"))
    && EnvValue(after, "SESSION_SECRET") ==
       if Needs(current, example, "SESSION_SECRET") then inputs.secret else EnvValue(current, "SESSION_SECRET")
  }

  ghost predicate RestLeft(current: string, example: string, after: string) {
    && Gets(current, example, "TRANSCRIPTION_API_KEY", "set-a-real-key-for-live-analysis", after)
    && Gets(current, example, "EMBEDDING_API_KEY", "set-a-real-key-for-live-analysis", after)
    && forall other :: '=' !in other && other !in MANAGED ==> EnvValue(after, other) == EnvValue(current, other)
  }

  // Inputs that can be written on one line and read back.
  predicate Fit(inputs: Inputs) {
    && GoodValue(inputs.email)
    && (inputs.password != "" && inputs.hash.Some? ==> '\n' !in inputs.hash.value)
    && (inputs.secret.Some? ==> GoodValue(inputs.secret.value))
  }

  lemma PlaceholderIsGood()
    ensures GoodValue(PLACEHOLDER)
  {
    assert PLACEHOLDER[|PLACEHOLDER| - 1] == 's';
  }

  lemma QuotedIsGood(hash: string)
    ensures GoodValue("'" + hash + "'") <==> '\n' !in hash
  {
    var v := "'" + hash + "'";
    assert v[|v| - 1] == '\'';
    if '\n' in hash {
      var i :| 0 <= i < |hash| && hash[i] == '\n';
      assert v[i + 1] == '\n';
    }
  }

  predicate FitsOne(item: Item) {
    item.value.Success? ==> GoodValue(item.value.value)
  }

  lemma FitIsAllFit(inputs: Inputs)
    ensures Fit(inputs) <==> AllFit(Items(inputs))
  {
    PlaceholderIsGood();
    if inputs.hash.Some? { QuotedIsGood(inputs.hash.value); }
    var items := Items(inputs);
    assert AllFit(items) <==> FitsOne(items[0]) && FitsOne(items[1]) && FitsOne(items[2]) && FitsOne(items[3])
                              && FitsOne(items[4]);
  }

  lemma ItemsAre(inputs: Inputs)
    ensures var items := Items(inputs);
      && |items| == 5 && items[0].key == "AUTH_EMAIL" && items[1].key == "AUTH_PASSWORD_HASH"
      && items[2].key == "SESSION_SECRET" && items[3].key == "TRANSCRIPTION_API_KEY"
      && items[4].key == "EMBEDDING_API_KEY"
      && (items[0].value == if inputs.email == "" then Failure(NoEmail) else Success(inputs.email))
      && (items[1].value == if inputs.password == "" then Failure(NoPassword)
                            else if inputs.hash == None then Failure(HashFailed)
                            else Success("'" + inputs.hash.value + "'"))
      && (items[2].value == if inputs.secret == None then Failure(SecretFailed) else Success(inputs.secret.value))
      && items[3].value == items[4].value == Success("set-a-real-key-for-live-analysis")
  {
  }

  lemma FiveKeys(current: string, example: string, items: seq<Item>, need: bool)
    requires |items| == 5 && MANAGED == {items[0].key, items[1].key, items[2].key, items[3].key, items[4].key}
    ensures KeysThat(current, example, items, need) == set key | key in MANAGED && Needs(current, example, key) == need
  {
    hide Needs;
    forall key | key in MANAGED && Needs(current, example, key) == need
      ensures key in KeysThat(current, example, items, need)
    {
      var i :| 0 <= i < 5 && items[i].key == key;
    }
  }

  lemma CredentialsMean(current: string, example: string, inputs: Inputs, out: Merged)
    requires FillSays(Merged(current, {}, {}), example, Items(inputs), Success(out))
    ensures CredentialsLeft(current, example, inputs, out.content)
    ensures Needs(current, example, "AUTH_EMAIL") ==> inputs.email != ""
    ensures Needs(current, example, "AUTH_PASSWORD_HASH") ==> inputs.password != "" && inputs.hash.Some?
    ensures Needs(current, example, "SESSION_SECRET") ==> inputs.secret.Some?
  {
    hide Needs, Items, EnvValue, KeysThat, OthersSame;
    ItemsAre(inputs);
    var items := Items(inputs);
    assert !Stuck(current, example, items[0]) && ValueSays(current, example, items[0], out.content);
    assert !Stuck(current, example, items[1]) && ValueSays(current, example, items[1], out.content);
    assert !Stuck(current, example, items[2]) && ValueSays(current, example, items[2], out.content);
  }

  lemma OthersMean(content: string, items: seq<Item>, managed: set<string>, after: string)
    requires OthersSame(content, items, after) && forall i :: 0 <= i < |items| ==> items[i].key in managed
    ensures forall other :: '=' !in other && other !in managed ==> EnvValue(after, other) == EnvValue(content, other)
  {
    hide EnvValue;
    forall other | '=' !in other && other !in managed ensures EnvValue(after, other) == EnvValue(content, other) {
      forall i | 0 <= i < |items| ensures items[i].key != other {}
    }
  }

  lemma RestMeans(current: string, example: string, inputs: Inputs, out: Merged)
    requires FilledIn(Merged(current, {}, {}), example, Items(inputs), out)
    ensures RestLeft(current, example, out.content)
  {
    hide Needs, Items, EnvValue, KeysThat, OthersSame;
    ItemsAre(inputs);
    var items := Items(inputs);
    assert ValueSays(current, example, items[3], out.content) && ValueSays(current, example, items[4], out.content);
    OthersMean(current, items, MANAGED, out.content);
  }

  lemma FilledMeans(current: string, example: string, inputs: Inputs, out: Merged)
    requires FillSays(Merged(current, {}, {}), example, Items(inputs), Success(out))
    ensures MergeSays(current, example, inputs, Success(out))
  {
    hide Needs, Items, EnvValue, KeysThat, OthersSame, ValueSays, CredentialsLeft, RestLeft;
    ItemsAre(inputs);
    FiveKeys(current, example, Items(inputs), true);
    FiveKeys(current, example, Items(inputs), false);
    CredentialsMean(current, example, inputs, out);
    RestMeans(current, example, inputs, out);
    assert {} + KeysThat(current, example, Items(inputs), true) == KeysThat(current, example, Items(inputs), true);
  }

  lemma StuckMeans(current: string, example: string, inputs: Inputs, e: Error)
    requires FillSays(Merged(current, {}, {}), example, Items(inputs), Failure(e))
    ensures MergeSays(current, example, inputs, Failure(e))
  {
    ItemsAre(inputs);
    var items := Items(inputs);
    hide Needs, Items, EnvValue;
    var i :| FirstStuck(current, example, items, i) && e == items[i].value.error;
    assert i > 0 ==> !Stuck(current, example, items[0]);
    assert i > 1 ==> !Stuck(current, example, items[1]);
  }

  lemma MergeSaid(current: string, example: string, inputs: Inputs)
    requires Fit(inputs)
    ensures MergeSays(current, example, inputs, MergeOf(current, example, inputs))
  {
    ItemsAreManaged(inputs);
    FitIsAllFit(inputs);
    FillAllSays(Merged(current, {}, {}), example, Items(inputs));
    hide FillSays, MergeSays, FillAll;
    var r := MergeOf(current, example, inputs);
    match r {
      case Success(out) => FilledMeans(current, example, inputs, out);
      case Failure(e) => StuckMeans(current, example, inputs, e);
    }
  }

  // ---------- Which inputs that holds for ----------

  // A file that sets these keys and no other.
  function Setting(keys: seq<string>): string {
    if keys == [] then "" else Updated(Setting(keys[..|keys| - 1]), keys[|keys| - 1], "x")
  }

  lemma {:induction false} SettingSets(keys: seq<string>, key: string)
    requires GoodKey(key) && '=' !in key
    requires forall i :: 0 <= i < |keys| ==> GoodKey(keys[i]) && '=' !in keys[i]
    ensures EnvValue(Setting(keys), key) == if key in keys then Some("x") else None
  {
    hide Updated, GoodKey;
    if keys == [] {
      NoKeyInEmpty(key);
      assert Split("") == [""];
    } else {
      var n := |keys| - 1;
      var before := Setting(keys[..n]);
      SettingSets(keys[..n], key);
      GetAfterSetIff(before, keys[n], "x");
      assert key in keys <==> key in keys[..n] || key == keys[n];
      if key != keys[n] { OtherKeysUnchanged(before, keys[n], "x", key); }
    }
  }

  // An appended value, whatever lines it has, does not change a key set above it.
  lemma AppendedBelow(content: string, key: string, value: string, other: string)
    requires EnvValue(content, key) == None && EnvValue(content, other).Some?
    ensures EnvValue(Updated(content, key, value), other) == EnvValue(content, other)
  {
    var before, block := Split(content), Split(key + "=" + value);
    UpdatedBlock(content, key, value);
    FoundIff(before, key);
    NoKeyInEmpty(other);
    hide Split, Updated, Lookup;
    var kept := Kept(before);
    assert kept + block + [""] == kept + (block + [""]);
    LookupConcat(kept, block + [""], other);
    LookupConcat(kept, [""], other);
    SilentLookup([""], other);
    FoundIff(kept, other);
    assert before == kept || before == kept + [""];
  }

  lemma {:induction false} LoneFill(m: Merged, example: string, items: seq<Item>, j: nat)
    requires j < |items| && items[j].value.Success? && Unset(m.content, example, items[j].key)
    requires forall i :: 0 <= i < |items| && i != j ==> !Unset(m.content, example, items[i].key)
    requires forall i :: j < i < |items| ==>
      !Unset(Updated(m.content, items[j].key, items[j].value.value), example, items[i].key)
    ensures FillAll(m, example, items).Success?
    ensures FillAll(m, example, items).value.content == Updated(m.content, items[j].key, items[j].value.value)
    decreases j
  {
    hide Unset, Updated;
    var next := FillOne(m, example, items[0]).value;
    if j == 0 {
      NothingToFill(next, example, items[1..]);
    } else {
      assert items[1..][j - 1] == items[j];
      LoneFill(next, example, items[1..], j - 1);
    }
  }

  lemma SetIsNotUnset(content: string, key: string)
    requires EnvValue(content, key) == Some("x")
    ensures !Unset(content, "", key)
  {
    hide EnvValue;
    EmptyHasNothing(key);
  }

  lemma EmptyHasNothing(key: string)
    ensures EnvValue("", key) == None
  {
    NoKeyInEmpty(key);
    assert Split("") == [""];
  }

  function KeysBut(items: seq<Item>, j: nat): seq<string>
    requires j < |items|
  {
    seq(|items| - 1, i requires 0 <= i < |items| - 1 => if i < j then items[i].key else items[i + 1].key)
  }

  lemma KeysButOne(items: seq<Item>, j: nat)
    requires Managed(items) && j < |items|
    ensures items[j].key !in KeysBut(items, j)
    ensures forall i :: 0 <= i < |items| && i != j ==> items[i].key in KeysBut(items, j)
    ensures forall i :: 0 <= i < |items| - 1 ==> GoodKey(KeysBut(items, j)[i]) && '=' !in KeysBut(items, j)[i]
  {
    hide GoodKey;
    var keys := KeysBut(items, j);
    forall i | 0 <= i < |items| && i != j ensures items[i].key in keys {
      assert keys[if i < j then i else i - 1] == items[i].key;
    }
  }

  lemma StaysSet(items: seq<Item>, j: nat, i: nat, value: string)
    requires Managed(items) && j < |items| && i < |items| && i != j
    ensures var current := Setting(KeysBut(items, j));
      !Unset(current, "", items[i].key) && !Unset(Updated(current, items[j].key, value), "", items[i].key)
  {
    KeysButOne(items, j);
    hide GoodKey, Unset, EnvValue, Updated, Setting, KeysBut;
    var keys, current := KeysBut(items, j), Setting(KeysBut(items, j));
    SettingSets(keys, items[i].key);
    SettingSets(keys, items[j].key);
    AppendedBelow(current, items[j].key, value, items[i].key);
    SetIsNotUnset(current, items[i].key);
    SetIsNotUnset(Updated(current, items[j].key, value), items[i].key);
  }

  // A value that does not read back, for the only key in need.
  lemma LoneBadValue(items: seq<Item>, j: nat) returns (current: string)
    requires Managed(items) && j < |items| && items[j].value.Success? && !GoodValue(items[j].value.value)
    ensures EnvValue(current, items[j].key) == None
    ensures var r := FillAll(Merged(current, {}, {}), "", items);
      r.Success? && EnvValue(r.value.content, items[j].key) != Some(items[j].value.value)
  {
    KeysButOne(items, j);
    hide GoodKey, GoodValue, Unset, EnvValue, Updated, Setting, FillAll, KeysBut;
    var item := items[j];
    current := Setting(KeysBut(items, j));
    SettingSets(KeysBut(items, j), item.key);
    forall i: nat | i < |items| && i != j
      ensures !Unset(current, "", items[i].key)
        && !Unset(Updated(current, item.key, item.value.value), "", items[i].key)
    {
      StaysSet(items, j, i, item.value.value);
    }
    NeedsIsUnset(current, "", item.key);
    LoneFill(Merged(current, {}, {}), "", items, j);
    GetAfterSetIff(current, item.key, item.value.value);
  }

  lemma BadValueShows(inputs: Inputs, j: nat)
    requires j < 3 && Items(inputs)[j].value.Success? && !GoodValue(Items(inputs)[j].value.value)
    ensures exists current :: !MergeSays(current, "", inputs, MergeOf(current, "", inputs))
  {
    ItemsAreManaged(inputs);
    var current := LoneBadValue(Items(inputs), j);
    ItemsAre(inputs);
    hide GoodKey, GoodValue, EnvValue, FillAll, Items, RestLeft;
    assert Needs(current, "", Items(inputs)[j].key);
    assert !CredentialsLeft(current, "", inputs, MergeOf(current, "", inputs).value.content);
  }

  /** A merge leaves exactly that, in every file and with every template, if and only if the
      address, the hash and the secret are each on one line, with no carriage return that
      reading would strip. */
  lemma MergeSaidIff(inputs: Inputs)
    ensures (forall current, example :: MergeSays(current, example, inputs, MergeOf(current, example, inputs)))
       <==> Fit(inputs)
  {
    hide MergeSays, MergeOf;
    if Fit(inputs) {
      forall current, example ensures MergeSays(current, example, inputs, MergeOf(current, example, inputs)) {
        MergeSaid(current, example, inputs);
      }
    } else {
      FitIsAllFit(inputs);
      PlaceholderIsGood();
      ItemsAre(inputs);
      var j :| 0 <= j < |Items(inputs)| && Items(inputs)[j].value.Success? && !GoodValue(Items(inputs)[j].value.value);
      BadValueShows(inputs, j);
    }
  }
}
