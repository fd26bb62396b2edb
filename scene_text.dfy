/**
 * The line-oriented text of the renderer's scene description. A text is a
 * sequence of lines, each terminated by '\n'. A record is a block name
 * followed by " {", one tab-indented "key value" line per field, and "}".
 * `Lines` and `ParseRecord` read such text back.
 */
module SceneText {
  import opened Wrappers

  predicate NoNewline(l: string) {
    '\n' !in l
  }

  predicate NoNewlines(ls: seq<string>) {
    forall i :: 0 <= i < |ls| ==> NoNewline(ls[i])
  }

  /** The text whose lines are `ls`, each followed by '\n'. */
  function Unlines(ls: seq<string>): (s: string)
    ensures ls == [] <==> s == []
    ensures ls != [] ==> s[|s| - 1] == '\n'
  {
    if ls == [] then "" else ls[0] + "\n" + Unlines(ls[1..])
  }

  /** The index of the first `c` in `s`, or |s| when there is none. */
  function IndexOf(s: string, c: char): (k: nat)
    ensures k <= |s|
    ensures forall i :: 0 <= i < k ==> s[i] != c
    ensures k < |s| ==> s[k] == c
  {
    if s == [] || s[0] == c then 0 else 1 + IndexOf(s[1..], c)
  }

  /** Splits a text at its newlines; a last line without '\n' is kept. */
  function Lines(s: string): (ls: seq<string>)
    decreases |s|
  {
    if s == [] then []
    else
      var k := IndexOf(s, '\n');
      if k == |s| then [s] else [s[..k]] + Lines(s[k + 1..])
  }

  /** The first `c` after a `c`-free prefix is found right after that prefix. */
  lemma IndexOfAfter(a: string, c: char, b: string)
    requires c !in a
    ensures IndexOf(a + [c] + b, c) == |a|
  {
    var s := a + [c] + b;
    assert s[|a|] == c;
    assert forall i :: 0 <= i < |a| ==> s[i] == a[i];
  }

  lemma UnlinesCons(line: string, ls: seq<string>)
    ensures Unlines([line] + ls) == line + "\n" + Unlines(ls)
  {
    assert ([line] + ls)[1..] == ls;
  }

  lemma {:induction false} UnlinesAppend(a: seq<string>, b: seq<string>)
    ensures Unlines(a + b) == Unlines(a) + Unlines(b)
  {
    if a != [] {
      assert (a + b)[1..] == a[1..] + b;
      UnlinesAppend(a[1..], b);
    } else {
      assert a + b == b;
    }
  }

  /** Reading back the lines of a text built from newline-free lines gives those lines. */
  lemma {:induction false} LinesUnlines(ls: seq<string>)
    requires NoNewlines(ls)
    ensures Lines(Unlines(ls)) == ls
  {
    if ls != [] {
      var s := Unlines(ls);
      assert NoNewline(ls[0]);
      assert s == ls[0] + ['\n'] + Unlines(ls[1..]);
      IndexOfAfter(ls[0], '\n', Unlines(ls[1..]));
      assert s[..|ls[0]|] == ls[0];
      assert s[|ls[0]| + 1..] == Unlines(ls[1..]);
      LinesUnlines(ls[1..]);
    }
  }

  /** A newline-terminated text is its first line, '\n', and a newline-terminated rest. */
  lemma SplitFirstLine(s: string)
    requires s != [] && s[|s| - 1] == '\n'
    ensures IndexOf(s, '\n') < |s|
    ensures s == s[..IndexOf(s, '\n')] + "\n" + s[IndexOf(s, '\n') + 1..]
    ensures var rest := s[IndexOf(s, '\n') + 1..]; rest == [] || rest[|rest| - 1] == '\n'
  {
    var k := IndexOf(s, '\n');
    var rest := s[k + 1..];
    if rest != [] {
      assert rest[|rest| - 1] == s[|s| - 1];
    }
  }

  /** Joining the lines read from a newline-terminated text gives the text back. */
  lemma {:induction false} UnlinesLines(s: string)
    requires s == [] || s[|s| - 1] == '\n'
    ensures Unlines(Lines(s)) == s
    decreases |s|
  {
    if s != [] {
      SplitFirstLine(s);
      var k := IndexOf(s, '\n');
      var line, rest := s[..k], s[k + 1..];
      assert Lines(s) == [line] + Lines(rest);
      UnlinesLines(rest);
      UnlinesCons(line, Lines(rest));
    }
  }

  datatype Field = Field(key: string, value: string)

  function FieldLine(f: Field): string {
    "\t" + f.key + " " + f.value
  }

  function FieldLines(fs: seq<Field>): seq<string> {
    seq(|fs|, i requires 0 <= i < |fs| => FieldLine(fs[i]))
  }

  function RecordLines(name: string, fs: seq<Field>): seq<string> {
    [name + " {"] + FieldLines(fs) + ["}"]
  }

  /** A brace-delimited record of the scene description language, ending in "}\n". */
  function Record(name: string, fs: seq<Field>): string {
    Unlines(RecordLines(name, fs))
  }

  /** Every record starts with its header line: the name, " {" and a newline. */
  lemma RecordStart(name: string, fs: seq<Field>)
    ensures var s := Record(name, fs); |name| + 3 <= |s| && s[..|name| + 3] == name + " {\n"
  {
    UnlinesCons(name + " {", FieldLines(fs) + ["}"]);
    assert RecordLines(name, fs) == [name + " {"] + (FieldLines(fs) + ["}"]);
  }

  /** Every record ends with its closing brace and one newline, and no more. */
  lemma RecordEnding(name: string, fs: seq<Field>)
    ensures var s := Record(name, fs); |s| >= 2 && s[|s| - 2..] == "}\n"
  {
    var pre := [name + " {"] + FieldLines(fs);
    assert RecordLines(name, fs) == pre + ["}"];
    UnlinesAppend(pre, ["}"]);
    UnlinesCons("}", []);
    assert Unlines(["}"]) == "}\n";
  }

  /** A key is a newline- and space-free word; a value is newline-free. */
  predicate CleanField(f: Field) {
    NoNewline(f.key) && ' ' !in f.key && NoNewline(f.value)
  }

  predicate CleanFields(fs: seq<Field>) {
    forall i :: 0 <= i < |fs| ==> CleanField(fs[i])
  }

  lemma NoNewlineJoin(a: string, b: string)
    requires NoNewline(a) && NoNewline(b)
    ensures NoNewline(a + b)
  {
  }

  // Cleanliness of short field lists from that of their elements.

  lemma CleanFields1(a: Field)
    requires CleanField(a)
    ensures CleanFields([a])
  {
  }

  lemma CleanFields3(a: Field, b: Field, c: Field)
    requires CleanField(a) && CleanField(b) && CleanField(c)
    ensures CleanFields([a, b, c])
  {
  }

  lemma CleanFields4(a: Field, b: Field, c: Field, d: Field)
    requires CleanField(a) && CleanField(b) && CleanField(c) && CleanField(d)
    ensures CleanFields([a, b, c, d])
  {
  }

  lemma CleanFields5(a: Field, b: Field, c: Field, d: Field, e: Field)
    requires CleanField(a) && CleanField(b) && CleanField(c) && CleanField(d) && CleanField(e)
    ensures CleanFields([a, b, c, d, e])
  {
  }

  /** Reads a field line: a tab, the key up to the first space, then the value. */
  function ParseField(line: string): (r: Option<Field>)
    ensures r.Some? ==> FieldLine(r.value) == line
  {
    if line == [] || line[0] != '\t' then None
    else
      var rest := line[1..];
      var k := IndexOf(rest, ' ');
      if k == |rest| then None
      else
        assert rest == rest[..k] + " " + rest[k + 1..];
        Some(Field(rest[..k], rest[k + 1..]))
  }

  function ParseFields(ls: seq<string>): (r: Option<seq<Field>>)
    ensures r.Some? ==> |r.value| == |ls|
  {
    if ls == [] then Some([])
    else
      match ParseField(ls[0])
      case None => None
      case Some(f) =>
        match ParseFields(ls[1..])
        case None => None
        case Some(fs) => Some([f] + fs)
  }

  predicate IsHeader(line: string) {
    |line| >= 2 && line[|line| - 2..] == " {"
  }

  /** Reads the lines of one record back into its name and fields. */
  function ParseRecord(ls: seq<string>): Option<(string, seq<Field>)> {
    if |ls| < 2 || !IsHeader(ls[0]) || ls[|ls| - 1] != "}" then None
    else
      match ParseFields(ls[1..|ls| - 1])
      case None => None
      case Some(fs) => Some((ls[0][..|ls[0]| - 2], fs))
  }

  lemma ParseFieldLine(f: Field)
    requires CleanField(f)
    ensures ParseField(FieldLine(f)) == Some(f)
  {
    var line := FieldLine(f);
    var rest := f.key + [' '] + f.value;
    assert line[0] == '\t' && line[1..] == rest;
    IndexOfAfter(f.key, ' ', f.value);
    assert rest[..|f.key|] == f.key;
    assert rest[|f.key| + 1..] == f.value;
  }

  lemma {:induction false} ParseFieldLines(fs: seq<Field>)
    requires CleanFields(fs)
    ensures ParseFields(FieldLines(fs)) == Some(fs)
  {
    if fs != [] {
      var ls := FieldLines(fs);
      assert CleanField(fs[0]);
      ParseFieldLine(fs[0]);
      assert ls[1..] == FieldLines(fs[1..]);
      ParseFieldLines(fs[1..]);
      assert fs == [fs[0]] + fs[1..];
    }
  }

  /** The lines of a record with clean fields read back as that record. */
  lemma RecordLinesRoundTrip(name: string, fs: seq<Field>)
    requires CleanFields(fs)
    ensures ParseRecord(RecordLines(name, fs)) == Some((name, fs))
  {
    var ls := RecordLines(name, fs);
    assert ls[1..|ls| - 1] == FieldLines(fs);
    ParseFieldLines(fs);
    assert ls[0][..|ls[0]| - 2] == name;
  }

  lemma RecordLinesClean(name: string, fs: seq<Field>)
    requires NoNewline(name) && CleanFields(fs)
    ensures NoNewlines(RecordLines(name, fs))
  {
    var ls := RecordLines(name, fs);
    forall i | 0 <= i < |ls| ensures NoNewline(ls[i]) {
      if 0 < i < |ls| - 1 {
        assert CleanField(fs[i - 1]);
        assert ls[i] == "\t" + fs[i - 1].key + " " + fs[i - 1].value;
      }
    }
  }

  /** The text of a record with a newline-free name and clean fields reads back as that record. */
  lemma RecordRoundTrip(name: string, fs: seq<Field>)
    requires NoNewline(name) && CleanFields(fs)
    ensures Lines(Record(name, fs)) == RecordLines(name, fs)
    ensures ParseRecord(Lines(Record(name, fs))) == Some((name, fs))
  {
    RecordLinesClean(name, fs);
    LinesUnlines(RecordLines(name, fs));
    RecordLinesRoundTrip(name, fs);
  }
}
