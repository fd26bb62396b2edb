/**
 * The text blocks of the scene description: the image, trace-depths, gi and
 * background blocks that open the file, and the floor plane object that goes
 * with the floor shader.
 */
module SceneBlocks {
  import opened Wrappers
  import opened SceneText
  import opened FloorReduction

  /** The attribute keys the opening blocks read. */
  predicate HasMainKeys(attr: map<string, string>) {
    && "resolution" in attr && "aa" in attr && "samples" in attr && "filter" in attr
    && "diff" in attr && "refl" in attr && "refr" in attr
    && "type" in attr && "bright" in attr && "dark" in attr && "gi:samples" in attr && "maxdist" in attr
  }

  function ImageFields(attr: map<string, string>): seq<Field>
    requires HasMainKeys(attr)
  {
    [Field("resolution", attr["resolution"]), Field("aa", attr["aa"]), Field("samples", attr["samples"]),
     Field("filter", attr["filter"])]
  }

  function TraceDepthFields(attr: map<string, string>): seq<Field>
    requires HasMainKeys(attr)
  {
    [Field("diff", attr["diff"]), Field("refl", attr["refl"]), Field("refr", attr["refr"])]
  }

  /** The gi block writes the "gi:samples" attribute under the key "samples". */
  function GiFields(attr: map<string, string>): seq<Field>
    requires HasMainKeys(attr)
  {
    [Field("type", attr["type"]), Field("bright", attr["bright"]), Field("dark", attr["dark"]),
     Field("samples", attr["gi:samples"]), Field("maxdist", attr["maxdist"])]
  }

  /** The background colour is fixed; the "bg_color" attribute is not read. */
  const BackgroundColor: string := "1.0 1.0 1.0"

  function BackgroundFields(): seq<Field> {
    [Field("color", BackgroundColor)]
  }

  /**
   * The four opening blocks, an empty line between each two. The background
   * record's closing brace ends the text: nothing follows its newline.
   */
  function MainBlock(attr: map<string, string>): (s: string)
    requires HasMainKeys(attr)
    ensures |s| >= 2 && s[|s| - 2..] == "}\n"
  {
    RecordEnding("background", BackgroundFields());
    Record("image", ImageFields(attr)) + "\n"
    + Record("trace-depths", TraceDepthFields(attr)) + "\n"
    + Record("gi", GiFields(attr)) + "\n"
    + Record("background", BackgroundFields())
  }

  /** Every attribute value the opening blocks read is free of newlines. */
  predicate CleanMainValues(attr: map<string, string>)
    requires HasMainKeys(attr)
  {
    && NoNewline(attr["resolution"]) && NoNewline(attr["aa"]) && NoNewline(attr["samples"])
    && NoNewline(attr["filter"]) && NoNewline(attr["diff"]) && NoNewline(attr["refl"])
    && NoNewline(attr["refr"]) && NoNewline(attr["type"]) && NoNewline(attr["bright"])
    && NoNewline(attr["dark"]) && NoNewline(attr["gi:samples"]) && NoNewline(attr["maxdist"])
  }

  /** The lines of the opening blocks, as a reader of the file would split them. */
  function MainLines(attr: map<string, string>): seq<string>
    requires HasMainKeys(attr)
  {
    RecordLines("image", ImageFields(attr)) + [""]
    + RecordLines("trace-depths", TraceDepthFields(attr)) + [""]
    + RecordLines("gi", GiFields(attr)) + [""]
    + RecordLines("background", BackgroundFields())
  }

  lemma {:induction false} NoNewlinesAppend(a: seq<string>, b: seq<string>)
    requires NoNewlines(a) && NoNewlines(b)
    ensures NoNewlines(a + b)
  {
    forall i | 0 <= i < |a + b| ensures NoNewline((a + b)[i]) {
      if i < |a| {
        assert (a + b)[i] == a[i];
      } else {
        assert (a + b)[i] == b[i - |a|];
      }
    }
  }

  lemma MainNamesClean()
    ensures NoNewline("image") && NoNewline("trace-depths") && NoNewline("gi") && NoNewline("background")
    ensures NoNewlines([""])
  {
    assert NoNewline("image") && NoNewline("trace-depths");
    assert NoNewline("gi") && NoNewline("background");
  }

  lemma ImageKeysClean()
    ensures ' ' !in "resolution" && NoNewline("resolution") && ' ' !in "aa" && NoNewline("aa")
    ensures ' ' !in "samples" && NoNewline("samples") && ' ' !in "filter" && NoNewline("filter")
    ensures ' ' !in "diff" && NoNewline("diff") && ' ' !in "refl" && NoNewline("refl")
    ensures ' ' !in "refr" && NoNewline("refr")
  {
    assert ' ' !in "resolution" && NoNewline("resolution") && ' ' !in "aa" && NoNewline("aa");
    assert ' ' !in "samples" && NoNewline("samples") && ' ' !in "filter" && NoNewline("filter");
    assert ' ' !in "diff" && NoNewline("diff") && ' ' !in "refl" && NoNewline("refl");
    assert ' ' !in "refr" && NoNewline("refr");
  }

  lemma GiKeysClean()
    ensures ' ' !in "type" && NoNewline("type") && ' ' !in "samples" && NoNewline("samples")
    ensures ' ' !in "bright" && NoNewline("bright") && ' ' !in "dark" && NoNewline("dark")
    ensures ' ' !in "maxdist" && NoNewline("maxdist")
  {
    assert ' ' !in "type" && NoNewline("type") && ' ' !in "samples" && NoNewline("samples");
    assert ' ' !in "bright" && NoNewline("bright") && ' ' !in "dark" && NoNewline("dark");
    assert ' ' !in "maxdist" && NoNewline("maxdist");
  }

  lemma BackgroundFieldsClean()
    ensures CleanFields(BackgroundFields())
  {
    assert ' ' !in "color" && NoNewline("color") && NoNewline(BackgroundColor);
    CleanFields1(Field("color", BackgroundColor));
  }

  lemma MainFieldsClean(attr: map<string, string>)
    requires HasMainKeys(attr) && CleanMainValues(attr)
    ensures CleanFields(ImageFields(attr)) && CleanFields(TraceDepthFields(attr)) && CleanFields(GiFields(attr))
    ensures CleanFields(BackgroundFields())
  {
    ImageKeysClean();
    GiKeysClean();
    BackgroundFieldsClean();
    var im, td, gi := ImageFields(attr), TraceDepthFields(attr), GiFields(attr);
    CleanFields4(im[0], im[1], im[2], im[3]);
    CleanFields3(td[0], td[1], td[2]);
    CleanFields5(gi[0], gi[1], gi[2], gi[3], gi[4]);
  }

  /** Text made of lines, followed by an empty line, is those lines and one empty line. */
  lemma UnlinesThenBlank(a: seq<string>)
    ensures Unlines(a) + "\n" == Unlines(a + [""])
  {
    UnlinesAppend(a, [""]);
    UnlinesCons("", []);
  }

  /** One more group of lines, and its empty line, after text that ends a line. */
  lemma JoinStep(x: seq<string>, tx: string, b: seq<string>)
    requires tx + "\n" == Unlines(x)
    ensures tx + "\n" + Unlines(b) + "\n" == Unlines(x + b + [""])
  {
    UnlinesThenBlank(b);
    UnlinesAppend(x, b + [""]);
    assert x + (b + [""]) == x + b + [""];
    var nl := "\n";
    assert tx + nl + Unlines(b) + nl == (tx + nl) + (Unlines(b) + nl);
  }

  /** A last group of lines, with no empty line after it, after text that ends a line. */
  lemma JoinLast(x: seq<string>, tx: string, d: seq<string>)
    requires tx + "\n" == Unlines(x)
    ensures tx + "\n" + Unlines(d) == Unlines(x + d)
  {
    UnlinesAppend(x, d);
  }

  lemma JoinedUnlines(a: seq<string>, b: seq<string>, c: seq<string>, d: seq<string>)
    ensures Unlines(a) + "\n" + Unlines(b) + "\n" + Unlines(c) + "\n" + Unlines(d)
            == Unlines(a + [""] + b + [""] + c + [""] + d)
  {
    UnlinesThenBlank(a);
    JoinStep(a + [""], Unlines(a), b);
    JoinStep(a + [""] + b + [""], Unlines(a) + "\n" + Unlines(b), c);
    JoinLast(a + [""] + b + [""] + c + [""], Unlines(a) + "\n" + Unlines(b) + "\n" + Unlines(c), d);
  }

  lemma JoinedClean(a: seq<string>, b: seq<string>, c: seq<string>, d: seq<string>)
    requires NoNewlines(a) && NoNewlines(b) && NoNewlines(c) && NoNewlines(d)
    ensures NoNewlines(a + [""] + b + [""] + c + [""] + d)
  {
    assert NoNewlines([""]);
    NoNewlinesAppend(a, [""]);
    NoNewlinesAppend(b, [""]);
    NoNewlinesAppend(c, [""]);
    NoNewlinesAppend(a + [""], b + [""]);
    NoNewlinesAppend(a + [""] + b + [""], c + [""]);
    NoNewlinesAppend(a + [""] + b + [""] + c + [""], d);
  }

  /** Four newline-free groups of lines, separated by empty lines, split back into those groups. */
  lemma JoinedLines(a: seq<string>, b: seq<string>, c: seq<string>, d: seq<string>)
    requires NoNewlines(a) && NoNewlines(b) && NoNewlines(c) && NoNewlines(d)
    ensures Lines(Unlines(a) + "\n" + Unlines(b) + "\n" + Unlines(c) + "\n" + Unlines(d))
            == a + [""] + b + [""] + c + [""] + d
  {
    JoinedUnlines(a, b, c, d);
    JoinedClean(a, b, c, d);
    LinesUnlines(a + [""] + b + [""] + c + [""] + d);
  }

  /** Where each group sits among the joined lines. */
  lemma JoinedSlices(a: seq<string>, b: seq<string>, c: seq<string>, d: seq<string>)
    ensures var ls := a + [""] + b + [""] + c + [""] + d;
            var i, j, k := |a| + 1, |a| + |b| + 2, |a| + |b| + |c| + 3;
            && |ls| == k + |d|
            && ls[..|a|] == a && ls[|a|] == ""
            && ls[i..i + |b|] == b && ls[i + |b|] == ""
            && ls[j..j + |c|] == c && ls[j + |c|] == ""
            && ls[k..] == d
  {
  }

  /**
   * With newline-free attribute values, the opening text splits into the
   * image, trace-depths, gi and background records, one empty line between
   * each two and none after the last.
   */
  lemma MainBlockLines(attr: map<string, string>)
    requires HasMainKeys(attr) && CleanMainValues(attr)
    ensures Lines(MainBlock(attr)) == MainLines(attr)
  {
    MainNamesClean();
    MainFieldsClean(attr);
    RecordLinesClean("image", ImageFields(attr));
    RecordLinesClean("trace-depths", TraceDepthFields(attr));
    RecordLinesClean("gi", GiFields(attr));
    RecordLinesClean("background", BackgroundFields());
    JoinedLines(RecordLines("image", ImageFields(attr)), RecordLines("trace-depths", TraceDepthFields(attr)),
                RecordLines("gi", GiFields(attr)), RecordLines("background", BackgroundFields()));
  }

  /**
   * Each of the four records reads back with the attribute values it was
   * given; the background always carries the fixed colour, and its closing
   * brace is the last line.
   */
  lemma MainBlockReadsBack(attr: map<string, string>)
    requires HasMainKeys(attr) && CleanMainValues(attr)
    ensures var ls := Lines(MainBlock(attr));
            && |ls| == 24
            && ParseRecord(ls[..6]) == Some(("image", ImageFields(attr))) && ls[6] == ""
            && ParseRecord(ls[7..12]) == Some(("trace-depths", TraceDepthFields(attr))) && ls[12] == ""
            && ParseRecord(ls[13..20]) == Some(("gi", GiFields(attr))) && ls[20] == ""
            && ParseRecord(ls[21..]) == Some(("background", BackgroundFields())) && ls[23] == "}"
  {
    MainBlockLines(attr);
    MainFieldsClean(attr);
    var a := RecordLines("image", ImageFields(attr));
    var b := RecordLines("trace-depths", TraceDepthFields(attr));
    var c := RecordLines("gi", GiFields(attr));
    var d := RecordLines("background", BackgroundFields());
    assert |a| == 6 && |b| == 5 && |c| == 7 && |d| == 3;
    JoinedSlices(a, b, c, d);
    RecordLinesRoundTrip("image", ImageFields(attr));
    RecordLinesRoundTrip("trace-depths", TraceDepthFields(attr));
    RecordLinesRoundTrip("gi", GiFields(attr));
    RecordLinesRoundTrip("background", BackgroundFields());
  }

  /**
   * The opening text depends on the twelve attributes it reads and on nothing
   * else; in particular a change to "bg_color" leaves it as it is.
   */
  lemma MainBlockReadsOnlyMainKeys(a1: map<string, string>, a2: map<string, string>)
    requires HasMainKeys(a1) && HasMainKeys(a2)
    requires ImageFields(a1) == ImageFields(a2) && TraceDepthFields(a1) == TraceDepthFields(a2)
    requires GiFields(a1) == GiFields(a2)
    ensures MainBlock(a1) == MainBlock(a2)
  {
  }

  lemma MainBlockIgnoresBackgroundColor(attr: map<string, string>, color: string)
    requires HasMainKeys(attr)
    ensures HasMainKeys(attr["bg_color" := color])
    ensures MainBlock(attr["bg_color" := color]) == MainBlock(attr)
  {
    MainBlockReadsOnlyMainKeys(attr, attr["bg_color" := color]);
  }

  /** Every value the number formatter produces is free of newlines. */
  ghost predicate CleanFormat(fmt: real -> string) {
    forall x :: NoNewline(fmt(x))
  }

  /** Three coordinates, each formatted and separated by one space. */
  function Triple(p: Point, fmt: real -> string): string {
    fmt(p.x) + " " + fmt(p.y) + " " + fmt(p.z)
  }

  /** The plane goes 2 units below the lowest point, in the point's own coordinates. */
  function FloorPlacement(lowest: Point): (p: Point)
    ensures p.x == lowest.x && p.z == lowest.z && p.y + 2.0 == lowest.y
  {
    Point(lowest.x, lowest.y - 2.0, lowest.z)
  }

  /** The plane normal keeps its x component and tilts by the floor angle. */
  function FloorNormal(n0: real, angle: real, t: Trig): (n: Point)
    ensures n.x == n0
  {
    Point(n0, t.cosDeg(angle), t.sinDeg(angle))
  }

  /**
   * The floor search and the plane agree on what "up" is: when cosine is even
   * and sine odd, the rotated height of a point is its component along the
   * plane's normal, in the y-z plane.
   */
  lemma HeightAlongNormal(p: Point, angle: real, n0: real, t: Trig)
    requires t.cosDeg(-angle) == t.cosDeg(angle) && t.sinDeg(-angle) == -t.sinDeg(angle)
    ensures var n := FloorNormal(n0, angle, t);
            Height(p, angle, t) == p.y * n.y + p.z * n.z
  {
  }

  function PlaneFields(p: Point, n: Point, fmt: real -> string): seq<Field> {
    [Field("shader", "floor"), Field("type", "plane"), Field("p", Triple(p, fmt)), Field("n", Triple(n, fmt))]
  }

  /** The floor object: a plane through `p` with normal `n` that uses the floor shader. */
  function PlaneBlock(p: Point, n: Point, fmt: real -> string): (s: string)
    ensures |s| >= 9 && s[..9] == "object {\n" && s[|s| - 2..] == "}\n"
  {
    RecordStart("object", PlaneFields(p, n, fmt));
    RecordEnding("object", PlaneFields(p, n, fmt));
    Record("object", PlaneFields(p, n, fmt))
  }

  /**
   * The floor text: nothing at all when shadows are off, otherwise the floor
   * shader followed by the plane placed below the lowest point.
   */
  function FloorText(shadow: int, shader: string, lowest: Point, angle: real, n0: real, t: Trig,
                     fmt: real -> string): (s: string)
    ensures s == "" <==> shadow == 0
  {
    if shadow == 0 then ""
    else shader + PlaneBlock(FloorPlacement(lowest), FloorNormal(n0, angle, t), fmt)
  }

  lemma PlaneLiteralsClean()
    ensures NoNewline("object")
    ensures CleanField(Field("shader", "floor")) && CleanField(Field("type", "plane"))
    ensures ' ' !in "p" && NoNewline("p") && ' ' !in "n" && NoNewline("n")
  {
    assert NoNewline("object");
    assert ' ' !in "shader" && NoNewline("shader") && NoNewline("floor");
    assert ' ' !in "type" && NoNewline("type") && NoNewline("plane");
    assert ' ' !in "p" && NoNewline("p") && ' ' !in "n" && NoNewline("n");
  }

  lemma TripleClean(p: Point, fmt: real -> string)
    requires CleanFormat(fmt)
    ensures NoNewline(Triple(p, fmt))
  {
    assert NoNewline(fmt(p.x)) && NoNewline(fmt(p.y)) && NoNewline(fmt(p.z));
    assert NoNewline(" ");
    NoNewlineJoin(fmt(p.x), " ");
    NoNewlineJoin(fmt(p.x) + " ", fmt(p.y));
    NoNewlineJoin(fmt(p.x) + " " + fmt(p.y), " ");
    NoNewlineJoin(fmt(p.x) + " " + fmt(p.y) + " ", fmt(p.z));
  }

  lemma PlaneFieldsClean(p: Point, n: Point, fmt: real -> string)
    requires CleanFormat(fmt)
    ensures NoNewline("object") && CleanFields(PlaneFields(p, n, fmt))
  {
    PlaneLiteralsClean();
    TripleClean(p, fmt);
    TripleClean(n, fmt);
    var fs := PlaneFields(p, n, fmt);
    CleanFields4(fs[0], fs[1], fs[2], fs[3]);
  }

  /**
   * With a newline-free number format, the plane reads back as an "object"
   * record with the fields shader floor, type plane, and the formatted point
   * and normal.
   */
  lemma PlaneBlockReadsBack(p: Point, n: Point, fmt: real -> string)
    requires CleanFormat(fmt)
    ensures Lines(PlaneBlock(p, n, fmt)) == RecordLines("object", PlaneFields(p, n, fmt))
    ensures ParseRecord(Lines(PlaneBlock(p, n, fmt))) == Some(("object", PlaneFields(p, n, fmt)))
  {
    PlaneFieldsClean(p, n, fmt);
    RecordRoundTrip("object", PlaneFields(p, n, fmt));
  }

  /**
   * When shadows are on and the shader text is a record, the floor text is
   * that record followed by the plane record, and the plane reads back with
   * the formatted placement and normal.
   */
  lemma FloorTextReadsBack(shadow: int, name: string, fs: seq<Field>, lowest: Point, angle: real, n0: real,
                           t: Trig, fmt: real -> string)
    requires shadow != 0 && NoNewline(name) && CleanFields(fs) && CleanFormat(fmt)
    ensures var s := FloorText(shadow, Record(name, fs), lowest, angle, n0, t, fmt);
            var obj := RecordLines("object", PlaneFields(FloorPlacement(lowest), FloorNormal(n0, angle, t), fmt));
            && Lines(s) == RecordLines(name, fs) + obj
            && ParseRecord(RecordLines(name, fs)) == Some((name, fs))
            && ParseRecord(obj) == Some(("object", PlaneFields(FloorPlacement(lowest), FloorNormal(n0, angle, t), fmt)))
  {
    var pf := PlaneFields(FloorPlacement(lowest), FloorNormal(n0, angle, t), fmt);
    PlaneFieldsClean(FloorPlacement(lowest), FloorNormal(n0, angle, t), fmt);
    RecordLinesClean(name, fs);
    RecordLinesClean("object", pf);
    UnlinesAppend(RecordLines(name, fs), RecordLines("object", pf));
    NoNewlinesAppend(RecordLines(name, fs), RecordLines("object", pf));
    LinesUnlines(RecordLines(name, fs) + RecordLines("object", pf));
    RecordLinesRoundTrip(name, fs);
    RecordLinesRoundTrip("object", pf);
  }

  /** When shadows are on, the floor text starts with the shader text, whatever it is. */
  lemma FloorTextStartsWithShader(shadow: int, shader: string, lowest: Point, angle: real, n0: real, t: Trig,
                                  fmt: real -> string)
    requires shadow != 0
    ensures var s := FloorText(shadow, shader, lowest, angle, n0, t, fmt);
            |shader| < |s| && s[..|shader|] == shader
  {
  }
}
