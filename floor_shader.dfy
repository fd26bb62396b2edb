/**
 * Selection of the floor plane's shader: a case-insensitive name picks one of
 * five fixed shader records, with the current floor colour written into it.
 */
module FloorShader {
  import opened Wrappers
  import opened SceneText

  /** ASCII lower-casing of one character. */
  function LowerChar(c: char): char {
    if 'A' <= c <= 'Z' then (c as int + 32) as char else c
  }

  /**
   * ASCII lower-casing: the same length, each capital letter A to Z turned
   * into its small letter, and every other character kept.
   */
  function Lower(s: string): (r: string)
    ensures |r| == |s|
    ensures forall i :: 0 <= i < |r| ==> !('A' <= r[i] <= 'Z')
    ensures forall i :: 0 <= i < |s| && !('A' <= s[i] <= 'Z') ==> r[i] == s[i]
    ensures forall i :: 0 <= i < |s| && 'A' <= s[i] <= 'Z' ==> r[i] as int == s[i] as int + 32
  {
    seq(|s|, i requires 0 <= i < |s| => LowerChar(s[i]))
  }

  /** The five names the selection recognises (after lower-casing). */
  const ShaderKinds: set<string> := {"diff", "glass", "mirror", "shiny", "phong"}

  /**
   * The fields of each template, in the source's order. The glass colour line
   * has two spaces after its key, so its value starts with a space.
   */
  function ShaderFields(kind: string, color: string): (fs: seq<Field>)
    ensures 3 <= |fs| <= 5 && fs[0] == Field("name", "floor") && fs[1].key == "type"
    ensures kind in ShaderKinds ==> fs[1].value == ShaderType(kind)
  {
    if kind == "diff" then
      [Field("name", "floor"), Field("type", "diffuse"), Field("diff", color)]
    else if kind == "glass" then
      [Field("name", "floor"), Field("type", "glass"), Field("eta", "1.33"), Field("color", " " + color),
       Field("absorbtion.distance", "5.0")]
    else if kind == "mirror" then
      [Field("name", "floor"), Field("type", "mirror"), Field("refl", color)]
    else if kind == "shiny" then
      [Field("name", "floor"), Field("type", "shiny"), Field("diff", "{ \"sRGB nonlinear\" " + color + " }"),
       Field("refl", "0.5")]
    else
      [Field("name", "floor"), Field("type", "phong"), Field("diff", "{ \"sRGB linear\" " + color + " }"),
       Field("spec", "{ \"sRGB linear\" " + color + " } 50"), Field("samples", "4")]
  }

  /** The shader text for `shader` with `color` substituted, or None for an unrecognised name. */
  function ShaderTemplate(shader: string, color: string): (r: Option<string>)
    ensures r.Some? <==> Lower(shader) in ShaderKinds
  {
    var s := Lower(shader);
    if s in ShaderKinds then Some(Record("shader", ShaderFields(s, color))) else None
  }

  /** The value written on the "type" line for a recognised name. */
  function ShaderType(kind: string): string {
    if kind == "diff" then "diffuse" else kind
  }

  lemma LowerIdempotent(s: string)
    ensures Lower(Lower(s)) == Lower(s)
  {
  }

  /** `c` and `d` are the same letter, one of them possibly a capital, or the same character. */
  predicate SameLetter(c: char, d: char) {
    || c == d
    || ('A' <= c <= 'Z' && d as int == c as int + 32)
    || ('A' <= d <= 'Z' && c as int == d as int + 32)
  }

  /** `a` and `b` are equal up to ASCII case. */
  predicate SameUpToCase(a: string, b: string) {
    |a| == |b| && forall i :: 0 <= i < |a| ==> SameLetter(a[i], b[i])
  }

  lemma LowerCharSame(c: char, d: char)
    ensures LowerChar(c) == LowerChar(d) <==> SameLetter(c, d)
  {
  }

  /** Two names lower-case alike exactly when they are equal up to ASCII case. */
  lemma LowerSameUpToCase(a: string, b: string)
    ensures Lower(a) == Lower(b) <==> SameUpToCase(a, b)
  {
    if Lower(a) == Lower(b) {
      forall i | 0 <= i < |a|
        ensures SameLetter(a[i], b[i])
      {
        assert Lower(a)[i] == Lower(b)[i];
        LowerCharSame(a[i], b[i]);
      }
    }
    if SameUpToCase(a, b) {
      forall i | 0 <= i < |a|
        ensures Lower(a)[i] == Lower(b)[i]
      {
        LowerCharSame(a[i], b[i]);
      }
    }
  }

  /** Names that differ only in ASCII case select the same template. */
  lemma ShaderTemplateCaseInsensitive(a: string, b: string, color: string)
    requires SameUpToCase(a, b)
    ensures ShaderTemplate(a, color) == ShaderTemplate(b, color)
    ensures ShaderTemplate(Lower(a), color) == ShaderTemplate(a, color)
  {
    LowerSameUpToCase(a, b);
    LowerIdempotent(a);
  }

  /** The recognised key is "diff": the full word "diffuse" selects nothing. */
  lemma DiffuseIsNotAName(color: string)
    ensures ShaderTemplate("diffuse", color) == None
    ensures ShaderTemplate("DIFF", color) == ShaderTemplate("diff", color)
  {
    var l := Lower("DIFF");
    assert l[0] == 'd' && l[1] == 'i' && l[2] == 'f' && l[3] == 'f';
    assert l == "diff";
    LowerIdempotent("DIFF");
  }

  // Facts about the literal keys and values, kept apart from other proofs
  // because the verifier checks each literal character by character.

  lemma ShaderTypesClean()
    ensures CleanField(Field("name", "floor"))
    ensures CleanField(Field("type", "diffuse")) && CleanField(Field("type", "glass"))
    ensures CleanField(Field("type", "mirror")) && CleanField(Field("type", "shiny"))
    ensures CleanField(Field("type", "phong"))
  {
    assert NoNewline("name") && ' ' !in "name" && NoNewline("floor");
    assert NoNewline("type") && ' ' !in "type";
    assert NoNewline("diffuse") && NoNewline("glass") && NoNewline("mirror");
    assert NoNewline("shiny") && NoNewline("phong");
  }

  lemma ShaderLiteralsClean()
    ensures CleanField(Field("eta", "1.33")) && CleanField(Field("absorbtion.distance", "5.0"))
    ensures CleanField(Field("refl", "0.5")) && CleanField(Field("samples", "4"))
  {
    assert NoNewline("eta") && ' ' !in "eta" && NoNewline("1.33");
    assert NoNewline("absorbtion.distance") && ' ' !in "absorbtion.distance" && NoNewline("5.0");
    assert NoNewline("refl") && ' ' !in "refl" && NoNewline("0.5");
    assert NoNewline("samples") && ' ' !in "samples" && NoNewline("4");
  }

  lemma ShaderColorFieldsClean(color: string)
    requires NoNewline(color)
    ensures CleanField(Field("diff", color)) && CleanField(Field("refl", color))
    ensures CleanField(Field("color", " " + color))
    ensures CleanField(Field("diff", "{ \"sRGB nonlinear\" " + color + " }"))
    ensures CleanField(Field("diff", "{ \"sRGB linear\" " + color + " }"))
    ensures CleanField(Field("spec", "{ \"sRGB linear\" " + color + " } 50"))
  {
    assert NoNewline("diff") && ' ' !in "diff";
    assert NoNewline("refl") && ' ' !in "refl";
    assert NoNewline("color") && ' ' !in "color";
    assert NoNewline("spec") && ' ' !in "spec";
    assert NoNewline(" ") && NoNewline(" }") && NoNewline(" } 50");
    assert NoNewline("{ \"sRGB nonlinear\" ") && NoNewline("{ \"sRGB linear\" ");
    NoNewlineJoin(" ", color);
    NoNewlineJoin("{ \"sRGB nonlinear\" ", color);
    NoNewlineJoin("{ \"sRGB nonlinear\" " + color, " }");
    NoNewlineJoin("{ \"sRGB linear\" ", color);
    NoNewlineJoin("{ \"sRGB linear\" " + color, " }");
    NoNewlineJoin("{ \"sRGB linear\" " + color, " } 50");
  }

  lemma ShaderFieldsClean(kind: string, color: string)
    requires kind in ShaderKinds && NoNewline(color)
    ensures CleanFields(ShaderFields(kind, color))
  {
    ShaderTypesClean();
    ShaderLiteralsClean();
    ShaderColorFieldsClean(color);
    var fs := ShaderFields(kind, color);
    if kind == "diff" {
      CleanFields3(fs[0], fs[1], fs[2]);
      assert fs == [fs[0], fs[1], fs[2]];
    } else if kind == "glass" {
      CleanFields5(fs[0], fs[1], fs[2], fs[3], fs[4]);
      assert fs == [fs[0], fs[1], fs[2], fs[3], fs[4]];
    } else if kind == "mirror" {
      CleanFields3(fs[0], fs[1], fs[2]);
      assert fs == [fs[0], fs[1], fs[2]];
    } else if kind == "shiny" {
      CleanFields4(fs[0], fs[1], fs[2], fs[3]);
      assert fs == [fs[0], fs[1], fs[2], fs[3]];
    } else {
      CleanFields5(fs[0], fs[1], fs[2], fs[3], fs[4]);
      assert fs == [fs[0], fs[1], fs[2], fs[3], fs[4]];
    }
  }

  /**
   * With a newline-free colour, every template reads back as a "shader" record
   * whose first fields are "name floor" and the selected type, followed by
   * that kind's fields with the colour in them.
   */
  lemma ShaderTemplateReadsBack(shader: string, color: string)
    requires Lower(shader) in ShaderKinds && NoNewline(color)
    ensures var fs := ShaderFields(Lower(shader), color);
            && ParseRecord(Lines(ShaderTemplate(shader, color).value)) == Some(("shader", fs))
            && |fs| >= 3
            && fs[0] == Field("name", "floor")
            && fs[1] == Field("type", ShaderType(Lower(shader)))
  {
    ShaderFieldsClean(Lower(shader), color);
    assert NoNewline("shader");
    RecordRoundTrip("shader", ShaderFields(Lower(shader), color));
  }

  lemma UnlinesThree(h: string, l0: string, l1: string)
    ensures Unlines([h, l0, l1]) == h + "\n" + l0 + "\n" + l1 + "\n"
  {
    UnlinesCons(l1, []);
    UnlinesCons(l0, [l1]);
    UnlinesCons(h, [l0, l1]);
  }

  lemma UnlinesTwo(d: string, last: string)
    ensures Unlines([d, last]) == d + "\n" + last + "\n"
  {
    UnlinesCons(last, []);
    UnlinesCons(d, [last]);
  }

  /** Five lines joined, each followed by a newline, with the fourth line split at the colour. */
  lemma UnlinesFive(h: string, l0: string, l1: string, pre: string, color: string, last: string)
    ensures Unlines([h, l0, l1, pre + color, last])
            == (h + "\n" + l0 + "\n" + l1 + "\n" + pre) + color + ("\n" + last + "\n")
  {
    UnlinesThree(h, l0, l1);
    UnlinesTwo(pre + color, last);
    UnlinesAppend([h, l0, l1], [pre + color, last]);
    assert [h, l0, l1] + [pre + color, last] == [h, l0, l1, pre + color, last];
    var x := h + "\n" + l0 + "\n" + l1 + "\n";
    assert x + (pre + color + "\n" + last + "\n") == (x + pre) + color + ("\n" + last + "\n");
  }

  lemma DiffTemplateLiterals()
    ensures "shader" + " {" == "shader {"
    ensures FieldLine(Field("name", "floor")) == "\tname floor"
    ensures FieldLine(Field("type", "diffuse")) == "\ttype diffuse"
    ensures "\n" + "}" + "\n" == "\n}\n"
  {
  }

  lemma DiffTemplateHead()
    ensures "shader {" + "\n" + "\tname floor" + "\n" + "\ttype diffuse" + "\n" + "\tdiff "
            == "shader {\n\tname floor\n\ttype diffuse\n\tdiff "
  {
    var a := "shader {" + "\n";
    assert a == "shader {\n";
    var b := a + "\tname floor" + "\n";
    assert b == "shader {\n\tname floor\n";
    var c := b + "\ttype diffuse" + "\n";
    assert c == "shader {\n\tname floor\n\ttype diffuse\n";
  }

  /** The diff template, written out as one text. */
  lemma DiffTemplateText(color: string)
    ensures Record("shader", ShaderFields("diff", color))
            == "shader {\n\tname floor\n\ttype diffuse\n\tdiff " + color + "\n}\n"
  {
    DiffTemplateLiterals();
    DiffTemplateHead();
    var fs := ShaderFields("diff", color);
    var l0, l1 := "\tname floor", "\ttype diffuse";
    assert FieldLine(fs[2]) == "\tdiff " + color;
    assert FieldLines(fs) == [l0, l1, "\tdiff " + color];
    assert RecordLines("shader", fs) == ["shader {", l0, l1, "\tdiff " + color, "}"];
    UnlinesFive("shader {", l0, l1, "\tdiff ", color, "}");
  }

  /** With a newline-free colour the glass shader has the lines "\ttype glass" and "\teta 1.33". */
  lemma GlassShaderLines(shader: string, color: string)
    requires Lower(shader) == "glass" && NoNewline(color)
    ensures "\ttype glass" in Lines(ShaderTemplate(shader, color).value)
    ensures "\teta 1.33" in Lines(ShaderTemplate(shader, color).value)
  {
    var fs := ShaderFields("glass", color);
    ShaderFieldsClean("glass", color);
    assert NoNewline("shader");
    RecordRoundTrip("shader", fs);
    var ls := RecordLines("shader", fs);
    GlassLineTexts();
    assert ls[2] == FieldLine(Field("type", "glass"));
    assert ls[3] == FieldLine(Field("eta", "1.33"));
  }

  lemma GlassLineTexts()
    ensures FieldLine(Field("type", "glass")) == "\ttype glass"
    ensures FieldLine(Field("eta", "1.33")) == "\teta 1.33"
  {
  }

  lemma CancelAround(pre: string, a: string, b: string, post: string)
    requires pre + a + post == pre + b + post
    ensures a == b
  {
    var x := pre + a + post;
    assert |a| == |b|;
    assert x[|pre|..|pre| + |a|] == a;
    assert (pre + b + post)[|pre|..|pre| + |b|] == b;
  }

  /**
   * The colour is substituted verbatim: two newline-free colours that give the
   * same shader text are equal.
   */
  lemma ShaderColorRecoverable(shader: string, c1: string, c2: string)
    requires Lower(shader) in ShaderKinds && NoNewline(c1) && NoNewline(c2)
    requires ShaderTemplate(shader, c1) == ShaderTemplate(shader, c2)
    ensures c1 == c2
  {
    var k := Lower(shader);
    ShaderTemplateReadsBack(shader, c1);
    ShaderTemplateReadsBack(shader, c2);
    var fs1, fs2 := ShaderFields(k, c1), ShaderFields(k, c2);
    assert fs1 == fs2;
    if k == "glass" {
      assert fs1[3] == fs2[3];
      CancelAround(" ", c1, c2, "");
    } else if k == "shiny" {
      assert fs1[2] == fs2[2];
      CancelAround("{ \"sRGB nonlinear\" ", c1, c2, " }");
    } else if k == "phong" {
      assert fs1[2] == fs2[2];
      CancelAround("{ \"sRGB linear\" ", c1, c2, " }");
    } else {
      assert fs1[2] == fs2[2];
    }
  }
}
