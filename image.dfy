/**
 * The scene's image settings: the attribute table behind the opening blocks
 * of the scene description, the floor shader, and the floor plane that is
 * placed under the lowest point of the scene.
 */
module Scene {
  import opened Wrappers
  import opened SceneText
  import opened FloorShader
  import opened FloorReduction
  import opened SceneBlocks

  const DefaultFloorColor: string := "1.0 1.0 1.0"

  /** The initial floor shader: the diffuse template in the initial floor colour. */
  function DefaultShaderText(): string {
    Record("shader", ShaderFields("diff", DefaultFloorColor))
  }

  /** The initial values of the image, trace-depths and gi blocks. */
  function DefaultMainAttr(): (r: map<string, string>)
    ensures HasMainKeys(r)
  {
    map[]["resolution" := "1280 959"]["aa" := "1 2"]["samples" := "4"]["filter" := "gaussian"]
         ["diff" := "1"]["refl" := "4"]["refr" := "4"]
         ["type" := "ambocc"]["bright" := "{ \"sRGB nonlinear\" 1 1 1 }"]["dark" := "{ \"sRGB nonlinear\" 0 0 0 }"]
         ["gi:samples" := "32"]["maxdist" := "200.0"]
  }

  /** The initial attribute table (the floor plane vectors are kept apart, in arrays). */
  function DefaultAttr(): (r: map<string, string>)
    ensures HasMainKeys(r)
    ensures "bg_color" in r && "globalShader" in r && r["globalShader"] == "diff"
  {
    DefaultMainAttr()["bg_color" := "{ \"sRGB nonlinear\" 1.0 1.0 1.0 }"]["floor:color" := DefaultFloorColor]
                     ["floor:shader" := DefaultShaderText()]["globalShader" := "diff"]
  }

  /** The initial floor colour is 1.0 1.0 1.0 and the initial floor shader is the diffuse one in it. */
  lemma DefaultAttrFloor()
    ensures "floor:color" in DefaultAttr() && DefaultAttr()["floor:color"] == DefaultFloorColor
    ensures "floor:shader" in DefaultAttr() && DefaultAttr()["floor:shader"] == DefaultShaderText()
  {
  }

  /** `s` is one of the five floor shader templates, for some name and colour. */
  ghost predicate IsShaderTemplate(s: string) {
    exists name: string, color: string :: ShaderTemplate(name, color) == Some(s)
  }

  lemma DefaultShaderPieces()
    ensures "shader {\n\tname floor\n\ttype diffuse\n\tdiff " + DefaultFloorColor + "\n}\n"
            == "shader {\n\tname floor\n\ttype diffuse\n\tdiff 1.0 1.0 1.0\n}\n"
  {
  }

  /** The initial shader, character for character the text the constructor writes. */
  lemma DefaultShaderLiteral()
    ensures DefaultShaderText() == "shader {\n\tname floor\n\ttype diffuse\n\tdiff 1.0 1.0 1.0\n}\n"
  {
    DiffTemplateText(DefaultFloorColor);
    DefaultShaderPieces();
  }

  /** The initial shader is what selecting "diff" produces with the initial colour. */
  lemma DefaultShaderIsDiffTemplate()
    ensures ShaderTemplate("diff", DefaultFloorColor) == Some(DefaultShaderText())
  {
    var l := Lower("diff");
    assert l[0] == 'd' && l[1] == 'i' && l[2] == 'f' && l[3] == 'f';
    assert l == "diff";
  }

  /** The table has every key the scene reads, and its floor shader is one of the templates. */
  ghost predicate AttrValid(attr: map<string, string>) {
    && HasMainKeys(attr) && "floor:color" in attr && "floor:shader" in attr
    && IsShaderTemplate(attr["floor:shader"])
  }

  lemma DefaultAttrValid()
    ensures AttrValid(DefaultAttr())
  {
    DefaultAttrFloor();
    DefaultShaderIsDiffTemplate();
    assert ShaderTemplate("diff", DefaultFloorColor) == Some(DefaultAttr()["floor:shader"]);
  }

  /** The initial values of the opening blocks are free of newlines, so the opening text reads back. */
  lemma DefaultMainValuesClean()
    ensures HasMainKeys(DefaultAttr()) && CleanMainValues(DefaultAttr())
  {
    var a := DefaultAttr();
    assert a["resolution"] == "1280 959" && a["aa"] == "1 2" && a["samples"] == "4" && a["filter"] == "gaussian";
    assert a["diff"] == "1" && a["refl"] == "4" && a["refr"] == "4";
    assert a["type"] == "ambocc" && a["gi:samples"] == "32" && a["maxdist"] == "200.0";
    assert a["bright"] == "{ \"sRGB nonlinear\" 1 1 1 }" && a["dark"] == "{ \"sRGB nonlinear\" 0 0 0 }";
    DefaultValuesClean();
  }

  lemma DefaultValuesClean()
    ensures NoNewline("1280 959") && NoNewline("1 2") && NoNewline("4") && NoNewline("gaussian")
    ensures NoNewline("1") && NoNewline("ambocc") && NoNewline("32") && NoNewline("200.0")
    ensures NoNewline("{ \"sRGB nonlinear\" 1 1 1 }") && NoNewline("{ \"sRGB nonlinear\" 0 0 0 }")
  {
    assert NoNewline("1280 959") && NoNewline("1 2") && NoNewline("4") && NoNewline("gaussian");
    assert NoNewline("1") && NoNewline("ambocc") && NoNewline("32") && NoNewline("200.0");
    assert NoNewline("{ \"sRGB nonlinear\" 1 1 1 }");
    assert NoNewline("{ \"sRGB nonlinear\" 0 0 0 }");
  }

  /**
   * With shadows on, a selected template and a newline-free colour and number
   * format, the floor text is the shader record followed by the plane record,
   * and both read back.
   */
  lemma FloorSceneReadsBack(shadow: int, shader: string, color: string, lowest: Point, angle: real, n0: real,
                            t: Trig, fmt: real -> string)
    requires shadow != 0 && Lower(shader) in ShaderKinds && NoNewline(color) && CleanFormat(fmt)
    ensures var s := FloorText(shadow, ShaderTemplate(shader, color).value, lowest, angle, n0, t, fmt);
            var fs := ShaderFields(Lower(shader), color);
            var plane := PlaneFields(FloorPlacement(lowest), FloorNormal(n0, angle, t), fmt);
            && Lines(s) == RecordLines("shader", fs) + RecordLines("object", plane)
            && ParseRecord(RecordLines("shader", fs)) == Some(("shader", fs))
            && ParseRecord(RecordLines("object", plane)) == Some(("object", plane))
  {
    ShaderFieldsClean(Lower(shader), color);
    assert NoNewline("shader");
    FloorTextReadsBack(shadow, "shader", ShaderFields(Lower(shader), color), lowest, angle, n0, t, fmt);
  }

  class Image {
    var attr: map<string, string>
    /** The least rotated height seen so far; None is +infinity. */
    var floorHeight: Option<real>
    /** The floor plane's point and normal ("floor:p" and "floor:n"). */
    var floorP: array<real>
    var floorN: array<real>
    var dof: bool
    var maxz: real
    var minz: real
    var floorShadow: int
    var outputWidth: int
    var floorAngle: real
    var minHeight: Option<real>
    var lowestPoint: array<real>

    ghost predicate Valid()
      reads this
    {
      && floorP.Length == 3 && floorN.Length == 3 && lowestPoint.Length == 3
      && floorP != floorN && floorP != lowestPoint && floorN != lowestPoint
      && AttrValid(attr)
    }

    /** The recorded lowest point. */
    function Lowest(): Point
      reads this, lowestPoint
      requires lowestPoint.Length == 3
    {
      Point(lowestPoint[0], lowestPoint[1], lowestPoint[2])
    }

    /** What the floor search has gathered, as a value. */
    function Reduction(): Floor
      reads this, lowestPoint
      requires lowestPoint.Length == 3
    {
      Floor(floorHeight, Lowest(), maxz, minz)
    }

    constructor()
      ensures Valid()
      ensures attr == DefaultAttr()
      ensures fresh(floorP) && fresh(floorN) && fresh(lowestPoint)
      ensures floorP[0] == 0.0 && floorP[1] == 0.0 && floorP[2] == 0.0
      ensures floorN[0] == 0.0 && floorN[1] == 1.0 && floorN[2] == 0.0
      ensures Reduction() == InitialFloor() && minHeight == None
      ensures !dof && floorShadow == 1 && outputWidth == 1280 && floorAngle == 90.0
    {
      attr := DefaultAttr();
      floorHeight := None;
      floorP := new real[3](_ => 0.0);
      floorN := new real[3](i => if i == 1 then 1.0 else 0.0);
      dof := false;
      maxz := -200.0;
      minz := 200.0;
      floorShadow := 1;
      outputWidth := 1280;
      floorAngle := 90.0;
      minHeight := None;
      lowestPoint := new real[3](_ => 0.0);
      new;
      DefaultAttrValid();
      assert Lowest() == Point(0.0, 0.0, 0.0);
    }

    method SetFloorAngle(angle: real)
      requires Valid()
      modifies this`floorAngle
      ensures Valid() && floorAngle == angle
    {
      floorAngle := angle;
    }

    method SetOutputWidth(width: int)
      requires Valid()
      modifies this`outputWidth
      ensures Valid() && outputWidth == width
    {
      outputWidth := width;
    }

    method SetFloorShadow(flag: int)
      requires Valid()
      modifies this`floorShadow
      ensures Valid() && floorShadow == flag
    {
      floorShadow := flag;
    }

    /** The global shader name is stored and nothing here reads it. */
    method SetGlobalShader(shader: string)
      requires Valid()
      modifies this`attr
      ensures Valid() && attr == old(attr)["globalShader" := shader]
    {
      attr := attr["globalShader" := shader];
    }

    /** Sets the colour later shader selections use; a shader already built keeps its colour. */
    method SetFloorColor(color: string)
      requires Valid()
      modifies this`attr
      ensures Valid() && attr == old(attr)["floor:color" := color]
      ensures attr["floor:shader"] == old(attr["floor:shader"])
    {
      attr := attr["floor:color" := color];
    }

    /**
     * Selects the floor shader by a case-insensitive name, built with the
     * current floor colour; an unrecognised name changes nothing.
     */
    method SetFloorShader(shader: string)
      requires Valid()
      modifies this`attr
      ensures Valid()
      ensures ShaderTemplate(shader, old(attr["floor:color"])).Some? ==>
                attr == old(attr)["floor:shader" := ShaderTemplate(shader, old(attr["floor:color"])).value]
      ensures ShaderTemplate(shader, old(attr["floor:color"])).None? ==> attr == old(attr)
    {
      var t := ShaderTemplate(shader, attr["floor:color"]);
      if t.Some? {
        attr := attr["floor:shader" := t.value];
      }
    }

    /**
     * Looks at one point of the scene: its height after undoing the floor
     * angle may lower the floor and replace the lowest point, and its z may
     * widen the depth range.
     */
    method CheckLowestPoint(cp: Point, t: Trig)
      requires Valid()
      modifies this`floorHeight, this`maxz, this`minz, lowestPoint
      ensures Valid()
      ensures Reduction() == Observe(old(Reduction()), cp, floorAngle, t)
    {
      var np := Rotate(cp, floorAngle, t);
      if Below(np.y, floorHeight) {
        floorHeight := Some(np.y);
        lowestPoint[0] := cp.x;
        lowestPoint[1] := cp.y;
        lowestPoint[2] := cp.z;
      }
      if cp.z > maxz {
        maxz := cp.z;
      }
      if cp.z < minz {
        minz := cp.z;
      }
    }

    /** The opening blocks of the scene description. */
    method SCString() returns (s: string)
      requires Valid()
      ensures s == MainBlock(attr)
    {
      var imageStr := Record("image", ImageFields(attr));
      var traceDepthsStr := Record("trace-depths", TraceDepthFields(attr));
      var giStr := Record("gi", GiFields(attr));
      // The background record's own final newline is the one the outer
      // format adds after the background block.
      var bgStr := Record("background", BackgroundFields());
      s := imageStr + "\n" + traceDepthsStr + "\n" + giStr + "\n" + bgStr;
    }

    /**
     * The floor text. With shadows off it is empty and nothing changes;
     * otherwise the plane normal is tilted by the floor angle, the plane point
     * is put 2 below the lowest point, and the text is the floor shader
     * followed by the plane.
     */
    method FloorSCString(t: Trig, fmt: real -> string) returns (s: string)
      requires Valid()
      modifies floorP, floorN
      ensures Valid()
      ensures s == FloorText(floorShadow, attr["floor:shader"], Lowest(), floorAngle, old(floorN[0]), t, fmt)
      ensures floorShadow == 0 ==> floorP[..] == old(floorP[..]) && floorN[..] == old(floorN[..])
      ensures floorShadow != 0 ==>
                && floorP[..] == [lowestPoint[0], lowestPoint[1] - 2.0, lowestPoint[2]]
                && floorN[..] == [old(floorN[0]), t.cosDeg(floorAngle), t.sinDeg(floorAngle)]
    {
      if floorShadow == 0 {
        return "";
      }
      floorN[1] := t.cosDeg(floorAngle);
      floorN[2] := t.sinDeg(floorAngle);
      floorP[0] := lowestPoint[0];
      floorP[1] := lowestPoint[1] - 2.0;
      floorP[2] := lowestPoint[2];
      var p := Point(floorP[0], floorP[1], floorP[2]);
      var n := Point(floorN[0], floorN[1], floorN[2]);
      assert p == FloorPlacement(Lowest());
      assert n == FloorNormal(old(floorN[0]), floorAngle, t);
      s := attr["floor:shader"] + PlaneBlock(p, n, fmt);
      assert floorP[..] == [floorP[0], floorP[1], floorP[2]];
      assert floorN[..] == [floorN[0], floorN[1], floorN[2]];
    }
  }
}
