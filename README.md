# Image settings and floor plane of a scene description

This project models the `Image` class of `image.py`. The class keeps the
settings a renderer's scene description opens with: the image, trace-depths,
gi and background blocks. It also keeps a synthetic floor plane. The floor's
shader is chosen by name from five fixed templates, and its placement comes
from a running reduction over the points of the scene. Each point is rotated
by the negated floor angle about the x axis. The lowest rotated height is
kept, together with the un-rotated point that first reached it and the raw z
range used for depth of field. The plane is then put 2 units below that
point.

Modules, in dependency order:

- `Wrappers` (`wrappers.dfy`): `Option`. A height of `None` stands for the
  source's `1e3000`, which is +infinity in Python.
- `SceneText` (`scene_text.dfy`): the text grammar of the scene description.
  `Unlines`/`Lines` join and split lines. `Record(name, fields)` builds a
  `name {` / tab-indented `key value` lines / `}` block. `ParseRecord` is its
  decoder, and the round trips between them are proved.
- `FloorShader` (`floor_shader.dfy`): ASCII lower-casing and the five shader
  templates (`ShaderTemplate`).
- `FloorReduction` (`floor_reduction.dfy`): points, the rotation, and the
  floor state as a value. `Observe` handles one point and `ObserveAll` a
  sequence of them. Lemmas characterise the result over any sequence.
- `SceneBlocks` (`scene_blocks.dfy`): the four opening blocks (`MainBlock`)
  and the floor text (`FloorText`), each with a read-back lemma.
- `Scene` (`image.dfy`): the class `Image`, its fields and its methods. Each
  method is proved against the functions above.

Cosine and sine of an angle in degrees are a parameter, `Trig`. A result that
needs a particular value, such as cos 0 = 1, says so in its requires. The
`%f` number formatting is a parameter too, `fmt: real -> string`.

Facts about `image.py` that the model pins down:

- The shader key is `diff`, not `diffuse`. The word `diffuse` only appears on
  the template's `type` line (`DiffuseIsNotAName`).
- The rotation is by the negated floor angle. For a floor angle of 90 the code
  rotates by -90 degrees, so a point (x, y, z) becomes (x, z, -y), and its
  height is its z (`RotateNinety`).
- The default trace depths are diff 1, refl 4, refr 4, as the constructor sets
  them. The commented example block in the file shows 4, 3, 2.
- The background block has no newline of its own after its closing brace; the
  outer format string adds exactly one. The opening text therefore ends in
  `}` and one newline, and the background record is not followed by an empty
  line, while each of the other three records is. `MainBlock` writes the
  background as a complete record, whose own final newline is that one
  newline (`MainBlock`, `MainBlockReadsBack`).

## Model

| member | source | states |
|---|---|---|
| FloorShader.Lower | image.py:109 | the lower-cased name has the same length, each capital A to Z becomes its own small letter (code + 32), no capital is left, and every other character is kept |
| FloorShader.LowerSameUpToCase | image.py:109 | two names lower-case alike exactly when they are equal up to ASCII case, position by position (the same character, or a capital and its small letter) |
| FloorShader.ShaderFields | image.py:111-119 | each template's fields start with "name floor" and a "type" field, 3 to 5 fields in all; for a recognised kind the type is the kind itself, except diffuse for diff |
| FloorShader.ShaderTemplate | image.py:108-119 | a template exists exactly when the lower-cased name is one of diff, glass, mirror, shiny, phong |
| FloorShader.ShaderTemplateCaseInsensitive | image.py:109 | names equal up to ASCII case (`SameUpToCase`) select the same template, and a name selects what its lower-cased form selects |
| FloorShader.DiffTemplateText | image.py:111 | for every colour, the diff template is the text "shader {\n\tname floor\n\ttype diffuse\n\tdiff " + colour + "\n}\n" of the source's literal |
| FloorShader.DiffuseIsNotAName | image.py:110-111 | "diffuse" selects nothing, and "DIFF" selects the same template as "diff" |
| FloorShader.ShaderTemplateReadsBack | image.py:108-119 | with a newline-free colour, each template reads back as a "shader" record whose first fields are "name floor" and the branch's type (diffuse for diff), followed by that branch's fields with the colour in them |
| FloorShader.GlassShaderLines | image.py:113 | the glass template has the lines "\ttype glass" and "\teta 1.33" |
| FloorShader.ShaderColorRecoverable | image.py:111-119 | the colour is substituted verbatim: two newline-free colours giving the same template text are equal |
| SceneText.LinesUnlines | image.py:168 | joining newline-free lines with a newline after each and splitting the result gives the lines back |
| SceneText.UnlinesLines | image.py:168 | splitting a text that ends in a newline and joining it again gives the text back |
| SceneText.RecordRoundTrip | image.py:148 | a block with a newline-free name and clean fields splits into its header, field lines and closing brace, and parses back to that name and those fields |
| FloorReduction.Rotate | image.py:129 | the rotation keeps the x coordinate |
| FloorReduction.Height | image.py:129-130 | the height compared is the rotated y: the point's y when the rotation is the identity (cos 1, sin 0), and its z for a rotation by -90 degrees (cos 0, sin -1) |
| FloorReduction.RotateZero | image.py:129 | with cos 0 = 1 and sin 0 = 0, a floor angle of 0 leaves every point unchanged |
| FloorReduction.RotateNinety | image.py:129 | with cos(-90) = 0 and sin(-90) = -1, a floor angle of 90 maps (x, y, z) to (x, z, -y) |
| FloorReduction.InitialFloor | image.py:58-86 | the starting height is above every real (the source's 1e3000), the lowest point is the origin, and the z seeds are maxz -200 and minz 200 |
| FloorReduction.ObserveAll | image.py:128-138 | repeated `checkLowestPoint` calls at one angle: once a point is seen the height is set, it never rises above the starting height, and the z range only widens |
| FloorReduction.Observe | image.py:128-138 | the new height is the minimum of the old height (+infinity when unset) and the point's rotated height, so it never increases; the lowest point is replaced by the un-rotated point only on a strictly lower height; maxz and minz become the max and min of their old value and the point's raw z |
| FloorReduction.ObserveAllLowest | image.py:130-134 | from the initial state, the height is unset exactly when no point was seen; otherwise it is the least rotated height over all points, and the lowest point is the first point reaching it (every earlier point is strictly higher) |
| FloorReduction.ObserveAllDepthRange | image.py:135-138 | from any start, maxz is at least its seed and every z seen and equals one of them; likewise minz is the least of its seed and the z values |
| FloorReduction.ObserveAllHeightOrderFree | image.py:130-131 | any rearrangement of the same points gives the same floor height |
| FloorReduction.ObserveAllLowestOrderFree | image.py:130-134 | when no two different points share a rotated height, any rearrangement of the points gives the same lowest point |
| FloorReduction.LowestPointPrefersEarlier | image.py:130 | two points of equal height give different lowest points in the two orders: the earlier one is kept |
| FloorReduction.ThreePointFloor | image.py:128-138 | at angle 0 the points (0,5,0), (0,2,0), (0,8,0) give height 2, lowest point (0,2,0) and z range [0, 0] |
| SceneBlocks.FloorNormal | image.py:180-181 | the plane normal keeps the x component it had; only y and z are set from the floor angle |
| SceneBlocks.HeightAlongNormal | image.py:129-130 | with cosine even and sine odd, the height the floor search compares is the point's component along the plane normal `floorSCString` writes, so the plane is perpendicular to the direction heights are measured in |
| SceneBlocks.FloorPlacement | image.py:183-185 | the plane point is the lowest point with y lowered by 2, and x and z unchanged |
| SceneBlocks.PlaneBlock | image.py:186 | the plane text starts with "object {" and a newline, and ends with "}" and a newline |
| SceneBlocks.PlaneBlockReadsBack | image.py:186 | with a newline-free number format, the plane text reads back as an "object" record with shader floor, type plane, p = the formatted point and n = the formatted normal |
| SceneBlocks.FloorText | image.py:170-186 | the floor text is empty exactly when floorShadow is 0 |
| SceneBlocks.FloorTextStartsWithShader | image.py:186 | with shadows on, the floor text starts with the shader text and is longer than it |
| SceneBlocks.FloorTextReadsBack | image.py:174-186 | with shadows on and a shader record, the floor text splits into the shader record's lines and then the plane record's lines. The plane reads back as shader floor, type plane, p = formatted placement, n = formatted normal |
| SceneBlocks.MainBlock | image.py:148-168 | the opening text ends with the background's closing brace and a single newline, with no empty line after it |
| SceneText.RecordEnding | image.py:148 | every record ends with "}" and one newline |
| SceneBlocks.MainBlockLines | image.py:141-168 | with newline-free values, the opening text splits into the image, trace-depths, gi and background records, in that order, with one empty line after each of the first three and nothing after the background |
| SceneBlocks.MainBlockReadsBack | image.py:148-168 | the opening text is 24 lines: each of the four records reads back with its attribute values in the source's field order, empty lines sit at 6, 12 and 20, and the background's "}" is the last line. The gi "samples" field carries "gi:samples", and the background colour is the constant 1.0 1.0 1.0 |
| SceneBlocks.MainBlockIgnoresBackgroundColor | image.py:166-167 | changing "bg_color" does not change the opening text |
| Scene.DefaultAttr | image.py:33-89 | the initial table holds every key the opening blocks read, "bg_color", and global shader "diff" |
| Scene.DefaultAttrFloor | image.py:54-61 | the initial floor colour is 1.0 1.0 1.0 and the initial floor shader is the diffuse template text in that colour |
| Scene.DefaultShaderLiteral | image.py:61 | the initial shader text is, character for character, the literal the constructor writes |
| Scene.DefaultShaderIsDiffTemplate | image.py:61 | the initial floor shader is the diff template with the initial colour 1.0 1.0 1.0 |
| Scene.DefaultAttrValid | image.py:33-89 | the initial table has every key the blocks read, and its floor shader is one of the templates |
| Scene.DefaultMainValuesClean | image.py:35-50 | the initial image, trace-depths and gi values are free of newlines, so the initial opening text reads back |
| Scene.FloorSceneReadsBack | image.py:170-186 | with shadows on, a selected template and clean colour and format, the floor text is the shader record followed by the plane record, both reading back |
| Scene.Image.constructor | image.py:32-89 | installs the initial table, floor point (0,0,0), normal (0,1,0), unset height, lowest point at the origin, z seeds -200/200, shadows on, width 1280, angle 90 |
| Scene.Image.SetFloorAngle | image.py:92-93 | sets the floor angle and nothing else |
| Scene.Image.SetOutputWidth | image.py:95-96 | sets the output width and nothing else |
| Scene.Image.SetFloorShadow | image.py:98-99 | sets the shadow flag and nothing else |
| Scene.Image.SetGlobalShader | image.py:101-102 | sets the "globalShader" entry and nothing else |
| Scene.Image.SetFloorColor | image.py:104-105 | sets the "floor:color" entry and nothing else; the stored shader text keeps the colour it was built with |
| Scene.Image.SetFloorShader | image.py:108-119 | for a recognised name only the "floor:shader" entry changes, to the template built with the current floor colour; an unrecognised name changes nothing |
| Scene.Image.CheckLowestPoint | image.py:128-138 | the new floor height, lowest point and z range are `Observe` of the old ones and the point at the current floor angle; nothing else changes |
| Scene.Image.SCString | image.py:141-168 | returns the opening text `MainBlock` of the current table, changing nothing |
| Scene.Image.FloorSCString | image.py:170-186 | with shadows off, returns "" and leaves the plane arrays unchanged. Otherwise it sets p to (lp0, lp1 - 2, lp2), sets n to (old n0, cos angle, sin angle), and returns `FloorText`: the shader text followed by the plane record |

## Left out

- Trigonometry and floating point: `math.cos`, `math.sin` and `math.radians` are the `Trig` parameter, and all arithmetic is on exact reals. Rounding, NaN and infinite coordinates are not modelled.
- `%f` formatting of the plane's coordinates is the `fmt` parameter. Its six-digit output is not modelled.
- `FloorShader.Lower`: lower-casing is ASCII only. Python's `str.lower` maps far more characters. The only non-ASCII character it maps into ASCII letters is the Kelvin sign, which becomes 'k', and no shader key has a 'k', so the same names are recognised.
- Arguments are typed. The shadow flag is an `int` (Python's `False` compares equal to 0), the angle is a `real`, and a point is three reals rather than any indexable value.
- `floor:p` and `floor:n` are the array fields `floorP` and `floorN`, not entries of the string table, because their values are numeric lists.
- A missing key (Python's `KeyError`) cannot happen. `Valid` keeps every key the methods read, the constructor installs them all, and no method removes one.
- `dof`, `minHeight`, `outputWidth` and the `globalShader` entry are stored and never read in this file. `dof` and `minHeight` only get their initial values; `SetOutputWidth` and `SetGlobalShader` only overwrite the other two.
- `FloorReduction.ObserveAll` and its lemmas use one floor angle for the whole sequence. The class lets the angle change between calls, and `CheckLowestPoint` always uses the current angle.
- The caller that streams the scene's points into `checkLowestPoint`, the camera that reads the depth range, and writing the scene file are not part of this model.
- The commented-out depth-of-field notes and alternative defaults in `image.py` are not modelled.
