# Figura avatar core in Dafny

A model of the core of Figura, a Minecraft mod that renders player-made
avatars. It covers:

- **Model parts.** How an avatar's model part tree is decoded from its NBT
  compound (cuboid and mesh geometry packed into per-texture vertex buffers,
  texture sizes checked across children). It also covers the `FiguraModelPart`
  object: visibility inherited from the parent, child lookup through
  `__index` and its cache, parent and render types set from Lua, vanilla
  transforms applied to humanoid and elytra parts, and the render budget
  shared while vertices are pushed.
- **Trust.** The trust containers and the trust manager: settings stored in
  NBT, groups and players, increasing and decreasing trust along the group
  order, and the default presets.
- **Config.** A config entry: how typed text replaces its value (including
  the enum wrap) and which text an input field accepts.
- **Vectors and matrices.** The `vec`/`vec2`…`vec6` and `mat2`…`mat4`
  constructors of the Lua math API.

Java's `%`, 32-bit wrap-around and `(int)` casts are written out in
module `JavaInt`. NBT compounds are maps from keys to tags, and the getters
return the game's defaults for missing or mistyped keys.

Layout:

- The model-part decoder is pure (`PartDecoder`, producing `PartData` values).
- The vertex-buffer writer is a class with its buffers as fields
  (`PartReading.PartReader`), proved against the functions in `Cuboids` and
  `Meshes`.
- The live part is a class (`ModelParts.ModelPart`) built from decoded
  `PartData`.
- The trust manager is a class over maps of `TrustContainer` objects
  (`TrustModel.TrustManager`).

Where the code and its documentation disagree, the model follows the code.
An unknown `pt` (parent type) string in a part's NBT makes
`ParentType.valueOf` throw inside `read`, so the whole decode fails.
`PartDecoder.BadParentTypeFails` states this. It is not treated as falling
back to `None`.

Source paths in the table are relative to the repository root.

## Model

| member | source | states |
|---|---|---|
| RenderBudget.Walk | src/main/java/org/moon/figura/avatars/model/FiguraModelPart.java:59-66 | at most one push per texture slot |
| RenderBudget.WalkFrom | src/main/java/org/moon/figura/avatars/model/FiguraModelPart.java:59-66 | the loop from one slot on: a slot is reached only while the budget is positive, is charged all its faces, and pushes its faces less the overdraft; `WalkFromSpec` states its closed form |
| RenderBudget.WalkFromSpec | src/main/java/org/moon/figura/avatars/model/FiguraModelPart.java:59-66 | the walk from any slot pushes min(faces, budget before) at each slot until the budget runs out, and leaves the budget before the slot it stops at |
| RenderBudget.WalkSpec | src/main/java/org/moon/figura/avatars/model/FiguraModelPart.java:59-66 | exactly the slots before the first one met with no budget push, each min(its faces, the budget before it), and the budget left is the start minus the faces of the slots reached |
| RenderBudget.ExhaustedBudgetSkips | src/main/java/org/moon/figura/avatars/model/FiguraModelPart.java:59-66 | a part reached with no budget left pushes nothing and leaves the budget as it is |
| RenderBudget.PushesBounded | src/main/java/org/moon/figura/avatars/model/FiguraModelPart.java:59-66 | no texture pushes more faces than it has |
| RenderBudget.PushedTotal | src/main/java/org/moon/figura/avatars/model/FiguraModelPart.java:59-66 | the first k pushes add up to the smaller of the budget and the faces of the first k slots |
| JavaInt.Rem | src/main/java/org/moon/figura/config/Config.java:183 | Java's `%`: the remainder has the dividend's sign, is smaller in magnitude than the divisor, and differs from the dividend by a multiple of the divisor, which fixes it |
| JavaInt.ModUnique | src/main/java/org/moon/figura/config/Config.java:183 | the Euclidean remainder is the only value in [0, b) that recomposes the dividend |
| JavaInt.Min | src/main/java/org/moon/figura/avatars/model/FiguraModelPart.java:62 | `Math.min`: at most both arguments and equal to one of them |
| JavaInt.Wrap32 | src/main/java/org/moon/figura/avatars/model/FiguraModelPart.java:1100 | an `int` result lies in the 32-bit range, is congruent to the exact result modulo 2^32, and equals it when that is in range |
| JavaInt.CastToInt | src/main/java/org/moon/figura/avatars/model/FiguraModelPart.java:1027 | the `(int)` cast truncates toward zero, gives INT_MIN at or below INT_MIN and INT_MAX at or above INT_MAX, and is within 1 of the value in between |
| Config.ToLowerAscii | src/main/java/org/moon/figura/config/Config.java:146 | lower-casing keeps the length and maps each character through the ASCII lower-case mapping |
| Config.NatToString | src/main/java/org/moon/figura/config/Config.java:153-155 | the decimal text of a number is a non-empty string of digits |
| Config.NatToStringRoundTrip | src/main/java/org/moon/figura/config/Config.java:153-155 | reading the decimal text of n back gives n |
| Config.SignPart | src/main/java/org/moon/figura/config/Config.java:168 | the sign prefix is empty or one sign character, and a prefix of the text |
| Config.IntegerSplitUnique | src/main/java/org/moon/figura/config/Config.java:168 | a given sign-and-digits split of a text is the one `SignPart` and the rest after it give |
| Config.IntegerSplitsOf | src/main/java/org/moon/figura/config/Config.java:168 | every sign-and-digits split of a text is the one `SignPart` and the rest after it give |
| Config.ParseInteger | src/main/java/org/moon/figura/config/Config.java:164-177 | parsing succeeds iff the text is an optional sign plus at least one digit whose value lies in the type's range, and then it yields that value |
| Config.WrapIsEuclideanRemainder | src/main/java/org/moon/figura/config/Config.java:181-184 | `((n % len) + len) % len` with Java's `%` lands in [0, len) and equals the Euclidean remainder, also for negative n |
| Config.SetValueOutcome | src/main/java/org/moon/figura/config/Config.java:160-187 | a string entry takes the text, a throwing parse restores the default, and an enum entry ends in [0, length) unless it is the default |
| Config.ParseAs | src/main/java/org/moon/figura/config/Config.java:163-179 | the per-type parse of `setValue`: a string takes the text, a boolean is whether the text is "true" ignoring case, each integer type parses the text within its own range, the float types take the float parser's value, and no value stands for the exception |
| Config.Wrap | src/main/java/org/moon/figura/config/Config.java:181-184 | the enum wrap always lands in [0, length); `WrapIsEuclideanRemainder` shows it is n mod length |
| Config.IntTextParses | src/main/java/org/moon/figura/config/Config.java:183 | the decimal text of any `int` parses back to it |
| Config.EnumSetValueWraps | src/main/java/org/moon/figura/config/Config.java:181-184 | setting an enum entry to the text of any `int` n stores n modulo the enum length |
| Config.IntPatternShape | src/main/java/org/moon/figura/config/Config.java:205 | the INT pattern accepts exactly an optional sign followed by digits |
| Config.IntValidator | src/main/java/org/moon/figura/config/Config.java:205 | the INT validator accepts a text iff it has that shape |
| Config.DigitRun | src/main/java/org/moon/figura/config/Config.java:206 | the longest leading run of digits |
| Config.DigitRunOfSplit | src/main/java/org/moon/figura/config/Config.java:206 | digits followed by a non-digit split at the end of the digit run |
| Config.FloatSplitDetermined | src/main/java/org/moon/figura/config/Config.java:206 | the FLOAT pattern's sign, integer and fraction parts are determined by the text |
| Config.FloatPatternShape | src/main/java/org/moon/figura/config/Config.java:206 | the FLOAT pattern matches iff the text is sign, digits, and an optional dot with at least one digit |
| Config.FloatValidator | src/main/java/org/moon/figura/config/Config.java:206 | the FLOAT validator accepts the pattern, any text ending in a dot, and the empty text |
| Config.HexPatternShape | src/main/java/org/moon/figura/config/Config.java:207 | the HEX_COLOR pattern accepts an optional `#` and at most six hex digits |
| Config.HexColorValidator | src/main/java/org/moon/figura/config/Config.java:207 | the HEX_COLOR validator accepts a text iff it has that shape |
| Config.ConfigEntry.constructor | src/main/java/org/moon/figura/config/Config.java:136-157 | value, default and config value start equal; name and tooltip keys come from the lower-cased enum name; the enum list has `length` labels numbered from 1 |
| Config.ConfigEntry.SetValue | src/main/java/org/moon/figura/config/Config.java:159-189 | the new value is `SetValueOutcome` of the old one, and the config value follows it; a category's null value throws with nothing changed |
| VectorsApi.Components | src/main/java/org/moon/figura/lua/api/math/VectorsAPI.java:53-64 | the components are the six arguments in order |
| VectorsApi.Vec2Of | src/main/java/org/moon/figura/lua/api/math/VectorsAPI.java:75-79 | `vec2` takes its two arguments, with nil read as 0 |
| VectorsApi.Vec3Of | src/main/java/org/moon/figura/lua/api/math/VectorsAPI.java:89-94 | `vec3` takes its three arguments, with nil read as 0 |
| VectorsApi.Vec4Of | src/main/java/org/moon/figura/lua/api/math/VectorsAPI.java:104-110 | `vec4` takes its four arguments, with nil read as 0 |
| VectorsApi.Vec5Of | src/main/java/org/moon/figura/lua/api/math/VectorsAPI.java:120-127 | `vec5` takes its five arguments, with nil read as 0 |
| VectorsApi.Vec6Of | src/main/java/org/moon/figura/lua/api/math/VectorsAPI.java:137-145 | `vec6` takes its six arguments, with nil read as 0 |
| VectorsApi.Vec | src/main/java/org/moon/figura/lua/api/math/VectorsAPI.java:53-64 | `vec` chooses the size from the last non-nil argument (2 to 6) and fills the components from the arguments |
| VectorsApi.VecGapIsZero | src/main/java/org/moon/figura/lua/api/math/VectorsAPI.java:53-94 | a nil argument before the last non-nil one becomes 0 |
| VectorsApi.VecSizeDependsOnNils | src/main/java/org/moon/figura/lua/api/math/VectorsAPI.java:53-64 | the size depends only on which arguments are nil |
| MatricesApi.Mat2 | src/main/java/org/moon/figura/lua/api/math/MatricesAPI.java:37-45 | all columns nil gives the default matrix `of()`; some but not all nil fails with "Invalid arguments to mat2(), needs 0 or 2 arguments!"; otherwise the 2x2 matrix holds the entries column by column |
| MatricesApi.Mat3 | src/main/java/org/moon/figura/lua/api/math/MatricesAPI.java:59-68 | all columns nil gives the default matrix `of()`; some but not all nil fails with "Invalid arguments to mat3(), needs 0 or 3 arguments!"; otherwise the 3x3 matrix holds the entries column by column |
| MatricesApi.Mat4 | src/main/java/org/moon/figura/lua/api/math/MatricesAPI.java:82-92 | all columns nil gives the default matrix `of()`; some but not all nil fails with "Invalid arguments to mat4(), needs 0 or 4 arguments!"; otherwise the 4x4 matrix holds the entries column by column |
| ParentTypes.Ordinal | src/main/java/org/moon/figura/avatars/model/FiguraModelPart.java:126-139 | the declaration order of the parent types, one distinct ordinal each |
| ParentTypes.Vanilla | src/main/java/org/moon/figura/avatars/model/FiguraModelPart.java:126-142 | every parent type but `None` and `World` is vanilla |
| ParentTypes.Aliases | src/main/java/org/moon/figura/avatars/model/FiguraModelPart.java:144-149 | a type's alias list is its own name followed by its declared aliases |
| ParentTypes.StartsWith | src/main/java/org/moon/figura/avatars/model/FiguraModelPart.java:155 | `startsWith` holds iff the alias is a prefix of the string |
| ParentTypes.AnyPrefix | src/main/java/org/moon/figura/avatars/model/FiguraModelPart.java:153-156 | some alias in the list is a prefix of the string |
| ParentTypes.ResolveFrom | src/main/java/org/moon/figura/avatars/model/FiguraModelPart.java:151-158 | the first type from a position on whose aliases prefix the string, or `None` |
| ParentTypes.Resolve | src/main/java/org/moon/figura/avatars/model/FiguraModelPart.java:151-158 | `getForString` returns the first type in declaration order with a matching alias, and `None` when there is none |
| ParentTypes.GetForString | src/main/java/org/moon/figura/avatars/model/FiguraModelPart.java:151-158 | `getForString` with the aliases as written: `Resolve` over the declared alias table |
| ParentTypes.ResolvesTo | src/main/java/org/moon/figura/avatars/model/FiguraModelPart.java:151-158 | a type is returned iff it matches and no earlier type matches |
| ParentTypes.ElytraAliasUnresolved | src/main/java/org/moon/figura/avatars/model/FiguraModelPart.java:136-137 | the declared alias ends in "LEFT_ELYTRA", yet `getForString("LEFT_ELYTRA")` does not give `LeftElytra` |
| ParentTypes.IntendedElytraAliasResolves | src/main/java/org/moon/figura/avatars/model/FiguraModelPart.java:136-137 | with one alias per name, "LEFT_ELYTRA" resolves to `LeftElytra` |
| ParentTypes.ValueOf | src/main/java/org/moon/figura/avatars/model/FiguraModelPart.java:714-720 | `valueOf` succeeds iff the string is exactly a constant's name, and then returns that constant |
| Nbt.GetList | src/main/java/org/moon/figura/avatars/model/FiguraModelPart.java:817-818 | `getList` always yields a list, and a non-empty one has the element type asked for |
| Nbt.ListByte | src/main/java/org/moon/figura/avatars/model/FiguraModelPart.java:896 | reading a byte element succeeds iff the index is in range and the element is a byte tag |
| Nbt.Narrow | src/main/java/org/moon/figura/avatars/model/FiguraModelPart.java:1019 | narrowing a number to a smaller width wraps it into that width's range |
| NbtVectors.ReadVec3 | src/main/java/org/moon/figura/avatars/model/FiguraModelPart.java:888-904 | a missing key gives (0, 0, 0), and a value that is not a list throws the cast |
| NbtVectors.HasCubeData | src/main/java/org/moon/figura/avatars/model/FiguraModelPart.java:925-929 | a part has cube data iff `cube_data` holds a non-empty compound |
| NbtVectors.HasMeshData | src/main/java/org/moon/figura/avatars/model/FiguraModelPart.java:931-935 | a part has mesh data iff `mesh_data` holds a non-empty compound |
| NbtVectors.ReadVec3Cases | src/main/java/org/moon/figura/avatars/model/FiguraModelPart.java:888-904 | a list of an unhandled element type keeps the target; a float list gives its first three entries; int and short lists always give a value; a byte list gives one iff it holds three bytes |
| NbtVectors.ReadVec4 | src/main/java/org/moon/figura/avatars/model/FiguraModelPart.java:906-923 | a missing key gives (0, 0, 0, 0), and a value that is not a list throws the cast |
| NbtVectors.EmptyListKeepsTarget | src/main/java/org/moon/figura/avatars/model/FiguraModelPart.java:888-923 | an empty list under the key leaves the 3- and 4-vector targets unchanged |
| Geometry.RotationSteps | src/main/java/org/moon/figura/avatars/model/FiguraModelPart.java:1027 | the quarter turns `(int)(rot / 90)` lie in the `int` range |
| Geometry.FaceVertices | src/main/java/org/moon/figura/avatars/model/FiguraModelPart.java:1029-1042 | a face with valid UV indices yields four vertices |
| Geometry.FaceOnBox | src/main/java/org/moon/figura/avatars/model/FiguraModelPart.java:1029-1042 | each vertex of a face lies on a box corner in the plane of the face's side, carries the outward unit normal, and has a UV at a corner of the UV rectangle |
| Geometry.CornersTraceEdges | src/main/java/org/moon/figura/avatars/model/FiguraModelPart.java:937-986 | consecutive corners of a face differ in exactly one coordinate |
| Geometry.UnrotatedUvs | src/main/java/org/moon/figura/avatars/model/FiguraModelPart.java:1034-1039 | without rotation, the four UVs are the corners of the UV rectangle in order |
| Geometry.NonNegativeRotationValid | src/main/java/org/moon/figura/avatars/model/FiguraModelPart.java:1034 | a rotation in [0, 2^31 - 4] gives corner i the valid UV index (i + rotation) % 4 |
| Geometry.RotationShiftsCorners | src/main/java/org/moon/figura/avatars/model/FiguraModelPart.java:1034 | one more quarter turn gives each corner the UV index its successor had |
| Geometry.FullTurn | src/main/java/org/moon/figura/avatars/model/FiguraModelPart.java:1034 | four quarter turns give the same UVs as none |
| Geometry.NegativeRotationThrows | src/main/java/org/moon/figura/avatars/model/FiguraModelPart.java:1034 | every negative rotation gives some corner a negative UV index, so the array access throws |
| Cuboids.Grow | src/main/java/org/moon/figura/avatars/model/FiguraModelPart.java:1020-1023 | growing keeps the list as a prefix and pads it with the fill value up to the length asked for |
| Cuboids.Claim | src/main/java/org/moon/figura/avatars/model/FiguraModelPart.java:1019-1024 | a claim succeeds iff the slot is non-negative, and then both lists hold the slot |
| Cuboids.ClaimSpec | src/main/java/org/moon/figura/avatars/model/FiguraModelPart.java:1019-1024 | after a claim the slot exists, and every other slot and vertex is unchanged |
| Cuboids.EmitSpec | src/main/java/org/moon/figura/avatars/model/FiguraModelPart.java:1036-1041 | emitting a face appends its four vertices to its texture's buffer and nothing else |
| Cuboids.FaceSpec | src/main/java/org/moon/figura/avatars/model/FiguraModelPart.java:1016-1044 | one face of `readCuboid`: an absent face changes nothing; a present one claims its slot, reads the rotation and UVs, fails on a negative rotation and emits four vertices; `FaceAddsQuad` states what it adds |
| Cuboids.FaceAddsQuad | src/main/java/org/moon/figura/avatars/model/FiguraModelPart.java:1016-1044 | a present face adds one quad on the box to its texture, and an absent face adds nothing |
| Cuboids.FacesFromAddBoxQuads | src/main/java/org/moon/figura/avatars/model/FiguraModelPart.java:1009-1010 | the faces from a position count, on every slot, exactly the faces naming it, and add four vertices on the box per face counted |
| Cuboids.CuboidSpec | src/main/java/org/moon/figura/avatars/model/FiguraModelPart.java:992-1011 | the box read and inflated, then the six faces in order; `CuboidAddsBoxQuads` states what it adds |
| Cuboids.CuboidAddsBoxQuads | src/main/java/org/moon/figura/avatars/model/FiguraModelPart.java:992-1011 | a cuboid counts, on every slot, exactly the faces of `cube_data` naming it, adds four vertices per counted face, all on the inflated box, and leaves `ftDiff` at `to - from` |
| Cuboids.CuboidInflates | src/main/java/org/moon/figura/avatars/model/FiguraModelPart.java:998-1002 | with `f` and `t` absent the box runs from -inf to inf on every axis |
| Cuboids.NegativeRotationFailsFace | src/main/java/org/moon/figura/avatars/model/FiguraModelPart.java:1027-1034 | a face with a negative UV rotation fails the read |
| Meshes.BestType | src/main/java/org/moon/figura/avatars/model/FiguraModelPart.java:1069-1071 | byte indices iff at most 255 vertices, int indices iff more than 32767, short indices otherwise |
| Meshes.ListsOf | src/main/java/org/moon/figura/avatars/model/FiguraModelPart.java:1065-1077 | the index width read is byte, short or int |
| Meshes.VertexIndex | src/main/java/org/moon/figura/avatars/model/FiguraModelPart.java:1095-1099 | the vertex index of a packed entry in the chosen width, read unsigned for bytes and shorts, which `IndicesUnsigned` states |
| Meshes.IndicesUnsigned | src/main/java/org/moon/figura/avatars/model/FiguraModelPart.java:1095-1099 | a byte index is read as an unsigned byte and a short index as an unsigned short |
| Meshes.PackedSplits | src/main/java/org/moon/figura/avatars/model/FiguraModelPart.java:1085-1087 | a packed face entry is 16 times its slot plus its corner count, and the slot is negative iff the entry is |
| Meshes.LoadCorner | src/main/java/org/moon/figura/avatars/model/FiguraModelPart.java:1100-1105 | a corner loads only for j < 4 and keeps the sizes of the corner arrays |
| Meshes.LoadCorners | src/main/java/org/moon/figura/avatars/model/FiguraModelPart.java:1094-1106 | a face loads only with at most four corners and keeps the sizes of the corner arrays |
| Meshes.LoadCornerSpec | src/main/java/org/moon/figura/avatars/model/FiguraModelPart.java:1100-1105 | loading corner j fills that corner from the vertex and UV lists and leaves every other corner as it was |
| Meshes.LoadCornersSpec | src/main/java/org/moon/figura/avatars/model/FiguraModelPart.java:1094-1106 | after loading an n-corner face each of its corners holds its vertex and UV pair, and the later corners keep the previous face's values |
| Meshes.LoadCornersStops | src/main/java/org/moon/figura/avatars/model/FiguraModelPart.java:1094-1106 | once a corner fails, the whole face fails with that error |
| Meshes.TooManyCornersThrow | src/main/java/org/moon/figura/avatars/model/FiguraModelPart.java:1081-1102 | a face of five or more corners overruns the corner arrays and fails |
| Meshes.FaceOut | src/main/java/org/moon/figura/avatars/model/FiguraModelPart.java:1117-1128 | a triangle emits four vertices and any other face one per corner |
| Meshes.MeshFace | src/main/java/org/moon/figura/avatars/model/FiguraModelPart.java:1084-1132 | a face read successfully leaves the corner arrays at their sizes |
| Meshes.MeshFrom | src/main/java/org/moon/figura/avatars/model/FiguraModelPart.java:1084-1132 | the faces read successfully from a position leave the corner arrays at their sizes |
| Meshes.MeshFaceUnfold | src/main/java/org/moon/figura/avatars/model/FiguraModelPart.java:1084-1132 | a successful face is its slot claim, its corner load and its emitted vertices, with the cursors advanced by n and 2n |
| Meshes.MeshFaceCounts | src/main/java/org/moon/figura/avatars/model/FiguraModelPart.java:1085-1131 | a face read successfully has a non-negative slot and at most four corners, is counted once on its slot, leaves every other builder alone, and advances the cursors by n and 2n |
| Meshes.LoadedFaceOut | src/main/java/org/moon/figura/avatars/model/FiguraModelPart.java:1100-1122 | the emitted vertices carry the positions and UVs of the corners just loaded |
| Meshes.MeshFaceVertices | src/main/java/org/moon/figura/avatars/model/FiguraModelPart.java:1094-1128 | the vertices a face adds are its corners from the lists, with a triangle's third vertex repeated |
| Meshes.MeshAddsQuads | src/main/java/org/moon/figura/avatars/model/FiguraModelPart.java:1084-1132 | when every face has three or four corners, the faces from a position add four vertices per face counted on each slot |
| Meshes.MeshSpec | src/main/java/org/moon/figura/avatars/model/FiguraModelPart.java:1064-1133 | the mesh lists read, then every face in order until the first error; `MeshSpecAddsQuads` states what it adds |
| Meshes.MeshSpecAddsQuads | src/main/java/org/moon/figura/avatars/model/FiguraModelPart.java:1064-1133 | a whole mesh whose faces have three or four corners adds four vertices per face counted, slot by slot |
| TextureSizes.TexSizeOf | src/main/java/org/moon/figura/avatars/model/FiguraModelPart.java:838-882 | `storeTexSize`: the size the children agree on, then the one slot with faces; `TexSizeMatches` proves it equal to the reference definition |
| TextureSizes.StoreTexSize | src/main/java/org/moon/figura/avatars/model/FiguraModelPart.java:838-882 | the children loop and the slot loop compute the size `TexSizeOf` defines, (-1, -1) meaning none or several |
| TextureSizes.FirstPositive | src/main/java/org/moon/figura/avatars/model/FiguraModelPart.java:838-882 | the first slot from a position with faces, or the end |
| TextureSizes.ChildScanFrom | src/main/java/org/moon/figura/avatars/model/FiguraModelPart.java:838-882 | the children loop from a position gives the common size of the remaining children, or several |
| TextureSizes.ChildScanMatches | src/main/java/org/moon/figura/avatars/model/FiguraModelPart.java:838-882 | the children loop gives no size without children, the common size when they all share one, and several otherwise |
| TextureSizes.SlotScanSkips | src/main/java/org/moon/figura/avatars/model/FiguraModelPart.java:838-882 | slots without faces do not change the slot loop |
| TextureSizes.SlotScanMatches | src/main/java/org/moon/figura/avatars/model/FiguraModelPart.java:838-882 | the slot loop gives the first textured slot's size when it agrees with the children and no second slot has faces, several otherwise, and fails past the texture sets |
| TextureSizes.TexSizeMatches | src/main/java/org/moon/figura/avatars/model/FiguraModelPart.java:838-882 | `storeTexSize` gives several for mixed children, the children's size without geometry, and otherwise what the slots give |
| TextureSizes.MultipleChildMakesMultiple | src/main/java/org/moon/figura/avatars/model/FiguraModelPart.java:838-882 | a child with several sizes gives its parent (-1, -1) |
| TextureSizes.DifferentChildrenMakeMultiple | src/main/java/org/moon/figura/avatars/model/FiguraModelPart.java:838-882 | two children of different sizes give their parent (-1, -1) |
| TextureSizes.TwoSlotsMakeMultiple | src/main/java/org/moon/figura/avatars/model/FiguraModelPart.java:838-882 | faces in two texture slots give the part (-1, -1) |
| TextureSizes.SlotDisagreeingWithChildren | src/main/java/org/moon/figura/avatars/model/FiguraModelPart.java:838-882 | a textured slot whose size differs from the children's gives the part (-1, -1) |
| TextureSizes.EmptyPartHasNoSize | src/main/java/org/moon/figura/avatars/model/FiguraModelPart.java:838-882 | a part with no children and no geometry has size (-1, -1) |
| TextureSizes.SingleSlotLeaf | src/main/java/org/moon/figura/avatars/model/FiguraModelPart.java:838-882 | a leaf with one texture slot takes that slot's size |
| TextureSizes.ReportedSizeIsShared | src/main/java/org/moon/figura/avatars/model/FiguraModelPart.java:838-882 | a reported size is every child's size and the size of the one textured slot, and something has it |
| TextureSizes.TexSizePaired | src/main/java/org/moon/figura/avatars/model/FiguraModelPart.java:838-882 | with real texture sets and paired children, the width and height are both -1 or neither is |
| PartDecoder.DecodePart | src/main/java/org/moon/figura/avatars/model/FiguraModelPart.java:776-836 | `read` as a function of the compound and the shared state: rotation, pivot, render types, visibility, geometry, children, texture size and parent type, failing with the first exception; the lemmas below state its properties |
| PartDecoder.GeometryOf | src/main/java/org/moon/figura/avatars/model/FiguraModelPart.java:804-815 | cube data is read first, else mesh data, else the part is a group that adds nothing |
| PartDecoder.ParentTypeOf | src/main/java/org/moon/figura/avatars/model/FiguraModelPart.java:832-833 | `valueOf` of `pt` when the key is present, and `NONE` otherwise |
| PartDecoder.RenderTypeOf | src/main/java/org/moon/figura/avatars/model/FiguraModelPart.java:788-797 | a render type is set iff the key is present and names a render type, and then it is that name |
| PartDecoder.Sizes | src/main/java/org/moon/figura/avatars/model/FiguraModelPart.java:838-882 | the children's sizes in child order |
| PartDecoder.DecodeNumbersPreOrder | src/main/java/org/moon/figura/avatars/model/FiguraModelPart.java:804-823 | a part is a cuboid, mesh or group by its data; exactly parts with geometry get an index; the subtree's indices are consecutive from the counter, in pre-order |
| PartDecoder.DecodeChildrenStep | src/main/java/org/moon/figura/avatars/model/FiguraModelPart.java:819-821 | decoding one more child continues the numbering where the earlier children stopped |
| PartDecoder.DecodeChildrenNumbers | src/main/java/org/moon/figura/avatars/model/FiguraModelPart.java:817-822 | siblings are numbered in consecutive ranges |
| PartDecoder.DecodeFromZero | src/main/java/org/moon/figura/avatars/model/FiguraModelPart.java:772-774 | a decode started from index 0 numbers the tree 0 to n-1 |
| PartDecoder.DecodedSettings | src/main/java/org/moon/figura/avatars/model/FiguraModelPart.java:780-833 | the pivot is zero without `piv` and equals the rotation for an unhandled `piv` list; render types are set iff valid; visibility iff `vsb` is present; the parent type is the one `pt` names, `None` without it |
| PartDecoder.BadParentTypeFails | src/main/java/org/moon/figura/avatars/model/FiguraModelPart.java:832-833 | an unknown `pt` string fails the whole decode |
| PartDecoder.DecodedSizesPaired | src/main/java/org/moon/figura/avatars/model/FiguraModelPart.java:838-882 | every decoded part's width and height are both known or both unknown |
| PartDecoder.DecodeChildrenPaired | src/main/java/org/moon/figura/avatars/model/FiguraModelPart.java:817-822 | every decoded child's width and height are both known or both unknown |
| PartDecoder.DecodedSizeShared | src/main/java/org/moon/figura/avatars/model/FiguraModelPart.java:838-882 | a decoded part's known size is shared by all its sized children |
| PartReading.OutcomeOf | src/main/java/org/moon/figura/avatars/model/FiguraModelPart.java:776-836 | a method outcome passes iff the result is a value, and fails with the same message |
| PartReading.PartReader.constructor | src/main/java/org/moon/figura/avatars/model/FiguraModelPart.java:772-774 | the reader starts with the given builders, no face counts, the counter at 0 and the scratch vectors at zero |
| PartReading.PartReader.ClaimSlot | src/main/java/org/moon/figura/avatars/model/FiguraModelPart.java:1019-1024 | the face counts and builders after a claim are `Claim` of those before, and it fails when `Claim` does |
| PartReading.PartReader.EmitFace | src/main/java/org/moon/figura/avatars/model/FiguraModelPart.java:1036-1041 | the face's four vertices are appended to its builder iff every UV index is valid, and otherwise the array access fails |
| PartReading.PartReader.ReadFace | src/main/java/org/moon/figura/avatars/model/FiguraModelPart.java:1016-1044 | the state after a face is `FaceSpec` of the state before, and it fails when `FaceSpec` does |
| PartReading.PartReader.ReadCuboid | src/main/java/org/moon/figura/avatars/model/FiguraModelPart.java:992-1011 | the state after a cuboid is `CuboidSpec` of the state before, and it fails when `CuboidSpec` does |
| PartReading.PartReader.LoadFace | src/main/java/org/moon/figura/avatars/model/FiguraModelPart.java:1094-1106 | the corner arrays hold `LoadCorners` of their old contents, and it fails when `LoadCorners` does |
| PartReading.PartReader.EmitMeshFace | src/main/java/org/moon/figura/avatars/model/FiguraModelPart.java:1117-1128 | the face's builder gains `FaceOut` of the corner arrays and no other builder changes |
| PartReading.PartReader.ReadMeshFace | src/main/java/org/moon/figura/avatars/model/FiguraModelPart.java:1085-1131 | the state and cursors after a face are `MeshFace` of those before, and it fails when `MeshFace` does |
| PartReading.PartReader.ReadMeshRegular | src/main/java/org/moon/figura/avatars/model/FiguraModelPart.java:1064-1133 | the face counts and builders after a mesh are `MeshSpec` of those before, and it fails when `MeshSpec` does |
| PartReading.PartReader.ReadGeometry | src/main/java/org/moon/figura/avatars/model/FiguraModelPart.java:804-815 | the part type, face counts, builders and scratch vectors are those `GeometryOf` gives, or its error |
| PartReading.PartReader.Read | src/main/java/org/moon/figura/avatars/model/FiguraModelPart.java:776-836 | reading a part gives the decoded part and leaves the shared state `DecodePart` gives, or fails as it does |
| PartReading.PartReader.ReadChildren | src/main/java/org/moon/figura/avatars/model/FiguraModelPart.java:817-822 | reading the children gives their decoded data in order and the shared state `DecodeChildren` gives, or fails as it does |
| ModelParts.PartFor | src/main/java/org/moon/figura/avatars/model/FiguraModelPart.java:68-89 | a vanilla part is found iff the model is humanoid and the type a body part, or the model is an elytra and the type a wing |
| ModelParts.Latest | src/main/java/org/moon/figura/avatars/model/FiguraModelPart.java:95-118 | the last recorded customization of a kind exists iff some call of that kind was recorded |
| ModelParts.LatestAppend | src/main/java/org/moon/figura/avatars/model/FiguraModelPart.java:95-118 | a later call of a kind overrides every earlier one |
| ModelParts.VisibleIsNearest | src/main/java/org/moon/figura/avatars/model/FiguraModelPart.java:447-451 | a part's visibility is that of the nearest ancestor with its own setting, and true when none has one |
| ModelParts.ResetFollowsParent | src/main/java/org/moon/figura/avatars/model/FiguraModelPart.java:473-475 | after a reset, a part's visibility is its parent's |
| ModelParts.FirstNamed | src/main/java/org/moon/figura/avatars/model/FiguraModelPart.java:751-756 | the child lookup finds nothing iff no child has the name, and otherwise a child with that name |
| ModelParts.FirstNamedIsFirst | src/main/java/org/moon/figura/avatars/model/FiguraModelPart.java:751-756 | the child found is the first one with the name |
| ModelParts.ModelPart.constructor | src/main/java/org/moon/figura/avatars/model/FiguraModelPart.java:763-769 | the part takes the decoded name, index, face counts, texture size, parent type, visibility and render types, has no parent and an empty cache, and becomes the parent of each child |
| ModelParts.ModelPart.PushVerticesImmediate | src/main/java/org/moon/figura/avatars/model/FiguraModelPart.java:59-66 | the pushes and the budget left are those of `Walk` over the part's textures |
| ModelParts.ModelPart.GetVisible | src/main/java/org/moon/figura/avatars/model/FiguraModelPart.java:447-451 | the loop up the parent chain returns the inherited visibility |
| ModelParts.ModelPart.SetVisible | src/main/java/org/moon/figura/avatars/model/FiguraModelPart.java:461-463 | the part's own setting becomes the given one |
| ModelParts.ModelPart.ResetVisible | src/main/java/org/moon/figura/avatars/model/FiguraModelPart.java:473-475 | the part's own setting is cleared |
| ModelParts.ModelPart.Index | src/main/java/org/moon/figura/avatars/model/FiguraModelPart.java:748-759 | a cached key returns the cached result; otherwise the first child with the name, or nothing, is returned and cached; a valid cache stays valid |
| ModelParts.ModelPart.SetParentType | src/main/java/org/moon/figura/avatars/model/FiguraModelPart.java:714-720 | succeeds iff the string names a parent type, and then sets it; otherwise fails with the "Illegal ParentType" message and changes nothing |
| ModelParts.ModelPart.SetPrimaryRenderType | src/main/java/org/moon/figura/avatars/model/FiguraModelPart.java:511-517 | succeeds iff the name is a render type, and then sets it; otherwise fails with the "Illegal RenderType" message and changes nothing |
| ModelParts.ModelPart.SetSecondaryRenderType | src/main/java/org/moon/figura/avatars/model/FiguraModelPart.java:527-533 | the same for the secondary render type |
| ModelParts.ModelPart.GetTextureSize | src/main/java/org/moon/figura/avatars/model/FiguraModelPart.java:556-560 | returns the size iff neither dimension is -1, and otherwise fails with the mixed-size message |
| ModelParts.ModelPart.ApplyVanillaTransform | src/main/java/org/moon/figura/avatars/model/FiguraModelPart.java:95-110 | records the bonus pivot, position and rotation of the game part, or nothing when there is no part |
| ModelParts.ModelPart.ApplyVanillaTransforms | src/main/java/org/moon/figura/avatars/model/FiguraModelPart.java:68-89 | records the transform iff the parent type is vanilla and the model has the matching part |
| ModelParts.ModelPart.ResetVanillaTransforms | src/main/java/org/moon/figura/avatars/model/FiguraModelPart.java:112-118 | records the three zero bonuses for a vanilla parent type, and nothing otherwise |
| ModelParts.TransformCalls | src/main/java/org/moon/figura/avatars/model/FiguraModelPart.java:95-110 | the bonus pivot, position and rotation calls of a vanilla transform; `TransformSetsBonus` states their values |
| ModelParts.TransformSetsBonus | src/main/java/org/moon/figura/avatars/model/FiguraModelPart.java:95-110 | after a transform, the bonus pivot and position are the offset minus the part position (z flipped), and the rotation is the part's angles in degrees with x and y negated |
| ModelParts.ResetZeroesBonus | src/main/java/org/moon/figura/avatars/model/FiguraModelPart.java:112-118 | after a reset, all three bonuses are zero |
| TrustModel.MinOf | src/main/java/org/moon/figura/trust/TrustContainer.java:28-59 | the lower slider bound of each constant: 0, or null for the three declared without bounds |
| TrustModel.MaxOf | src/main/java/org/moon/figura/trust/TrustContainer.java:28-59 | the upper slider bound of each constant as declared, or null for a toggle |
| TrustModel.IsToggle | src/main/java/org/moon/figura/trust/TrustContainer.java:55-59 | a setting is a toggle iff either bound is null; `TrustKinds` names the toggles |
| TrustModel.CheckInfinity | src/main/java/org/moon/figura/trust/TrustContainer.java:62-64 | `checkInfinity`: a value past a non-null maximum; `InfinityAndToggles` states it |
| TrustModel.AsBoolean | src/main/java/org/moon/figura/trust/TrustContainer.java:67-69 | `asBoolean`: on from 1 upwards |
| TrustModel.TrustKinds | src/main/java/org/moon/figura/trust/TrustContainer.java:28-59 | the three settings declared without bounds are the toggles, and every slider runs from 0 to a maximum of at least 63 |
| TrustModel.InfinityAndToggles | src/main/java/org/moon/figura/trust/TrustContainer.java:62-69 | infinity is a value past the maximum, and a toggle is on iff it is 1 |
| TrustModel.NameInjective | src/main/java/org/moon/figura/trust/TrustContainer.java:26-38 | distinct settings have distinct names |
| TrustModel.SettingsNbtAt | src/main/java/org/moon/figura/trust/TrustContainer.java:110 | the settings compound holds exactly the chosen settings, each as an int under its name |
| TrustModel.MakeId | src/main/java/org/moon/figura/trust/TrustManager.java:54 | a location is built from a valid namespace and path, keeping both |
| TrustModel.IndexOfColon | src/main/java/org/moon/figura/trust/TrustManager.java:154 | the position of the first colon, if there is one |
| TrustModel.ParseId | src/main/java/org/moon/figura/trust/TrustManager.java:154 | `new ResourceLocation(text)`: the namespace before the first colon, "minecraft" when none precedes it, the path after it, validated as `MakeId` does |
| TrustModel.ParsedIdPrints | src/main/java/org/moon/figura/trust/TrustManager.java:154 | a parsed location is valid, prints back as the text when the text names a namespace, and is in "minecraft" when the text has no colon |
| TrustModel.IdRoundTrip | src/main/java/org/moon/figura/trust/TrustManager.java:154 | parsing the text of an id gives the id back |
| TrustModel.TrustFromNbt | src/main/java/org/moon/figura/trust/TrustContainer.java:91-98 | a setting is read iff its name is in the compound, with the stored value |
| TrustModel.NoSettingsFromEmpty | src/main/java/org/moon/figura/trust/TrustContainer.java:91-98 | an empty compound gives no settings |
| TrustModel.PutFieldsRead | src/main/java/org/moon/figura/trust/TrustContainer.java:101-114 | the written compound holds the name, the parent and the settings |
| TrustModel.ParentString | src/main/java/org/moon/figura/trust/TrustContainer.java:105-106 | a parent string is written iff there is a parent |
| TrustModel.SettingsRoundTrip | src/main/java/org/moon/figura/trust/TrustContainer.java:101-114 | reading back the written settings gives the settings |
| TrustModel.TrustContainer.FromNbt | src/main/java/org/moon/figura/trust/TrustContainer.java:74-80 | the container takes its name, its parent and the settings read from the compound |
| TrustModel.TrustContainer.FromMap | src/main/java/org/moon/figura/trust/TrustContainer.java:82-86 | the container takes its name, its parent and the given settings |
| TrustModel.TrustContainer.SetTrustFromNbt | src/main/java/org/moon/figura/trust/TrustContainer.java:91-98 | the loop over the settings adds exactly those present in the compound |
| TrustModel.TrustContainer.WriteNbt | src/main/java/org/moon/figura/trust/TrustContainer.java:101-114 | the result is the compound with the container's fields put in |
| TrustModel.ColorOf | src/main/java/org/moon/figura/trust/TrustContainer.java:138-150 | white exactly for names other than blocked, trusted, friend and local |
| TrustModel.OverwriteLast | src/main/java/org/moon/figura/trust/TrustManager.java:140-173 | after the put loop, each key maps to the last entry written under it |
| TrustModel.AppendNewKeys | src/main/java/org/moon/figura/trust/TrustManager.java:146-159 | the group order gains the new keys in order of first appearance and keeps the old ones |
| TrustModel.DecodeEntry | src/main/java/org/moon/figura/trust/TrustManager.java:146-171 | one list element: a non-compound throws the cast; otherwise the key is `group:<name>` or `player:<name>`, and a player always has a parsed parent |
| TrustModel.DecodeAll | src/main/java/org/moon/figura/trust/TrustManager.java:146-172 | at most one entry per element of the list |
| TrustModel.GroupRoundTrip | src/main/java/org/moon/figura/trust/TrustManager.java:146-159 | reading a written group gives its name, parent and settings back |
| TrustModel.WrittenParentDecodes | src/main/java/org/moon/figura/trust/TrustManager.java:152-155 | a written parent id is parsed back to that id |
| TrustModel.LoadablePresets | src/main/java/org/moon/figura/trust/TrustManager.java:44-61 | the loaded presets are those before the first whose name is not a valid location |
| TrustModel.DefaultEntries | src/main/java/org/moon/figura/trust/TrustManager.java:54-59 | each preset becomes the default group `default_group:<name>` with no parent and the preset's values |
| TrustModel.GroupEntries | src/main/java/org/moon/figura/trust/TrustManager.java:56-60 | each preset becomes the group `group:<name>` whose parent is its default group, with no settings |
| TrustModel.PresetGroupsLinked | src/main/java/org/moon/figura/trust/TrustManager.java:53-60 | after loading, each preset's group has its default group as parent and no settings, and the default group has no parent |
| TrustModel.LastWithName | src/main/java/org/moon/figura/trust/TrustManager.java:44-61 | proof helper for `PresetGroupsLinked`: the last preset with a given name, whose puts under that name are the ones that stay in the maps |
| TrustModel.IndexOf | src/main/java/org/moon/figura/trust/TrustManager.java:208-263 | the position of an id in the group order, if present |
| TrustModel.NextGroup | src/main/java/org/moon/figura/trust/TrustManager.java:208-230 | a next group exists iff the parent occurs before the last position of the group order, and it is one of the groups |
| TrustModel.PrevGroup | src/main/java/org/moon/figura/trust/TrustManager.java:239-257 | a previous group exists iff the parent is in the group order and not first, and it is one of the groups |
| TrustModel.IncreaseTarget | src/main/java/org/moon/figura/trust/TrustManager.java:228-230 | the move `increaseTrust` makes is the next group, never the local group for a non-local container, and it fails only when there is no next group or it is the local group and the container is not local |
| TrustModel.StepsAreInverse | src/main/java/org/moon/figura/trust/TrustManager.java:208-263 | decreasing after increasing, and increasing after decreasing, give the starting group back |
| TrustModel.StepBounds | src/main/java/org/moon/figura/trust/TrustManager.java:208-263 | the first group cannot be decreased and the last cannot be increased |
| TrustModel.Persisted | src/main/java/org/moon/figura/trust/TrustManager.java:124-131 | `!isLocal(trust) && isTrustChanged(trust)`: throws iff a non-local container has no settings and no parent, and otherwise persists it iff it is not local and not a fresh untrusted player |
| TrustModel.ContainerTags | src/main/java/org/moon/figura/trust/TrustManager.java:118-122 | one written compound per key, in key order |
| TrustModel.TrustManager.constructor | src/main/java/org/moon/figura/trust/TrustManager.java:24-26 | the manager starts with empty default groups, groups and players |
| TrustModel.TrustManager.Find | src/main/java/org/moon/figura/trust/TrustManager.java:176-185 | a container is found iff the id is a player, a group or a preset group, and it is one of the manager's |
| TrustModel.TrustManager.Resolve | src/main/java/org/moon/figura/trust/TrustManager.java:176-188 | an existing container `get` yields is one of the manager's |
| TrustModel.TrustManager.Setting | src/main/java/org/moon/figura/trust/TrustContainer.java:117-129 | `get(trust)`: the container's own setting, else its parent's, else -1 without a parent; `PresetInheritance` and `SettingFuelMonotone` state its properties |
| TrustModel.TrustManager.GroupColor | src/main/java/org/moon/figura/trust/TrustContainer.java:138-150 | `getGroupColor`: the colour of the root of the parent chain; `PresetColor` states it for preset groups |
| TrustModel.TrustManager.ParentGroup | src/main/java/org/moon/figura/trust/TrustContainer.java:152-154 | `getParentGroup`: follows parents while they are groups; `ParentGroupIsRoot` states it |
| TrustModel.TrustManager.IsLocal | src/main/java/org/moon/figura/trust/TrustManager.java:265-268 | a container is local iff its name is the local UUID or "local" |
| TrustModel.TrustManager.SettingFuelMonotone | src/main/java/org/moon/figura/trust/TrustContainer.java:117-129 | a setting resolved within some number of parent steps keeps its value with more steps |
| TrustModel.TrustManager.PresetInheritance | src/main/java/org/moon/figura/trust/TrustContainer.java:117-129 | a player in a preset group without a setting of its own gets the preset's value, or -1 when the preset has none |
| TrustModel.TrustManager.PresetColor | src/main/java/org/moon/figura/trust/TrustContainer.java:138-150 | a container in a group made from a preset takes the colour of the preset's name, through its default group |
| TrustModel.TrustManager.ParentGroupIsRoot | src/main/java/org/moon/figura/trust/TrustContainer.java:152-154 | the parent group found has no parent group of its own |
| TrustModel.TrustManager.Create | src/main/java/org/moon/figura/trust/TrustManager.java:196-205 | a new player named after the id's path, under the local group for the local player and untrusted otherwise, stored among the players |
| TrustModel.TrustManager.Get | src/main/java/org/moon/figura/trust/TrustManager.java:176-188 | returns the registered container, or registers a new player; either way the id then finds it |
| TrustModel.TrustManager.IncreaseTrust | src/main/java/org/moon/figura/trust/TrustManager.java:208-236 | moves the container to the next group in order, never to the local group for a non-local container, and reports whether it moved |
| TrustModel.TrustManager.DecreaseTrust | src/main/java/org/moon/figura/trust/TrustManager.java:239-263 | moves the container to the previous group in order and reports whether it moved |
| TrustModel.TrustManager.WriteGroups | src/main/java/org/moon/figura/trust/TrustManager.java:117-122 | one compound per group, in group order |
| TrustModel.TrustManager.WritePlayers | src/main/java/org/moon/figura/trust/TrustManager.java:124-132 | the compounds of exactly the changed non-local players; fails iff some player has neither settings nor parent |
| TrustModel.TrustManager.WriteNbt | src/main/java/org/moon/figura/trust/TrustManager.java:112-137 | the group list in group order plus the changed players; fails iff some player has neither settings nor parent |
| TrustModel.TrustManager.ReadEntry | src/main/java/org/moon/figura/trust/TrustManager.java:146-171 | one tag becomes the container its name, parent and settings describe |
| TrustModel.TrustManager.ReadList | src/main/java/org/moon/figura/trust/TrustManager.java:146-159 | the map gets the entries decoded, the last write winning, new keys are appended to the order, and it stops at the first element that throws |
| TrustModel.TrustManager.ReadPlayers | src/main/java/org/moon/figura/trust/TrustManager.java:161-172 | the players become those read, last write winning |
| TrustModel.TrustManager.ReadNbt | src/main/java/org/moon/figura/trust/TrustManager.java:140-173 | groups and then players are put as decoded, the last write winning, with new group keys appended to the order; an element that throws ends the read and keeps what came before |
| TrustModel.TrustManager.LoadPreset | src/main/java/org/moon/figura/trust/TrustManager.java:44-61 | a preset with a valid name puts its default group and its group, and otherwise nothing changes |
| TrustModel.TrustManager.PutDefaultGroup | src/main/java/org/moon/figura/trust/TrustManager.java:55-59 | the default group is stored under its id |
| TrustModel.TrustManager.PutGroup | src/main/java/org/moon/figura/trust/TrustManager.java:56-60 | the group is stored under its id and appended to the order |
| TrustModel.TrustManager.LoadDefaultGroups | src/main/java/org/moon/figura/trust/TrustManager.java:36-67 | the default groups and groups get the entries of the loadable presets in order, and it fails iff some preset is not loadable |
| TrustModel.TrustManager.LoadPresets | src/main/java/org/moon/figura/trust/TrustManager.java:43-61 | from any starting maps, the loop puts the entries of the presets before the first unloadable one, appends their group keys, and fails iff such a preset exists |

## Left out

- Rendering (`pushFaces`, the vertex consumers, matrices on the stack) is not part of this model. `PushVerticesImmediate` assumes that pushing faces does not itself change the shared budget; under that assumption it keeps the budget in a local and writes the cell once after the loop, where the source decrements the cell on every slot.
- ModelParts.ModelPart.PushVerticesImmediate: does not model 32-bit overflow of the budget, and requires the budget array to have a cell, which the caller always allocates.
- Floating-point arithmetic is modelled with reals. The mesh normal, `Math.toDegrees` and `Float.valueOf`/`Double.valueOf` are parameters.
- `VanillaPartOffsetManager` is a parameter (`offsetOf`).
- `PartCustomization` is modelled as the list of bonus calls it receives. Its matrices are not computed.
- The set of render type names is a parameter.
- Meshes.MeshFace: the vertex and UV cursors and `index[0]` do not wrap on 32-bit overflow.
- The state left behind after an exception is not modelled. A failing read, transform or write yields an error value.
- The decoder yields `PartData` values. The object tree of `FiguraModelPart` is built from them by `ModelParts.ModelPart.constructor`, so the model does not interleave the reading of geometry with object creation.
- Face winding (the order of a face's vertices seen from outside) is not stated.
- `readMeshSmooth` is empty in the source, and `useSmoothShading` is fixed to false.
- `clean`, `free`, `toString` and the other Lua accessors are not part of this model. These include position, rotation, scale, matrices, UV, colour, light, `getType` and the render-type getters.
- `TrustManager.init`, `loadFromDisk`, `saveToDisk`, the JSON reading of presets, `get(UUID)` and `getGroupName` are file, network or text I/O.
- The local player's UUID is a parameter.
- TrustModel.TrustManager.Setting: the lookup along the parent chain takes a fuel bound. A chain longer than the fuel is not followed, although the source would follow it or loop forever on a cycle.
- TrustModel.TrustManager.Setting, TrustModel.TrustManager.GroupColor and TrustModel.TrustManager.ParentGroup: a parent id that is registered nowhere resolves to the container `create` would make, but the lookup does not register it. In the source, `get(parentID)` puts that new container into PLAYERS, so a later `get` of the same id finds it there even after a group or preset group of that id is loaded. The model then finds the group instead.
- Config.ParseInteger: only the ASCII digits '0' to '9' are accepted. `Integer.valueOf`, `Long.valueOf`, `Short.valueOf`, `Byte.valueOf` and `parseInt` also accept the other Unicode decimal digits, such as "٣" for 3, where the model gives the default value instead.
- Config.ToLowerAscii: lower-casing maps only the ASCII letters. `toLowerCase()` follows the default locale, so under a Turkish locale "I" becomes the dotless "ı" and the translation key differs.
- The colour APIs of `VectorsAPI` and the rotation, scale and translation APIs of `MatricesAPI` are not part of this model.
- The `FOLDER_PATH` and `ANY` validators of `Config` are not modelled. `FOLDER_PATH` reads the file system, and `ANY` accepts everything.
- `runOnChange` and key bindings of `Config` are not part of this model.
- The game's NBT getters are modelled as the vanilla defaults they document: a missing key or a key of the wrong type reads as 0, false, the empty string or the empty list.

## Findings

| source | as written | input that shows it | evidently intended | confidence | as-written member | corrected member |
|---|---|---|---|---|---|---|
| src/main/java/org/moon/figura/avatars/model/FiguraModelPart.java:136-137 | the elytra aliases are each one literal, `"LeftElytron, LEFT_ELYTRON, LEFT_ELYTRA"`, so the whole comma-joined string is a single alias | `getForString("LEFT_ELYTRA")` does not give `LeftElytra` | each name is its own alias, and "LEFT_ELYTRA" resolves to `LeftElytra` | not executed | ParentTypes.ElytraAliasUnresolved | ParentTypes.IntendedElytraAliasResolves |
