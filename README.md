# TPShipToolkit conversion core, modelled in Dafny

TPShipToolkit converts ship models between three formats.

- **OBJ to MDB** (`ObjTool`). The tool reads a Wavefront OBJ file, its MTL material library and an optional
  tab-separated box description. It packs each OBJ group into a model block with 16-bit vertex indices. It then
  writes the binary MDB file: model blocks, materials, bounding values, a collision box tree, a hit box and a
  string table. Length and count fields are back-patched by seeking.
- **MDB to OBJ** (`MdbTool`). The tool reads MDB files back. Each model becomes a group whose triangles are
  kept in runs of one material. The collision box tree is read recursively. It then writes OBJ text, an MTL
  library and the box description, with vertex numbers counted by running offsets.
- **Mesh scenes** (`MsbTool`, `Element`, `Animation`, `Motion`). The tool keeps a scene of nodes, meshes,
  bones and animations. Their names live in one shared registry of name buffers. It exports the scene to a
  self-describing tagged file and imports such files back. On import, names are de-duplicated by a numeric
  suffix and parent ids are shifted past the names already registered.

The model is imperative where the program is. `ObjTool`, `MdbTool`, `MsbTool`, `Element`, `Animation`,
`Motion`, the binary writer and the name buffers are classes whose methods change their fields. Each method
is proved against a specification function: its `ensures` ties the new state, or the bytes or lines it
writes, to that function of the old state. The properties the program promises are lemmas about those
functions. The central ones are:

- the round trips between the two converters: axes, texture V, winding, box records, whole MDB files, MTL files;
- the round trip between MSB export and import;
- the packing, lookup and naming rules.

Choices that shape the model:

- **Floats.** A `float` is its 32-bit pattern (`F32`). Negation flips the sign bit, which is exact in IEEE
  754. `Math.Max` and `<` are defined on the patterns. Parsing, printing, trigonometry and PCA are function
  parameters.
- **Streams.** A `BinaryReader` is the unread rest of the byte stream. A `BinaryWriter` is a `Writer` object
  holding the bytes and a position, with `Write`, `Seek` and back-patching. A `StreamWriter` is the
  sequence of lines written.
- **Shared references.** The `(name, List)` tuples of `ReadObj` share their `List` objects. They are kept as
  an arena of lists plus group entries that point into it, so a resumed group aliases its list exactly as
  in the source. The boxes of `ReadCbox` are an arena of nodes with child indices.
- **Name buffers.** A `StringBuilder` name is a `Buf` object with a mutable `text`. The registry
  (`_elementsName`) is a `NameList` of such buffers, shared by the tool and every element. A rename is
  therefore visible through every alias.
- **Not modelled as code.** Files, logging, progress reporting, the UI and `Task.Run` are left out. The
  input files' contents are parameters.

## Model

| member | source | states |
|---|---|---|
| ObjTools.ObjTool.ClearObjStuff | MdbData/ObjTool.cs:1494-1505 | every list read from the previous OBJ file (mtllib name, materials, v, vt, vn, groups, boxes, box groups) is empty afterwards |
| ObjTools.ObjTool.ReadObj | MdbData/ObjTool.cs:563-694 | the fields after reading every line are those ReadObjSpec computes from the fields before; materials and boxes are untouched |
| ObjTools.ObjTool.ReadObjLine | MdbData/ObjTool.cs:569-680 | one pass of the line loop takes the state to the one Step gives for that line |
| ObjTools.ObjTool.ReadCorner | MdbData/ObjTool.cs:607-622 | a face corner is the triple ParseCorner reads: the first three '/'-separated fields, each through int.TryParse |
| ObjTools.ObjTool.SwitchTo | MdbData/ObjTool.cs:644-679 | a "g"/"o" line moves to the state SwitchGroup describes: stay, resume the recorded entry of that name, or close the current group and open a new one |
| ObjTools.ObjTool.AddMatGroup | MdbData/ObjTool.cs:631-635 | the pending material sub-group is moved into the current group's List only when it has faces, and is then emptied |
| ObjRead.ReadObjVertices | MdbData/ObjTool.cs:572-580 | the positions after ReadObj are those before, followed by the positions of exactly the "v" lines whose three numbers parse, in file order |
| ObjRead.ReadObjTexCoords | MdbData/ObjTool.cs:582-590 | the texture coordinates gain exactly those of the "vt" lines whose two numbers parse, in file order |
| ObjRead.ReadObjNormals | MdbData/ObjTool.cs:592-600 | the normals gain exactly those of the "vn" lines whose three numbers parse, in file order |
| ObjRead.FaceFieldDefaults | MdbData/ObjTool.cs:611-622 | a face corner's field i is its integer value when the field exists and parses, and 0 when it is missing or unreadable |
| ObjRead.ReadObjNoEmptyGroups | MdbData/ObjTool.cs:628-693 | whatever the file holds, ReadObj only records non-empty groups made of non-empty material sub-groups |
| ObjRead.ResumedGroupIsRecordedTwice | MdbData/ObjTool.cs:648-676 | returning to a group name already recorded switches to its List without closing the group being left, so the resumed group ends up recorded twice, with both entries showing the same List |
| ObjRead.ResumeTrace | MdbData/ObjTool.cs:644-693 | the line-by-line states ReadObj passes through on a file that leaves a group and comes back to it |
| ObjRead.GroupLine | MdbData/ObjTool.cs:644-647 | a line starting "g " is a group line naming the rest of the line |
| ObjRead.UseMtlLine | MdbData/ObjTool.cs:628-637 | a line starting "usemtl " selects the material named by the rest of the line |
| ObjTools.ObjTool.ReadMtl | MdbData/ObjTool.cs:696-725 | the material list and the outcome are those ReadMtlSpec gives for the lines; a "map_Kd " line sets the texture to its path with the extension ".tga", or to "" when the path is empty |
| ObjTools.ObjTool.AddPendingMaterial | MdbData/ObjTool.cs:704-708 | the material read so far is added unless a material of that name, ignoring case, exists; a new one when 65536 are listed throws |
| ObjTools.ObjTool.HasMaterialNamed | MdbData/ObjTool.cs:704 | true exactly when some listed material has the name, ignoring case |
| MtlRead.ReadMtlKeepsList | MdbData/ObjTool.cs:696-725 | ReadMtl only appends; names stay distinct ignoring case; the list never passes 65536 entries; each new material's texture is "NULL", ends in ".tga", or is empty when its "map_Kd " path was empty (ChangeExtension keeps an empty path empty) |
| MtlRead.ReadMtlFailsOnlyWhenFull | MdbData/ObjTool.cs:704-723 | ReadMtl throws only the "can't exceed 65536" error, and only with more than 65535 materials listed |
| MtlRead.AddPending | MdbData/ObjTool.cs:704-708 | the list either stays or gains exactly the pending material; a refusal leaves the list as it was and happens only with more than 65535 materials |
| ObjTools.ObjTool.ReadCbox | MdbData/ObjTool.cs:727-820 | the box arena, the recorded meshes and the outcome are those ReadCboxSpec gives for the lines |
| ObjTools.ObjTool.ReadCboxLine | MdbData/ObjTool.cs:732-816 | one line of the box file takes the state to CboxStep's |
| ObjTools.ObjTool.LinkChildren | MdbData/ObjTool.cs:766-785 | a box is linked to the children its line names, found or created one level down; a line too short for a child stops there |
| ObjTools.ObjTool.FindOrCreate | MdbData/ObjTool.cs:769-774 | the child named on the line: the mesh's first box of that name, or a new box one level below its parent |
| CboxRead.BlankMeshIgnoresBoxes | MdbData/ObjTool.cs:744-747 | a box line before any named "MESH" line changes nothing |
| CboxRead.ReadCboxLevelsBounded | MdbData/ObjTool.cs:762-813 | no box ReadCbox builds is deeper than level 5 |
| CboxRead.NewLeftChildIsOneLevelDown | MdbData/ObjTool.cs:769-775 | a left child that does not exist yet is created with its parent's level plus one and linked as the left child |
| CboxRead.DeepBoxIgnored | MdbData/ObjTool.cs:789-790 | a line for an existing box at level 5 or deeper changes nothing |
| CboxRead.CboxStepFails | MdbData/ObjTool.cs:748-764 | ReadCbox throws exactly on a "CBOX" line with no box field, under a named mesh that has no box yet |
| CboxRead.EmptyLeftFieldShiftsRight | MdbData/ObjTool.cs:749 | empty fields are dropped before they are counted, so a line with an empty left field gives its right box as the left child |
| Text.SplitN | MdbData/ObjTool.cs:749 | String.Split with a count: at most count pieces; without RemoveEmptyEntries at least one, and the whole line when the separator is absent; with it, no piece is empty |
| ObjTools.ObjTool.ReadCboxValues | MdbData/ObjTool.cs:822-842 | the groups left, the boxes fitted and the warnings are those FitBox gives |
| ObjBoxes.FitBoxCorrect | MdbData/ObjTool.cs:822-842 | ReadCboxValues removes exactly the groups it fits boxes to, with none lost or duplicated, and each fitted box gets the vertices of a group of its own name |
| ObjBoxes.UnmatchedBoxStops | MdbData/ObjTool.cs:836-841 | a box with no group of its name is reported and nothing below it is fitted |
| ObjBoxes.FitBoxStartsAtBox | MdbData/ObjTool.cs:824-834 | the first box fitted is the box itself, fitted to the points of the first group of its name |
| ObjTools.ObjTool.GetPointsFromCBoxGroup | MdbData/ObjTool.cs:844-886 | the result is CboxPoints: the faces' vertex numbers in order of first use, each added unless already listed before its face (a face repeating a new number lists it twice) |
| ObjPack.CboxPointsCover | MdbData/ObjTool.cs:844-886 | the point list holds exactly the vertex numbers of the faces, no more and no fewer |
| ObjPack.DegenerateFaceDuplicates | MdbData/ObjTool.cs:850-884 | a face whose first two corners share a new vertex number lists that number twice |
| ObjTools.ObjTool.AutoGenerateCBox | MdbData/ObjTool.cs:888-969 | the box built is AutoTree's: fitted to its faces' vertices, with two children one level down while below level 5; none when a vertex number is out of range |
| ObjTools.ObjTool.SplitFaces | MdbData/ObjTool.cs:902-921 | each face goes to the left or the right list as `below` decides, in order; false when one of its vertices does not exist |
| ObjTools.ObjTool.SplitGroups | MdbData/ObjTool.cs:902-921 | the split over every face of every sub-group, in order |
| ObjBoxes.PartitionIsPermutation | MdbData/ObjTool.cs:902-921 | every face goes to exactly one side: the two sides together are a permutation of the faces |
| ObjBoxes.SideKeeps | MdbData/ObjTool.cs:902-921 | a side holds only faces of the box, each on the side the comparison puts it |
| ObjBoxes.SidesInRange | MdbData/ObjTool.cs:902-921 | both sides keep every vertex lookup valid |
| ObjBoxes.AutoTreeSplit | MdbData/ObjTool.cs:922-968 | below level 5 the box's children are the trees built one level down from the two sides |
| ObjBoxes.RootCount | MdbData/ObjTool.cs:888-969 | a tree built from a level-0 root is complete to level 5 and holds 63 boxes |
| ObjTools.ObjTool.PointsEquals | MdbData/ObjTool.cs:1063-1073 | true exactly when both corners have the same length and the same number at every position |
| ObjTools.ObjTool.FindMatIndex | MdbData/ObjTool.cs:1075-1099 | the index and the new material list are those FindMat gives |
| ObjPack.FindMatChoice | MdbData/ObjTool.cs:1075-1099 | below 65536 materials: the first exact name match, else the first material without texture, else a new textureless material appended at the end |
| ObjPack.FindMatRepeat | MdbData/ObjTool.cs:1075-1099 | looking the same name up again adds nothing and returns the same index |
| ObjPack.FindMatWrapped | MdbData/ObjTool.cs:1077-1079 | with exactly 65536 materials the ushort count wraps to 0, so the lookup sees nothing and returns 0 |
| ObjTools.ObjTool.ProcessGroup | MdbData/ObjTool.cs:1101-1167 | the materials, points and face groups are those PackGroups gives; the error is the vertex overflow |
| ObjTools.ObjTool.PackFace | MdbData/ObjTool.cs:1108-1160 | one face is packed as PackTriangle says; it fails with "Model vertex count exceeded 65536" exactly when PackTriangle fails |
| ObjTools.ObjTool.ScanPoints | MdbData/ObjTool.cs:1115-1139 | the scan gives Scan's result: each recorded index points at an entry equal to its corner, and an index is recorded exactly when such an entry exists; a later match overwrites an earlier one until all three corners have been seen |
| ObjPack.PackTriangleCorrect | MdbData/ObjTool.cs:1101-1162 | a face is packed by appending exactly the missing corners, in the order P2, P1, P0; every stored index points at an entry equal to its corner; it fails exactly when the list would pass 65536 entries |
| ObjPack.PackGroupsDecode | MdbData/ObjTool.cs:1104-1166 | a completed ProcessGroup emits one face group per non-empty sub-group, in order, and each decodes back to its sub-group's faces; earlier points stay |
| ObjPack.PackGroupsKeyed | MdbData/ObjTool.cs:1104-1166 | the face groups emitted carry, in order, the material index FindMatIndex gave their sub-groups |
| ObjPack.PackTrisLength | MdbData/ObjTool.cs:1108-1160 | packing stores one triangle per face |
| ObjFiles.RealGroupName | MdbData/ObjTool.cs:1477-1492 | a result other than the name is the name without its final "_" and what follows |
| ObjFiles.RealGroupNameDropsNumber | MdbData/ObjTool.cs:1477-1492 | a name ending in "_" and a printed int loses exactly that suffix |
| ObjFiles.RealGroupNameOfSuffix | MdbData/ObjTool.cs:1477-1492 | a final "_" suffix that reads as an int is dropped |
| ObjFiles.RealGroupNameKeeps | MdbData/ObjTool.cs:1477-1492 | a name without '_', or whose last suffix does not read as an int, is kept whole |
| ObjFiles.FileOf | MdbData/ObjTool.cs:119-121 | the output file of a group is never empty, and is the group's real name when that is not blank |
| ObjFiles.NumberedFile | MdbData/ObjTool.cs:119-121 | a group named after a non-blank base and a number goes to the base's file |
| ObjTools.ObjTool.SplitIntoFiles | MdbData/ObjTool.cs:115-216 | the files and model counts the group loop produces are SplitFiles of the group names |
| ObjTools.ObjTool.NextGroup | MdbData/ObjTool.cs:119-216 | one group either opens a new file (its name differs from the current one; the model index restarts) or adds one model to the open file |
| ObjFiles.SplitFilesCorrect | MdbData/ObjTool.cs:115-216 | a new file starts exactly when a group's file differs from the previous group's; expanding the files gives every group's file, in order |
| ObjFiles.SameFileTwice | MdbData/ObjTool.cs:119-216 | two consecutive groups of the same file make one file of two models |
| ObjFiles.TwoGroupsOneFile | MdbData/ObjTool.cs:119-216 | two groups numbered after the same base go to one file as two models |
| ObjFiles.XMdbName | MdbData/ObjTool.cs:365 | XObjToXMdb names its output after the OBJ file with the extension "mdb"; a path with no file name (empty, or ending in a separator) gives "" |
| ObjFiles.XMdbLookupMisses | MdbData/ObjTool.cs:490 | the box hierarchy is looked up under the name that still ends in ".mdb", so a mesh recorded without that ending is found only when both it and the file name are empty |
| ObjTools.ObjTool.WriteGroup | MdbData/ObjTool.cs:1169-1250 | the bytes appended are ModelBlock (vertices converted, triangle count and block length back-patched, then a zero); it throws exactly when a corner's v/vt/vn is missing; bounds and triangle count are copied out only for model 0 |
| ObjTools.ObjTool.WriteVertices | MdbData/ObjTool.cs:1180-1216 | one 36-byte record per point, in order, each converted from the point's own v, vt and vn; the bounds are the running minimum and maximum of the positions |
| ObjTools.ObjTool.WriteModelBody | MdbData/ObjTool.cs:1172-1232 | the model block up to its back-patches: placeholders, model index, vertex count, vertices, placeholder, triangles |
| ObjTools.ObjTool.WriteTriangles | MdbData/ObjTool.cs:1219-1232 | every face group's triangle records, in order, with the number of faces written |
| ObjTools.ObjTool.WriteTriRecord | MdbData/ObjTool.cs:1224-1228 | a triangle record: tag 8, then the corners tri[2], tri[1], tri[0], then the material index |
| ObjWrite.VertexPositionRoundTrip | MdbData/ObjTool.cs:1199-1203 | the position stored is the OBJ position in MDB axes (x, -z, y), and the texture coordinate has V negated, so the reader's conversions give both back |
| ObjWrite.ClampZ | MdbData/ObjTool.cs:1204-1207 | unless the normal's Z is NaN, the value handed to Acos lies within [-1, 1] |
| ObjWrite.ConvertedAt | MdbData/ObjTool.cs:1180-1216 | the i-th vertex record comes from the i-th point alone |
| ObjWrite.GroupBoundsHoldPoints | MdbData/ObjTool.cs:1185-1196 | the bounds WriteGroup hands back hold every point of the model |
| ObjWrite.PatchedModel | MdbData/ObjTool.cs:1233-1239 | the two back-patches put the triangle count (the sum of the face-group sizes) over its placeholder and the block length (bytes from the length field to the last triangle) over the first field |
| ObjTools.ObjTool.WriteMaterials | MdbData/ObjTool.cs:1252-1289 | the bytes appended are MaterialsBlock: the count, then one record per material in list order |
| ObjTools.ObjTool.WriteMaterial | MdbData/ObjTool.cs:1255-1287 | one material record: its block length, its texture's file name with its length, the 72 bytes of fixed data |
| MdbLayout.MaterialLengthField | MdbData/ObjTool.cs:1257-1258 | a material's length field counts exactly the bytes after it |
| MdbLayout.MaterialDataWords | MdbData/ObjTool.cs:1263-1286 | the fixed data is the runs of 1.0 and 0 the four loops write |
| MdbLayout.BoundingBlock | MdbData/ObjTool.cs:1291-1311 | the bounding block WriteBoundingValues writes is 40 bytes long |
| ObjTools.ObjTool.WriteCollisionBox | MdbData/ObjTool.cs:1313-1396 | the bytes appended are BoxRecord: a length field back-patched with the record's size, the head, the child flags and child records, tag 14 and the index list |
| ObjTools.ObjTool.WriteBoxHead | MdbData/ObjTool.cs:1316-1345 | the head in the order written: position, cross, up and forward vectors in MDB axes, the length, the largest length side (Math.Max), the level |
| ObjTools.ObjTool.WriteChildren | MdbData/ObjTool.cs:1346-1382 | the four child cases write the left flag, tag 12, the right flag, then the left child after tag 13 and the right child after tag 16 |
| ObjTools.ObjTool.WriteIndexList | MdbData/ObjTool.cs:1383-1392 | below the root the list is a 0; at the root it is the count and the pairs (15, i) |
| Float32.Max | MdbData/ObjTool.cs:1341 | Math.Max on floats returns one of its arguments, and with no NaN the result is not below either |
| MdbLayout.BoxLengthField | MdbData/ObjTool.cs:1393-1395 | every box's length field reads back as the whole record's size |
| ObjTools.ObjTool.WriteHitbox | MdbData/ObjTool.cs:1398-1427 | the bytes appended are HitBlock: tag 18, the count, then for each face its three vertices in reverse order; it throws exactly when a face names a missing vertex |
| ObjTools.ObjTool.WriteHitRecord | MdbData/ObjTool.cs:1407-1424 | one face: tags 19 and 48, then tags 20, 21 and 22 before the third, second and first corner's vertex in MDB axes |
| MdbLayout.HitRecordLength | MdbData/ObjTool.cs:1408-1409 | the 48 a hit record announces is the number of bytes after it |
| ObjTools.ObjTool.WriteStrings | MdbData/ObjTool.cs:1429-1475 | the bytes appended are the 21 field names of the string table, each after its length |
| MdbLayout.StringTableConsistent | MdbData/ObjTool.cs:1429-1475 | the table holds 21 entries and every length written is its text's length |
| MdbLayout.Header | MdbData/ObjTool.cs:190-200 | the header the driver rewrites at the end of a file is 16 bytes |
| MdbTools.MdbTool.ReadMdb | MdbData/MdbTool.cs:294-489 | the new state and the outcome are those ReadMdbSpec gives: the model count after 12 bytes, the models, the materials, the bones, the box |
| MdbTools.MdbTool.ReadModelBlock | MdbData/MdbTool.cs:313-399 | one pass of the model loop takes the state to ReadModel's |
| MdbRead.ReadModelFrame | MdbData/MdbTool.cs:313-399 | a model pass changes only the point lists and the groups; a successful one adds one group, named groupName + "_" + i, whose runs are maximal; a failed one adds none |
| MdbTools.MdbTool.ReadPointList | MdbData/MdbTool.cs:328-346 | the vertex loop adds to the three point lists exactly what ReadVertices reads |
| MdbRead.ReadVerticesOf | MdbData/MdbTool.cs:328-346 | the vertex records WriteGroup writes are read back, in order, into the three point lists |
| MdbRead.ReadVerticesInStep | MdbData/MdbTool.cs:328-346 | whatever the bytes, the point lists stay at most one entry apart, and in step when the loop goes through |
| MdbTools.MdbTool.ReadTriangleRuns | MdbData/MdbTool.cs:357-386 | the runs read are those ReadTris gives |
| MdbTools.MdbTool.AddToRuns | MdbData/MdbTool.cs:370-379 | a triangle opens a new run when its material differs from the current one and joins the last run otherwise |
| MdbRead.AddTriMeaning | MdbData/MdbTool.cs:370-379 | adding a triangle appends it, with its material, to the triangles the runs hold, and keeps the runs maximal |
| MdbRead.ReadTrisOf | MdbData/MdbTool.cs:357-386 | triangle records are read back into the maximal runs of their materials, corners reversed |
| MdbRead.ReadTrisMaximal | MdbData/MdbTool.cs:357-386 | a run starts exactly where the material changes: no two neighbouring runs share a material |
| MdbRead.ReadModelsOf | MdbData/MdbTool.cs:311-399 | the model blocks WriteGroup writes are read back, one group per model, stopping right after the last |
| MdbTools.MdbTool.ReadMaterialList | MdbData/MdbTool.cs:413-442 | the material loop takes the two material lists to what ReadMaterials gives |
| MdbTools.MdbTool.AddFileMaterial | MdbData/MdbTool.cs:430-434 | a material is always added to the file's list, and to the final list unless one of that name, ignoring case, is there |
| MdbRead.StringLength | MdbData/MdbTool.cs:420-423 | a non-negative texture-name length is used as it is |
| MdbRead.ReplaceSeparators | MdbData/MdbTool.cs:411-428 | splitting at the separators and joining with '_' turns each of ' ', ';', ',', '+', CR, TAB, LF into '_' |
| MdbRead.MatNameClean | MdbData/MdbTool.cs:427-428 | a derived material name holds no separator and no directory separator |
| MdbRead.ReadMaterialsKeeps | MdbData/MdbTool.cs:413-442 | the final list never holds two names equal ignoring case, and every material of the file has its name there |
| MdbRead.ReadMaterialsAppends | MdbData/MdbTool.cs:413-442 | the material loop changes only the two lists, and only appends to them |
| MdbRead.ReadMaterialsOf | MdbData/MdbTool.cs:413-442 | the material records WriteMaterials writes are read back, in order, into both lists |
| MdbTools.MdbTool.SkipBoneBlocks | MdbData/MdbTool.cs:454-465 | the bone loop skips what SkipBones skips |
| MdbRead.SkipBonesOf | MdbData/MdbTool.cs:454-465 | each bone block is stepped over, whatever it holds, and the loop stops right after the last |
| MdbRead.ReadMdbOf | MdbData/MdbTool.cs:294-489 | a file laid out as the OBJ-to-MDB converter writes it reads back into its models, its materials and its box tree |
| MdbTools.MdbTool.ReadBox | MdbData/MdbTool.cs:491-555 | the box read, the bytes left and the counter are those ReadBoxSpec gives |
| MdbTools.MdbTool.ReadChildBox | MdbData/MdbTool.cs:529-543 | a child slot reads a new box after skipping its tag and length exactly when its flag is set |
| MdbBoxRead.ReadSwappedOf | MdbData/MdbTool.cs:496-520 | a box vector written in MDB axes reads back as the OBJ-axes vector it came from |
| MdbBoxRead.ReadHeadOf | MdbData/MdbTool.cs:494-528 | over a box head WriteCollisionBox wrote, ReadBox recovers the position, the orientation vectors, the length and the two child flags |
| MdbBoxRead.SkipIndexList | MdbData/MdbTool.cs:544-547 | after the children, tag 14 and the index list are skipped exactly, at any level |
| MdbBoxRead.ReadBoxOf | MdbData/MdbTool.cs:491-555 | a box record WriteCollisionBox wrote reads back as the same tree with the same geometry and child structure, boxes named "_BOX" + n in pre-order from the counter, which moves on by the number of boxes |
| MdbTools.MdbTool.WriteObj | MdbData/MdbTool.cs:557-647 | the OBJ lines, description lines, new state and error are those WriteObjSpec gives |
| MdbWrite.WriteObjState | MdbData/MdbTool.cs:557-647 | after WriteObj the lists are empty and the box is new; the final materials and the box counter stay; it succeeds exactly when every run names a known material, and then each offset has moved on by the points of all models, the vertex offset also by 8 per box |
| MdbWrite.WriteObjKeepsNumbering | MdbData/MdbTool.cs:557-647 | when the models' point counts match their points, the vertex offset after WriteObj is one more than the number of "v" lines ReadObj finds, so every face number refers to the intended vertex |
| MdbTools.MdbTool.WritePoints | MdbData/MdbTool.cs:561-572 | every position, texture coordinate and normal, one line each, in list order |
| MdbWrite.PointLinesRead | MdbData/MdbTool.cs:561-572 | the point lines give ReadObj exactly the positions in OBJ axes (X, Z, -Y), in order; texture and normal lines add no vertex |
| MdbWrite.StoredPositionsRoundTrip | MdbData/MdbTool.cs:563 | positions the OBJ-to-MDB converter stored come back as they were in the OBJ file |
| MdbWrite.TexLineReads | MdbData/MdbTool.cs:567 | a written texture coordinate is read back with V negated |
| MdbLayout.AxesRoundTrip | MdbData/MdbTool.cs:563 | the two axis changes undo each other, in both orders |
| MdbLayout.FlipVRoundTrip | MdbData/MdbTool.cs:567 | negating V twice gives the coordinate back |
| MdbTools.MdbTool.WriteGroups | MdbData/MdbTool.cs:580-625 | the group loop writes what GroupLines gives and moves the offsets as it says |
| MdbWrite.GroupLinesOutcome | MdbData/MdbTool.cs:580-625 | the group loop goes through exactly when every run names a material of the file's list, and then moves each offset on by the points of all models |
| MdbWrite.GroupLinesKeep | MdbData/MdbTool.cs:580-625 | the group loop changes only the three offsets, and never lowers the vertex offset, even when it fails |
| MdbTools.MdbTool.AdvanceOffsets | MdbData/MdbTool.cs:621-623 | after a model, all three offsets move on by its point count |
| MdbTools.MdbTool.WriteRuns | MdbData/MdbTool.cs:594-620 | each run's "usemtl" line and faces; false at a material index out of range |
| MdbTools.MdbTool.WriteFaces | MdbData/MdbTool.cs:606-620 | the faces of a run, each corner numbered with the three running offsets |
| MdbWrite.FaceLineReads | MdbData/MdbTool.cs:610-614 | ReadObj reads a written face with its corners in the order P2, P1, P0, each numbered from the offsets |
| MdbWrite.WindingRoundTrip | MdbData/MdbTool.cs:610-614 | a triangle stored with its corners reversed and written reversed again is read with its original corner order |
| MdbTools.MdbTool.WriteBox | MdbData/MdbTool.cs:649-746 | the OBJ lines, description lines and vertex offset are those BoxLines gives |
| MdbWrite.BoxLinesShape | MdbData/MdbTool.cs:649-746 | WriteBox writes one description line per box, in pre-order, 22 OBJ lines per box, and moves the vertex offset on by 8 per box |
| MdbWrite.BoxLinesVertices | MdbData/MdbTool.cs:687-694 | WriteBox writes exactly 8 "v" lines per box |
| MdbWrite.BoxFacesLocal | MdbData/MdbTool.cs:699-710 | every face of a box uses only the 8 points written just before it |
| MdbWrite.CboxFields | MdbData/MdbTool.cs:717-744 | a box's description line has 2 to 4 fields: "CBOX", the box's name, then the fields for its children |
| MdbWrite.CboxLineFields | MdbData/MdbTool.cs:733 | ReadCbox's split of a description line gives back the box and its children's names, so a right-only box comes back with its child on the left |
| MdbTools.MdbTool.WriteMtl | MdbData/MdbTool.cs:748-768 | the lines written are MtlFile of the final materials: eight lines per material, the "map_Kd " line holding the texture directory and then the texture name with the extension ".dds", or nothing after the directory when the name is empty |
| MdbWrite.MtlRoundTrip | MdbData/MdbTool.cs:748-768 | for names distinct ignoring case, and names and a texture directory without '\n' or '\r', ReadMtl reads the file back into the same materials, in order; each texture becomes the written path (directory, then the name with ".dds") with the extension ".tga", or "" when that path is empty |
| MdbWrite.MtlFileOneLine | MdbData/MdbTool.cs:748-768 | when no material name, texture name or the texture directory holds '\n' or '\r', no line WriteMtl writes holds one, so a line reader sees exactly the lines written |
| MdbTools.MdbTool.ClearLists | MdbData/MdbTool.cs:770-780 | the lists of the file just converted are emptied and the box is new; the final materials, the box counter and the offsets stay |
| MdbTools.MdbTool.XMdbTo1Obj | MdbData/MdbTool.cs:38-156 | one OBJ for all files, after its "mtllib" line; each file is read and written in turn with the offsets running on; a failing file is logged; the MTL holds every final material |
| MdbTools.MdbTool.ConvertAll | MdbData/MdbTool.cs:61-90 | the file loop of XMdbTo1Obj produces what AddFiles gives |
| MdbTools.MdbTool.XMdbToXObj | MdbData/MdbTool.cs:164-290 | an OBJ, MTL and description output per file, as OwnFiles gives; a failing file is logged and the loop goes on |
| MdbTools.MdbTool.ResetCounters | MdbData/MdbTool.cs:206 | the three offsets are set to 1 and nothing else changes |
| MdbTools.OwnFilesSplit | MdbData/MdbTool.cs:171-224 | the file loop over some files is the loop over the first k, then the loop over the others from the state the first k left |
| MdbTools.OwnFilesNumbering | MdbData/MdbTool.cs:171-224 | the next file is converted from the state file k left: offsets back at 1 when file k was read and WriteObj went through, the offsets WriteObj left when it threw, the read's state when the file could not be read |
| MsbTools.MsbTool.constructor | MsbData/MsbTool.cs:13-18 | no elements, and a registry holding "None" only |
| MsbTools.MsbTool.AddNode | MsbData/MsbTool.cs:1384-1393 | a new node named `name` is appended, its buffer inserted in the registry at 1 + the node count; the registry layout ["None"] ++ nodes ++ meshes ++ bones ++ animations is kept; an insert past the end throws and changes nothing |
| MsbTools.MsbTool.AddMesh | MsbData/MsbTool.cs:1395-1404 | as AddNode, the name inserted after the nodes' and the meshes' names |
| MsbTools.MsbTool.AddBone | MsbData/MsbTool.cs:1406-1415 | as AddNode, the name inserted after the nodes', meshes' and bones' names |
| MsbTools.MsbTool.AddAnimation | MsbData/MsbTool.cs:1417-1424 | as AddNode, the name inserted after every element's name |
| MsbTools.MsbTool.RemoveElementName | MsbData/MsbTool.cs:1368-1382 | the first registry entry whose text is the name is removed; nothing changes when there is none |
| MsbTools.MsbTool.NewParentId | MsbData/MsbTool.cs:1309-1341 | GetNewParentId: the position of the parent's name among the nodes, meshes, bones and animations' names, -1 for none |
| MsbTools.MsbTool.ParentIdSplit | MsbData/MsbTool.cs:1309-1341 | the id is the node's position when a node has the name, else the node count plus the mesh's position, and so on through bones and animations, else -1 |
| MsbTools.MsbTool.RootId | MsbData/MsbTool.cs:270-295 | the root id Export writes is RootOf the elements' new parent ids |
| MsbTools.RootOf | MsbData/MsbTool.cs:272-294 | the first parentless mesh (after the nodes) if there is one, else the first parentless node, else 0 |
| MsbTools.MsbTool.UpdateParentName | MsbData/MsbTool.cs:1289-1307 | every element's parent and every motion's node becomes the registry entry at its id when the id is a position of the registry; nothing else changes |
| MsbTools.MsbTool.Export | MsbData/MsbTool.cs:94-752 | the bytes and outcome are ExportResult of the scene named after the file name without extension, with RootOf's root, and with the lists' records carrying the ids GetNewParentId gives |
| MsbTools.MsbTool.ExportedElement | MsbData/MsbTool.cs:309-388 | the record of an element: its new parent id, real name, pivot, position, scale, attributes, influence map name and rest length |
| MsbTools.MsbTool.ExportedMotion | MsbData/MsbTool.cs:648-712 | the record of a motion: the new id of its node and its six channels |
| MsbTools.MsbTool.ExportedAnimation | MsbData/MsbTool.cs:622-724 | the record of an animation: its real name, duration and motions |
| MsbWrite.WriteScene | MsbData/MsbTool.cs:257-746 | the file written is ExportResult: the whole scene file, or the file cut at the first bone without an influence map name, with that failure |
| MsbWrite.WriteBones | MsbData/MsbTool.cs:510-612 | the bone loop stops at the first bone without an influence map name; the bytes written are the bone blocks before it and the part of its block written before the throw |
| MsbWrite.WriteElement | MsbData/MsbTool.cs:309-388 | one element block: the tag, a length field back-patched with the bytes after it, then id, parent id, type, real name, placement and attributes |
| MsbWrite.WriteAttribute | MsbData/MsbTool.cs:362-383 | one attribute block, its length back-patched after its two fields |
| MsbWrite.WriteMotion | MsbData/MsbTool.cs:648-717 | one motion: its node id, then a block of its six channels, its length back-patched |
| MsbWrite.WriteChannel | MsbData/MsbTool.cs:661-700 | a channel: its length and keyframe count, then its keyframes |
| MsbWrite.WriteKeyframe | MsbData/MsbTool.cs:674-698 | a keyframe: its tag and the length 64, then its eight values, each after its tag |
| MsbWrite.WriteTable | MsbData/MsbTool.cs:739-745 | the table of field names: its count, then each name's length and bytes |
| MsbWrite.FinishScene | MsbData/MsbTool.cs:732-745 | the head is patched with the stream's length and the length after the head, then the table is appended |
| MsbFormat.TableTags | MsbData/MsbTool.cs:114-252 | every tag Export writes is the index, in the table it appends, of the name of the field it introduces, whichever lists are empty |
| MsbFormat.KeyframeLength | MsbData/MsbTool.cs:678 | the length a keyframe announces, 64, is the number of bytes after it |
| MsbFormat.ChannelLength | MsbData/MsbTool.cs:667 | a channel's length is 72 per keyframe plus 8 |
| MsbFormat.HeadLayout | MsbData/MsbTool.cs:732-736 | the file's first int is 12 plus the body's length, the offset where the structure table starts (not the file's length); the next four bytes are zero, offset 8 holds the body's length, and the body and then the table follow |
| MsbLayout.HeadWritten | MsbData/MsbTool.cs:732-736 | patching the zero head with the stream length and the length after the head gives that head |
| MsbLayout.BlockPatched | MsbData/MsbTool.cs:385-387 | a block whose zero length placeholder is patched once its body is written |
| MsbLayout.FailedFile | MsbData/MsbTool.cs:602-612 | the stream left when a bone stops the loop is the file cut short there |
| MsbRoundTrip.SceneRead | MsbData/MsbTool.cs:754-1287 | Import's reads over a file Export wrote recover exactly its nodes, meshes, bones and animations, in order |
| MsbParse.ElementRead | MsbData/MsbTool.cs:806-899 | an element block reads back as the element written, whatever its tags and id |
| MsbParse.AttributesRead | MsbData/MsbTool.cs:866-887 | the attributes written read back in order |
| MsbParse.AnimationRead | MsbData/MsbTool.cs:1152-1286 | an animation block reads back as the animation written |
| MsbParse.TagCountRead | MsbData/MsbTool.cs:797 | a count written as an int reads back as the same uint |
| MsbRoundTrip.HeaderRead | MsbData/MsbTool.cs:754-789 | ReadHeaderData steps over the head, the name and the root id, whatever they hold, to the node count |
| MsbTools.MsbTool.Import | MsbData/MsbTool.cs:66-87 | the shift is the registry's size on entry; the four lists and the registry gain, in order, the items and names ImportPlan reads; what was added before an exception stays; when no exception ended the reads, every parent and motion node is resolved; the elements and motions loaded before keep their ids and data, and their parent names are resolved again against the grown registry on a pass and left as they were after an exception |
| MsbImport.ShiftId | MsbData/MsbTool.cs:822-823 | a non-negative id is moved past the names already registered when the sum fits an int; a negative id is unchanged |
| MsbTools.ParentIsImported | MsbData/MsbTool.cs:822-823 | after the shift, an imported id that was a position in its file points at the imported element's own name buffer |
| MsbImport.ImportReadsScene | MsbData/MsbTool.cs:66-87 | an import that ends without an exception added exactly the four lists ReadScene reads |
| MsbImport.UnreadableFails | MsbData/MsbTool.cs:66-87 | a file ReadScene cannot read ends the import with an exception |
| MsbImport.ImportNamesFresh | MsbData/MsbTool.cs:891-895 | every name an import adds is new to the registry and to the names added before it |
| MsbImport.LoadStops | MsbData/MsbTool.cs:896-899 | once an item fails, nothing after it is added |
| MsbImport.LoadKeepsName | MsbData/MsbTool.cs:891 | an item whose name is new keeps it |
| MsbRecords.GetAttributeName | MsbData/MsbTool.cs:1343-1362 | any result other than GunPlacement is the member the text spells |
| MsbRecords.AttributeNameRoundTrip | MsbData/MsbTool.cs:1343-1362 | every member's spelling maps back to that member |
| MsbElements.Element.constructor | MsbData/Element.cs:88-97 | the name buffer is shared; no parent, parent id -1, an empty attribute list |
| MsbElements.Element.SetName | MsbData/Element.cs:36-72 | refuses "None", any registered text (its own included) and blank text, with the source's messages; otherwise rewrites the shared buffer, which renames the registry entry and every parent and node that alias it |
| MsbElements.Element.SetParentName | MsbData/Element.cs:29-33 | the parent becomes the first registry buffer with that text, or null; the getter then shows the text or "None" |
| MsbNames.FindText | MsbData/Element.cs:107-117 | FindParentName: a registry buffer holding the text, null exactly when no entry holds it |
| MsbElements.Element.UpdateParentName | MsbData/Element.cs:99-105 | the parent becomes the registry entry at ParentId when that is a position of the registry, and is unchanged otherwise |
| MsbElements.Element.GetParentId | MsbData/Element.cs:119-133 | the position of the first registry entry with the parent's text, minus one, as a uint; 0xFFFFFFFF without a parent, without a match, or for "None" at position 0 |
| MsbElements.Element.ProcessName | MsbData/Element.cs:136-179 | a name not registered is kept; a registered one becomes base + "_" + (max + 1), which is new; max = int.MaxValue throws and keeps the name |
| MsbNames.ProcessedName | MsbData/Element.cs:136-179 | the name itself when not registered; otherwise a new name, absent exactly when the largest suffix is int.MaxValue |
| MsbNames.Renamed | MsbData/Element.cs:160-176 | a registered name becomes base + "_" + (max + 1), which splits back into that base and number |
| MsbNames.MaxSuffixBound | MsbData/Element.cs:146-158 | no registry text with the same base carries a number above the maximum |
| MsbNames.NumberedFresh | MsbData/Element.cs:160-176 | the number after the largest one taken is free: no registry text has it |
| MsbElements.Element.AddAttribute | MsbData/Element.cs:83-86 | one attribute is appended and nothing else changes |
| MsbElements.Animation.constructor | MsbData/Animation.cs:64-69 | the displayed name shares the given buffer and RealName starts as its text; no motions |
| MsbElements.Animation.SetDisplayedName | MsbData/Animation.cs:18-53 | refuses registered and blank text (no "None" check); otherwise rewrites the shared buffer, which renames the registry entry |
| MsbElements.Animation.AddMotion | MsbData/Animation.cs:71-74 | one motion is appended |
| MsbElements.Animation.UpdateMotionNode | MsbData/Animation.cs:76-82 | every motion's node is resolved as Motion.UpdateParentName does; node ids are unchanged |
| MsbElements.Animation.ProcessName | MsbData/Animation.cs:90-133 | the same renaming rule as Element's, on the displayed name |
| MsbElements.Motion.constructor | MsbData/Motion.cs:28-36 | exactly six empty keyframe channels, no node, node id -1 |
| MsbElements.Motion.AddKeyframe | MsbData/Motion.cs:38-41 | the keyframe is appended to channel k and the other five channels are unchanged |
| MsbElements.Motion.SetNode | MsbData/Motion.cs:19-24 | the node becomes the first registry buffer with that text, or null; the getter then shows the text or "None" |
| MsbElements.Motion.UpdateParentName | MsbData/Motion.cs:48-54 | the node becomes the registry entry at NodeId when that is a position of the registry, and is unchanged otherwise |
| MsbElements.Motion.ToString | MsbData/Motion.cs:68-71 | the node's name, or "Motion" when there is no node |

## Left out

- MdbRead.StringLength: its contract covers only a non-negative length; the negative case, read as -n - 1, is in its body alone.
- MdbLayout.BoundingBlock: its contract states only the block's length; the centre and radius come from a parameter.
- MsbElements.Element.GetParentId: requires at most Int32Max registry entries, since List.FindIndex returns an int.
- MdbBoxRead.ReadBoxSpec: when the head's fields run out of bytes, the box keeps only its new name. ReadBox
  (MdbData/MdbTool.cs:493-520) assigns position, cross, up, forward and length one float at a time, so the
  fields read before the end of the stream stay in the box. The read fails either way, and the file is skipped.
- MsbImport.ShiftId: its contract gives the shifted id only when the sum fits an int; the 32-bit wrap-around past that is in its body alone.
- Encoding.Default is written as ASCII: a character above 127 becomes '?' (`Binary.CharByte`). The .NET
  default encoding is UTF-8, so a non-ASCII name is written differently, and the round trips assume ASCII
  names.
- BinaryReader.ReadChars is read as one character per byte (`Binary.Chars`), not as a UTF-8 decode. A
  non-ASCII name is therefore not read back as the program would read it.
- StringComparison.OrdinalIgnoreCase folds ASCII letters only (`Text.EqualsIgnoreCase`). Other characters
  compare exactly.
- The uint counters gVCount, gVtCount, gVnCount and boxNumber are unbounded naturals. Their wrap-around past
  2^32 - 1 is not modelled.
- NaturalStringComparer.CompareNatural, which sorts the groups before ObjToXMdb splits them into files, is not
  modelled. The file-splitting rule takes the group names in the order given.
- float.Parse, float.ToString, Math.Acos, Asin, Sin, Cos and Sqrt are function parameters. Only the
  properties the proofs need are assumed about them, as preconditions: that a printed number parses back, and
  that the parameters are total.
- AllPca and the eigenvalue code it calls are a parameter (`fit`). The centre-versus-mean comparison that
  splits a box's faces is a parameter (`below`). The box-corner arithmetic of WriteBox is a parameter
  (`Numbers`). The bounding values' centre and radius are computed by a parameter.
- A CollisionBox whose BoxName is null is modelled with the name "". The NullReferenceException that
  `b.BoxName.Equals` would throw on such a box is not modelled.
- Element.cs defines no RealName or DisplayedName, although MsbTool uses both. DisplayedName is the name
  buffer's text. RealName is a field set from the initial text in the constructor, as Animation's constructor
  does.
- Export's mesh loop catches an exception without returning (MsbData/MsbTool.cs:491 and 503), so a failing
  mesh leaves a partial block and the loop goes on. Element data in the model cannot make that loop throw, so
  this path is not modelled. The bone loop's exception on a missing influence map name is modelled.
- Export and Import take and give bytes (`seq<byte>`). File.Open, FileMode, the `using` disposal and IO
  errors are not modelled. An Export whose header write fails is not modelled either.
- ObjToXMdb and XObjToXMdb are modelled in their parts, not as one method. The parts are the file-splitting
  loop, WriteGroup, WriteMaterials, WriteBoundingValues, WriteCollisionBox, WriteHitbox, WriteStrings and the
  header (`MdbLayout.Header`). The drivers' file handling, the logging and the re-thrown exceptions are not.
  Nor is the carry-over after a failed read: when ReadObj or ReadMtl throws, the loop goes to the next file
  without ClearObjStuff (MdbData/ObjTool.cs:55-59 and 73-77), so the positions, texture coordinates,
  normals, groups and final materials read so far are carried into that next file. The model has no such
  driver loop: ReadObj, ReadMtl and ClearObjStuff are modelled one by one, each from the state it is given.
- The MDB-to-OBJ drivers take the MDB files' bytes and give lines. The log holds the exception messages. The
  progress reports and the Stopwatch timings are left out.
- Form1.settings.TextureDirectory, read by WriteMtl, is a parameter.
- The UI (Form1, dialogs, the help window, type converters, settings persistence), TreeView updates and
  Task.Run concurrency are left out. GetMeshSceneType and SetMeshSceneType, which Form1 calls but MsbTool
  does not define, are not modelled.
- int.TryParse accepts white space around an optional sign and at least one ASCII digit, within the int
  range. Culture-specific signs and digits are not modelled.
- Path.GetFileName, GetFileNameWithoutExtension and ChangeExtension use '/' and '\\' as directory separators
  and the last '.' after the last separator as the extension. ChangeExtension keeps an empty path empty. A null
  path and the invalid-path checks are not modelled.
- MdbWrite.MtlRoundTrip: text files are modelled as their lists of lines, and StreamReader.ReadLine would
  split a written line at '\n' or '\r'. The round trip is therefore stated only for material names, texture
  names and a texture directory without those characters. Names read from an MDB file may hold them, and
  the file ReadMtl would then see is not modelled.
