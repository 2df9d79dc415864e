// The MdbTool class of the MDB -> OBJ converter: the lists and counters it
// keeps between files, the reader that fills them from an MDB file and the
// writers that turn them into OBJ, MTL and box description lines. Every
// method is proved against the function that states what it computes
// (MdbRead, MdbBoxRead, MdbWrite).
module MdbTools {
  import opened Wrappers
  import opened Machine
  import opened Float32
  import opened Binary
  import opened Records
  import opened Text
  import opened ObjPack
  import opened MtlRead
  import opened MdbLayout
  import opened MdbBoxRead
  import opened MdbRead
  import opened MdbWrite

  /** What the group loop leaves once `lines` have been written before it. */
  function Prefixed(lines: seq<string>, g: GroupsOut): (r: GroupsOut)
    ensures r.st == g.st && r.failed == g.failed
  {
    GroupsOut(lines + g.lines, g.st, g.failed)
  }

  // ================================================================ the two converters

  /** An MDB file given to a converter: its file name without the extension, and its bytes. */
  datatype MdbFile = MdbFile(groupName: string, bytes: seq<byte>)

  /** What XMdbTo1Obj writes for some files: OBJ lines, description lines, logged messages, and the state it leaves. */
  datatype Added = Added(obj: seq<string>, config: seq<string>, log: seq<string>, st: MdbState)

  /** The output of `a` followed by the output of `b`, leaving `b`'s state. */
  function Then(a: Added, b: Added): (r: Added)
    ensures r.st == b.st && |r.obj| == |a.obj| + |b.obj| && |r.log| == |a.log| + |b.log|
  {
    Added(a.obj + b.obj, a.config + b.config, a.log + b.log, b.st)
  }

  lemma ThenAssoc(a: Added, b: Added, c: Added)
    ensures Then(Then(a, b), c) == Then(a, Then(b, c))
  {
    Assoc(a.obj, b.obj, c.obj);
    Assoc(a.config, b.config, c.config);
    Assoc(a.log, b.log, c.log);
  }

  /**
   * One file of XMdbTo1Obj: it is read; a read that fails is logged and
   * nothing is written; otherwise its lines are written to the shared OBJ
   * and description files, and a WriteObj failure is logged.
   */
  function AddFile(f: Numbers, st: MdbState, file: MdbFile, exportBoxes: bool): (r: Added)
  {
    var read := ReadMdbSpec(st, file.bytes, file.groupName);
    if read.outcome.Failed? then Added([], [], [Message(read.outcome.error)], read.st)
    else
      var w := WriteObjSpec(f, read.st, file.groupName, exportBoxes);
      Added(w.obj, w.config, if w.error.Some? then [w.error.value] else [], w.st)
  }

  /** Nothing written yet, followed by `a`, is `a`. */
  lemma AddedNothing(a: Added)
    ensures a == Then(Added([], [], [], a.st), a)
  {
    assert [] + a.obj == a.obj && [] + a.config == a.config && [] + a.log == a.log;
  }

  /** One more file of the loop: the output so far, then the file's own output, then the files after it. */
  lemma AddFilesStep(done: Added, f: Numbers, st: MdbState, files: seq<MdbFile>, i: nat, exportBoxes: bool, step: Added)
    requires i < |files| && step == AddFile(f, st, files[i], exportBoxes)
    ensures Then(done, AddFiles(f, st, files[i..], exportBoxes))
         == Then(Then(done, step), AddFiles(f, step.st, files[i + 1..], exportBoxes))
  {
    assert files[i..][1..] == files[i + 1..];
    ThenAssoc(done, step, AddFiles(f, step.st, files[i + 1..], exportBoxes));
  }

  /** Once every file is done, the output so far is the whole output. */
  lemma AddFilesDone(a: Added, f: Numbers, files: seq<MdbFile>, exportBoxes: bool)
    ensures Then(a, AddFiles(f, a.st, files[|files|..], exportBoxes)) == a
  {
    assert files[|files|..] == [];
    assert a.obj + [] == a.obj && a.config + [] == a.config && a.log + [] == a.log;
  }

  /** The file loop of XMdbTo1Obj: every file in turn, whatever happened to the ones before. */
  function AddFiles(f: Numbers, st: MdbState, files: seq<MdbFile>, exportBoxes: bool): (r: Added)
    decreases |files|
  {
    if |files| == 0 then Added([], [], [], st)
    else
      var a := AddFile(f, st, files[0], exportBoxes);
      Then(a, AddFiles(f, a.st, files[1..], exportBoxes))
  }

  /** The files XMdbToXObj writes for one MDB file: none when it is skipped, else its OBJ, description and MTL lines. */
  datatype FileOut = Skipped | Written(obj: seq<string>, config: seq<string>, mtl: seq<string>)

  /** What XMdbToXObj writes for some files, the messages it logs and the state it leaves. */
  datatype Separate = Separate(outs: seq<FileOut>, log: seq<string>, st: MdbState)

  function ThenSeparate(a: Separate, b: Separate): (r: Separate)
    ensures r.st == b.st && |r.outs| == |a.outs| + |b.outs|
  {
    Separate(a.outs + b.outs, a.log + b.log, b.st)
  }

  /** The name of the MTL file written next to an MDB file's OBJ: its base name with the extension ".mtl". */
  function MtlFileName(groupName: string): string
  {
    groupName + ".mtl"
  }

  /**
   * One file of XMdbToXObj: a file that cannot be read is logged and gets
   * no output files; otherwise its OBJ starts with the "mtllib" line, and
   * when WriteObj goes through the offsets go back to 1 and the MTL file
   * lists the final materials. When WriteObj throws, the message is logged,
   * the MTL file stays empty and the offsets are left as WriteObj left them.
   */
  function OwnFile(f: Numbers, textureDirectory: string, st: MdbState, file: MdbFile, exportBoxes: bool): (r: Separate)
    ensures |r.outs| == 1
  {
    var read := ReadMdbSpec(st, file.bytes, file.groupName);
    if read.outcome.Failed? then Separate([Skipped], [Message(read.outcome.error)], read.st)
    else
      var w := WriteObjSpec(f, read.st, file.groupName, exportBoxes);
      var obj := ["mtllib " + MtlFileName(file.groupName)] + w.obj;
      if w.error.Some? then Separate([Written(obj, w.config, [])], [w.error.value], w.st)
      else
        var st1 := w.st.(gVCount := 1, gVtCount := 1, gVnCount := 1);
        Separate([Written(obj, w.config, MtlFile(st1.finalMat, textureDirectory))], [], st1)
  }

  /** The file loop of XMdbToXObj. */
  function OwnFiles(f: Numbers, textureDirectory: string, st: MdbState, files: seq<MdbFile>, exportBoxes: bool): (r: Separate)
    ensures |r.outs| == |files|
    decreases |files|
  {
    if |files| == 0 then Separate([], [], st)
    else
      var a := OwnFile(f, textureDirectory, st, files[0], exportBoxes);
      ThenSeparate(a, OwnFiles(f, textureDirectory, a.st, files[1..], exportBoxes))
  }

  /** No file written yet, followed by `a`, is `a`. */
  lemma SeparateNothing(a: Separate)
    ensures a == ThenSeparate(Separate([], [], a.st), a)
  {
    assert [] + a.outs == a.outs && [] + a.log == a.log;
  }

  /** One more file of the loop: the files so far, then the file's own output, then the files after it. */
  lemma OwnFilesStep(done: Separate, f: Numbers, textureDirectory: string, st: MdbState, files: seq<MdbFile>, i: nat,
                     exportBoxes: bool, step: Separate)
    requires i < |files| && step == OwnFile(f, textureDirectory, st, files[i], exportBoxes)
    ensures ThenSeparate(done, OwnFiles(f, textureDirectory, st, files[i..], exportBoxes))
         == ThenSeparate(ThenSeparate(done, step), OwnFiles(f, textureDirectory, step.st, files[i + 1..], exportBoxes))
  {
    assert files[i..][1..] == files[i + 1..];
    var rest := OwnFiles(f, textureDirectory, step.st, files[i + 1..], exportBoxes);
    Assoc(done.outs, step.outs, rest.outs);
    Assoc(done.log, step.log, rest.log);
  }

  /** Once every file is done, the output so far is the whole output. */
  lemma OwnFilesDone(a: Separate, f: Numbers, textureDirectory: string, files: seq<MdbFile>, exportBoxes: bool)
    ensures ThenSeparate(a, OwnFiles(f, textureDirectory, a.st, files[|files|..], exportBoxes)) == a
  {
    assert files[|files|..] == [];
    assert a.outs + [] == a.outs && a.log + [] == a.log;
  }

  /**
   * The file loop over some files is the loop over the first `k` of them,
   * then the loop over the others from the state the first `k` left.
   */
  lemma {:induction false} OwnFilesSplit(f: Numbers, textureDirectory: string, st: MdbState, files: seq<MdbFile>, k: nat,
                                         exportBoxes: bool)
    requires k <= |files|
    ensures var first := OwnFiles(f, textureDirectory, st, files[..k], exportBoxes);
      OwnFiles(f, textureDirectory, st, files, exportBoxes)
      == ThenSeparate(first, OwnFiles(f, textureDirectory, first.st, files[k..], exportBoxes))
    decreases k
  {
    var all := OwnFiles(f, textureDirectory, st, files, exportBoxes);
    if k == 0 {
      assert files[..0] == [] && files[0..] == files;
      SeparateNothing(all);
    } else {
      var a := OwnFile(f, textureDirectory, st, files[0], exportBoxes);
      OwnFilesSplit(f, textureDirectory, a.st, files[1..], k - 1, exportBoxes);
      PrefixTail(files, k);
      var first' := OwnFiles(f, textureDirectory, a.st, files[1..][..k - 1], exportBoxes);
      var rest := OwnFiles(f, textureDirectory, first'.st, files[k..], exportBoxes);
      Assoc(a.outs, first'.outs, rest.outs);
      Assoc(a.log, first'.log, rest.log);
    }
  }

  /**
   * The state the file after file `k` is converted from: when file `k` was
   * read and WriteObj went through, the offsets are back at 1; when
   * WriteObj threw, they stay where it left them; when the file could not
   * be read, the state is the one the read left.
   */
  lemma OwnFilesNumbering(f: Numbers, textureDirectory: string, st: MdbState, files: seq<MdbFile>, k: nat,
                          exportBoxes: bool)
    requires k < |files|
    ensures var before := OwnFiles(f, textureDirectory, st, files[..k], exportBoxes).st;
      var next := OwnFiles(f, textureDirectory, st, files[..k + 1], exportBoxes).st;
      var read := ReadMdbSpec(before, files[k].bytes, files[k].groupName);
      var w := WriteObjSpec(f, read.st, files[k].groupName, exportBoxes);
      && OwnFiles(f, textureDirectory, st, files, exportBoxes)
         == ThenSeparate(OwnFiles(f, textureDirectory, st, files[..k + 1], exportBoxes),
                         OwnFiles(f, textureDirectory, next, files[k + 1..], exportBoxes))
      && (read.outcome.Failed? ==> next == read.st)
      && (!read.outcome.Failed? && w.error.Some? ==> next == w.st)
      && (!read.outcome.Failed? && w.error.None? ==>
            next.gVCount == 1 && next.gVtCount == 1 && next.gVnCount == 1
            && next == w.st.(gVCount := 1, gVtCount := 1, gVnCount := 1))
  {
    OwnFilesSplit(f, textureDirectory, st, files, k + 1, exportBoxes);
    OwnFilesSplit(f, textureDirectory, st, files[..k + 1], k, exportBoxes);
    PrefixLast(files, k);
  }

  class MdbTool {
    /** The running OBJ numbers of the next position, texture coordinate and normal. */
    var gVCount: nat
    var gVtCount: nat
    var gVnCount: nat
    /** The number of boxes named so far; never reset. */
    var boxNumber: nat
    /** The materials of the whole OBJ output, without two of the same name. */
    var finalMat: seq<Material>
    /** The materials of the file being converted, in file order. */
    var currentMat: seq<Material>
    var v: seq<Vec3>
    var vt: seq<Vec2>
    var vn: seq<Vec2>
    var groups: seq<MdbGroup>
    /** The collision box tree of the file being converted. */
    var parentBox: Box

    /** The fields, as the functions that specify the methods see them. */
    function State(): MdbState
      reads this
    {
      MdbState(v, vt, vn, groups, currentMat, finalMat, boxNumber, parentBox, gVCount, gVtCount, gVnCount)
    }

    constructor()
      ensures State() == InitialState
    {
      gVCount, gVtCount, gVnCount := 1, 1, 1;
      boxNumber := 0;
      finalMat, currentMat := [], [];
      v, vt, vn := [], [], [];
      groups := [];
      parentBox := NewBox;
    }

    /** Empties the lists of the file just converted; the final materials, the box counter and the offsets stay. */
    method ClearLists()
      modifies this
      ensures State() == MdbWrite.ClearLists(old(State()))
    {
      currentMat := [];
      v, vt, vn := [], [], [];
      groups := [];
      parentBox := NewBox;
    }

    // ============================================================== ReadMdb

    /**
     * ReadBox: names the box after the counter, reads its fields, then a
     * new box for each child whose flag is set, then skips the index list.
     */
    method ReadBox(s: seq<byte>, box: Box) returns (b: Box, rest: seq<byte>, ok: bool)
      modifies this`boxNumber
      ensures BoxStep(b, rest, boxNumber, ok) == ReadBoxSpec(box, s, old(boxNumber))
      decreases |s|, 1
    {
      ghost var c := boxNumber;
      b := box.(name := BoxName(boxNumber));
      boxNumber := boxNumber + 1;
      var head := ReadHead(Skip(s, 12));
      if head.None? {
        return b, [], false;
      }
      var (h, s1) := head.value;
      b := b.(position := h.position, cross := h.cross, up := h.up, forward := h.forward, length := h.length);
      HeadUnfold(box, s, c, h, s1);
      b, rest, ok := ReadChildrenOf(b, h, s1);
    }

    /** The rest of ReadBox once the fields are read: the left child, the right child, the index list. */
    method ReadChildrenOf(box: Box, h: HeadFields, s: seq<byte>) returns (b: Box, rest: seq<byte>, ok: bool)
      modifies this`boxNumber
      ensures BoxStep(b, rest, boxNumber, ok) == ReadChildren(box, h, s, old(boxNumber))
      decreases |s|, 3
    {
      b := box;
      var left, r1, leftOk := ReadChildBox(h.hasLeft, s);
      if h.hasLeft {
        b := b.(left := Some(left));
      }
      if !leftOk {
        return b, [], false;
      }
      var right, r2, rightOk := ReadChildBox(h.hasRight, r1);
      if h.hasRight {
        b := b.(right := Some(right));
      }
      if !rightOk {
        return b, [], false;
      }
      var indices := SkipIndices(r2);
      if indices.None? {
        return b, [], false;
      }
      rest, ok := indices.value, true;
    }

    /** A child slot of ReadBox: when its flag is set, the tag and length are skipped and a new box is read. */
    method ReadChildBox(present: bool, s: seq<byte>) returns (child: Box, rest: seq<byte>, ok: bool)
      modifies this`boxNumber
      ensures BoxStep(child, rest, boxNumber, ok) == ReadChild(present, s, old(boxNumber))
      decreases |s|, 2
    {
      if present {
        child, rest, ok := ReadBox(Skip(s, 8), NewBox);
      } else {
        child, rest, ok := NewBox, s, true;
      }
    }

    /**
     * ReadMdb: the model count after the 12-byte header, the models, the
     * materials, the bones and the collision box, read into the parent box.
     * A read past the end of the file stops it with the matching error; what
     * was read before stays in the fields.
     */
    method ReadMdb(file: seq<byte>, groupName: string) returns (status: Status)
      modifies this
      ensures var r := ReadMdbSpec(old(State()), file, groupName); State() == r.st && status == r.outcome
    {
      var count := ReadU32(Skip(file, 12));
      if count.None? {
        return Failed(ModelCountError);
      }
      var (modelCount, s1) := count.value;
      ghost var models := ReadModels(State(), s1, groupName, 0, modelCount);
      var s := s1;
      var i := 0;
      while i < modelCount
        invariant i <= modelCount
        invariant ReadModels(State(), s, groupName, i, modelCount) == models
        decreases modelCount - i
      {
        s, status := ReadModelBlock(s, groupName, i);
        if status.Failed? {
          return;
        }
        i := i + 1;
      }
      status := ReadMaterialsAndBones(s);
    }

    /** One pass of the model loop of ReadMdb: the model's points, its triangles in runs, then its group. */
    method ReadModelBlock(s: seq<byte>, groupName: string, i: nat) returns (rest: seq<byte>, status: Status)
      modifies this`v, this`vt, this`vn, this`groups
      ensures var r := MdbRead.ReadModel(old(State()), s, groupName, i);
        State() == r.st && rest == r.rest && status == r.outcome
    {
      var length := ReadU32(s);
      if length.None? {
        return [], Failed(PointCountError(i));
      }
      var (modelLength, modelStart) := length.value;
      var count := ReadU32(Skip(modelStart, 4));
      if count.None? {
        return [], Failed(PointCountError(i));
      }
      var (vCount, s2) := count.value;
      var s3;
      s3, status := ReadPointList(s2, i, vCount);
      if status.Failed? {
        return [], status;
      }
      var tris := ReadU32(s3);
      if tris.None? {
        return [], Failed(TriCountError(i));
      }
      var (tCount, s4) := tris.value;
      var runs, s5;
      runs, s5, status := ReadTriangleRuns(s4, i, tCount);
      if status.Failed? {
        return [], status;
      }
      groups := groups + [MdbGroup(GroupLabel(groupName, i), vCount, runs)];
      rest := Skip(s5, 4);
      var consumed := |modelStart| - |rest|;
      if consumed < modelLength {
        rest := Skip(rest, modelLength - consumed);
      }
    }

    /**
     * The vertex loop of ReadMdb: each point adds its position, its texture
     * coordinate and its normal angles to their lists one at a time.
     */
    method ReadPointList(s: seq<byte>, i: nat, n: nat) returns (rest: seq<byte>, status: Status)
      modifies this`v, this`vt, this`vn
      ensures PointStep(Points(v, vt, vn), rest, status) == ReadVertices(Points(old(v), old(vt), old(vn)), s, i, 0, n)
    {
      rest := s;
      var j := 0;
      while j < n
        invariant j <= n
        invariant ReadVertices(Points(v, vt, vn), rest, i, j, n) == ReadVertices(Points(old(v), old(vt), old(vn)), s, i, 0, n)
      {
        var fail := Failed(PointError(j, i));
        var p := ReadVec3(Skip(rest, 4));
        if p.None? {
          return [], fail;
        }
        v := v + [p.value.0];
        var t := ReadVec2(p.value.1);
        if t.None? {
          return [], fail;
        }
        vt := vt + [t.value.0];
        var nrm := ReadVec2(t.value.1);
        if nrm.None? {
          return [], fail;
        }
        vn := vn + [nrm.value.0];
        rest := Skip(nrm.value.1, 4);
        j := j + 1;
      }
      status := Ok;
    }

    /**
     * The triangle loop of ReadMdb: a triangle opens a new run when its
     * material differs from the current one, and joins the current run
     * otherwise.
     */
    static method ReadTriangleRuns(s: seq<byte>, i: nat, n: nat) returns (runs: seq<TriGroup>, rest: seq<byte>, status: Status)
      ensures TriStep(runs, rest, status) == ReadTris(s, i, 0, n, [])
    {
      var currentMat := -1;
      runs, rest := [], s;
      var j := 0;
      while j < n
        invariant j <= n
        invariant currentMat == LastMat(runs)
        invariant ReadTris(rest, i, j, n, runs) == ReadTris(s, i, 0, n, [])
      {
        var record := ReadTriRecord(rest);
        if record.None? {
          return runs, [], Failed(TriError(j, i));
        }
        var (tri, mat, s1) := record.value;
        assert ReadTris(rest, i, j, n, runs) == ReadTris(s1, i, j + 1, n, AddTri(runs, mat, tri));
        runs, currentMat := AddToRuns(runs, currentMat, mat, tri);
        rest := s1;
        j := j + 1;
      }
      status := Ok;
    }

    /** A triangle opens a new run when its material is not the current one, and joins the last run otherwise. */
    static method AddToRuns(runs: seq<TriGroup>, currentMat: int, mat: u16, tri: MdbTriangle)
      returns (runs': seq<TriGroup>, currentMat': int)
      requires currentMat == LastMat(runs)
      ensures runs' == AddTri(runs, mat, tri) && currentMat' == mat
    {
      if currentMat != mat as int {
        runs' := runs + [TriGroup(mat, [tri])];
        currentMat' := mat as int;
      } else {
        runs' := runs[..|runs| - 1] + [TriGroup(mat, runs[|runs| - 1].tris + [tri])];
        currentMat' := currentMat;
      }
    }

    /** The material count and the material loop of ReadMdb, then the bones and the collision box. */
    method ReadMaterialsAndBones(s: seq<byte>) returns (status: Status)
      modifies this
      ensures var r := ReadMaterialsAndRest(old(State()), s); State() == r.st && status == r.outcome
    {
      var count := ReadU32(s);
      if count.None? {
        return Failed(TexCountError);
      }
      var (matCount, s1) := count.value;
      var s2;
      s2, status := ReadMaterialList(s1, matCount);
      if status.Failed? {
        return;
      }
      var bones := ReadU32(s2);
      if bones.None? {
        return Failed(BoneCountError);
      }
      var (boneCount, s3) := bones.value;
      var s4;
      s4, status := SkipBoneBlocks(s3, boneCount);
      if status.Failed? {
        return;
      }
      var box, rest, ok := ReadBox(Skip(s4, 52), parentBox);
      parentBox := box;
      status := if ok then Ok else Failed(BoxError);
    }

    /**
     * The material loop of ReadMdb: each material is named after its
     * texture and added to the file's list, and to the final list unless a
     * material of that name, ignoring case, is already there.
     */
    method ReadMaterialList(s: seq<byte>, n: nat) returns (rest: seq<byte>, status: Status)
      modifies this`currentMat, this`finalMat
      ensures var r := ReadMaterials(old(State()), s, 0, n); State() == r.st && rest == r.rest && status == r.outcome
    {
      rest := s;
      var i := 0;
      while i < n
        invariant i <= n
        invariant ReadMaterials(State(), rest, i, n) == ReadMaterials(old(State()), s, 0, n)
      {
        var length := ReadI32(Skip(rest, 4));
        if length.None? {
          return [], Failed(MaterialError(i));
        }
        var (strlength, s1) := length.value;
        ghost var l := strlength;
        if strlength < 0 {
          strlength := -strlength - 1;
        }
        assert strlength == StringLength(l);
        var (texName, s2) := ReadChars(s1, strlength);
        AddFileMaterial(Material(MatNameOf(texName), texName));
        rest := Skip(s2, 72);
        i := i + 1;
      }
      status := Ok;
    }

    /** A material read: always added to the file's list, and to the final list unless one of that name, ignoring case, is there. */
    method AddFileMaterial(mat: Material)
      modifies this`currentMat, this`finalMat
      ensures State() == AddMaterial(old(State()), mat)
    {
      currentMat := currentMat + [mat];
      if !HasMaterial(finalMat, mat.matName) {
        finalMat := finalMat + [mat];
      }
    }

    /** The bone loop of ReadMdb: each block's length is read and the block skipped. */
    static method SkipBoneBlocks(s: seq<byte>, n: nat) returns (rest: seq<byte>, status: Status)
      ensures (rest, status) == SkipBones(s, 0, n)
    {
      rest := s;
      var i := 0;
      while i < n
        invariant i <= n
        invariant SkipBones(rest, i, n) == SkipBones(s, 0, n)
      {
        var length := ReadU32(rest);
        if length.None? {
          return [], Failed(BoneError(i));
        }
        rest := Skip(length.value.1, length.value.0);
        i := i + 1;
      }
      status := Ok;
    }

    // ============================================================== WriteObj, WriteBox, WriteMtl

    /**
     * WriteObj: every position, texture coordinate and normal, then each
     * model's faces numbered with the running offsets, then, when boxes are
     * exported, the "MESH" line and the box tree; the lists are cleared
     * whether it goes through or stops at a material index out of range.
     */
    method WriteObj(f: Numbers, groupName: string, exportBoxes: bool)
      returns (obj: seq<string>, config: seq<string>, error: Option<string>)
      modifies this
      ensures ObjOut(obj, config, State(), error) == WriteObjSpec(f, old(State()), groupName, exportBoxes)
    {
      obj := WritePoints(f);
      var lines, failed := WriteGroups();
      obj := obj + lines;
      if failed.Some? {
        ClearLists();
        return obj, [], Some("Material index in " + failed.value + " out of range.\n");
      }
      config := [];
      if exportBoxes {
        config := ["MESH\t" + groupName];
        var boxObj, boxConfig := WriteBox(f, parentBox);
        obj := obj + boxObj;
        config := config + boxConfig;
      }
      ClearLists();
      error := None;
    }

    /** The three point loops of WriteObj. */
    method WritePoints(f: Numbers) returns (lines: seq<string>)
      ensures lines == PointLines(f, State())
    {
      lines := [];
      for k := 0 to |v|
        invariant lines + VertexLines(f, v[k..]) == VertexLines(f, v)
      {
        assert v[k..][1..] == v[k + 1..];
        Assoc(lines, [VertexLine(f, v[k])], VertexLines(f, v[k + 1..]));
        lines := lines + [VertexLine(f, v[k])];
      }
      assert v[|v|..] == [];
      assert lines == VertexLines(f, v);
      ghost var head := lines;
      for k := 0 to |vt|
        invariant lines + TexLines(f, vt[k..]) == head + TexLines(f, vt)
      {
        assert vt[k..][1..] == vt[k + 1..];
        Assoc(lines, [TexLine(f, vt[k])], TexLines(f, vt[k + 1..]));
        lines := lines + [TexLine(f, vt[k])];
      }
      assert vt[|vt|..] == [];
      assert lines == VertexLines(f, v) + TexLines(f, vt);
      head := lines;
      for k := 0 to |vn|
        invariant lines + NormalLines(f, vn[k..]) == head + NormalLines(f, vn)
      {
        assert vn[k..][1..] == vn[k + 1..];
        Assoc(lines, [NormalLine(f, vn[k])], NormalLines(f, vn[k + 1..]));
        lines := lines + [NormalLine(f, vn[k])];
      }
      assert vn[|vn|..] == [];
      assert lines == head + NormalLines(f, vn);
    }

    /**
     * The group loop of WriteObj: each model's "g" and "o" lines and its
     * runs, then the three offsets move on by its point count. It stops at
     * the first run whose material index is out of range, naming the model.
     */
    method WriteGroups() returns (lines: seq<string>, failed: Option<string>)
      modifies this`gVCount, this`gVtCount, this`gVnCount
      ensures GroupsOut(lines, State(), failed) == GroupLines(groups, old(State()))
    {
      lines := [];
      for k := 0 to |groups|
        invariant GroupLines(groups, old(State())) == Prefixed(lines, GroupLines(groups[k..], State()))
      {
        var group := groups[k];
        assert groups[k..][1..] == groups[k + 1..];
        var head := ["g " + group.name, "o " + group.name];
        var runLines, ok := WriteRuns(group.matGroups);
        if !ok {
          lines := lines + (head + runLines);
          return lines, Some(group.name);
        }
        ghost var rest := GroupLines(groups[k + 1..], Advance(State(), group.vCount));
        Assoc(lines, head + runLines, rest.lines);
        lines := lines + (head + runLines);
        AdvanceOffsets(group.vCount);
      }
      assert groups[|groups|..] == [];
      assert lines + [] == lines;
      failed := None;
    }

    /** After a model, the three offsets move on by its point count. */
    method AdvanceOffsets(n: nat)
      modifies this`gVCount, this`gVtCount, this`gVnCount
      ensures State() == Advance(old(State()), n)
    {
      gVCount := gVCount + n;
      gVtCount := gVtCount + n;
      gVnCount := gVnCount + n;
    }

    /** The runs of a model: a "usemtl" line and the faces of each; false at a material index out of range. */
    method WriteRuns(runs: seq<TriGroup>) returns (lines: seq<string>, ok: bool)
      ensures (lines, ok) == RunLines(runs, currentMat, State())
    {
      lines := [];
      for j := 0 to |runs|
        invariant RunLines(runs, currentMat, State()).0 == lines + RunLines(runs[j..], currentMat, State()).0
        invariant RunLines(runs, currentMat, State()).1 == RunLines(runs[j..], currentMat, State()).1
      {
        var run := runs[j];
        assert runs[j..][1..] == runs[j + 1..];
        if run.matIndex as int >= |currentMat| {
          assert lines + [] == lines;
          return lines, false;
        }
        var faces := WriteFaces(run.tris);
        var chunk := ["usemtl " + currentMat[run.matIndex].matName] + faces;
        Assoc(lines, chunk, RunLines(runs[j + 1..], currentMat, State()).0);
        lines := lines + chunk;
      }
      assert runs[|runs|..] == [];
      assert RunLines(runs[|runs|..], currentMat, State()) == ([], true);
      assert lines + [] == lines;
      ok := true;
    }

    /** The faces of a run, each corner numbered with the three running offsets. */
    method WriteFaces(tris: seq<MdbTriangle>) returns (lines: seq<string>)
      ensures lines == FaceLines(tris, State())
    {
      lines := [];
      for j := 0 to |tris|
        invariant lines + FaceLines(tris[j..], State()) == FaceLines(tris, State())
      {
        assert tris[j..][1..] == tris[j + 1..];
        Assoc(lines, [FaceLine(tris[j], State())], FaceLines(tris[j + 1..], State()));
        lines := lines + [FaceLine(tris[j], State())];
      }
      assert tris[|tris|..] == [];
    }

    /**
     * WriteBox: the box's 8 points, its "o" and "g" lines and its 12 faces
     * numbered from the vertex offset, which then moves on by 8; its
     * description line; then its left and right sub-trees.
     */
    method WriteBox(f: Numbers, box: Box) returns (obj: seq<string>, config: seq<string>)
      modifies this`gVCount
      ensures BoxOut(obj, config, gVCount) == BoxLines(f, box, old(gVCount))
      decreases box, 1
    {
      obj := OwnBoxLines(f, box, gVCount);
      gVCount := gVCount + 8;
      config := [CboxLine(box)];
      var leftObj, leftConfig := WriteChildBox(f, box.left);
      var rightObj, rightConfig := WriteChildBox(f, box.right);
      obj := obj + leftObj + rightObj;
      config := config + leftConfig + rightConfig;
    }

    /** A child slot of WriteBox: nothing for an empty one. */
    method WriteChildBox(f: Numbers, child: Option<Box>) returns (obj: seq<string>, config: seq<string>)
      modifies this`gVCount
      ensures BoxOut(obj, config, gVCount) == ChildLines(f, child, old(gVCount))
      decreases child, 2
    {
      if child.Some? {
        obj, config := WriteBox(f, child.value);
      } else {
        obj, config := [], [];
      }
    }

    /** WriteMtl: an entry for every material of the final list, its texture looked for in the texture directory. */
    method WriteMtl(textureDirectory: string) returns (lines: seq<string>)
      ensures lines == MtlFile(finalMat, textureDirectory)
    {
      lines := [];
      for k := 0 to |finalMat|
        invariant lines + MtlFile(finalMat[k..], textureDirectory) == MtlFile(finalMat, textureDirectory)
      {
        assert finalMat[k..][1..] == finalMat[k + 1..];
        Assoc(lines, MtlEntry(finalMat[k], textureDirectory), MtlFile(finalMat[k + 1..], textureDirectory));
        lines := lines + MtlEntry(finalMat[k], textureDirectory);
      }
      assert finalMat[|finalMat|..] == [];
    }

    // ============================================================== the converters

    /**
     * XMdbTo1Obj: one OBJ for all the files, starting with the "mtllib"
     * line; each file is read and written in turn with the offsets running
     * on; a file that fails is logged and the loop goes on; the MTL file
     * lists the final materials of all files.
     */
    method XMdbTo1Obj(f: Numbers, files: seq<MdbFile>, mtlFileName: string, textureDirectory: string, exportBoxes: bool)
      returns (obj: seq<string>, config: seq<string>, mtl: seq<string>, log: seq<string>)
      modifies this
      ensures var a := AddFiles(f, old(State()), files, exportBoxes);
        && obj == ["mtllib " + mtlFileName] + a.obj && config == a.config && log == a.log
        && State() == a.st && mtl == MtlFile(a.st.finalMat, textureDirectory)
    {
      var body;
      body, config, log := ConvertAll(f, files, exportBoxes);
      obj := ["mtllib " + mtlFileName] + body;
      mtl := WriteMtl(textureDirectory);
    }

    /** The file loop of XMdbTo1Obj. */
    method ConvertAll(f: Numbers, files: seq<MdbFile>, exportBoxes: bool)
      returns (obj: seq<string>, config: seq<string>, log: seq<string>)
      modifies this
      ensures Added(obj, config, log, State()) == AddFiles(f, old(State()), files, exportBoxes)
    {
      ghost var total := AddFiles(f, State(), files, exportBoxes);
      obj, config, log := [], [], [];
      AddedNothing(total);
      for i := 0 to |files|
        invariant total == Then(Added(obj, config, log, State()), AddFiles(f, State(), files[i..], exportBoxes))
      {
        ghost var done, st := Added(obj, config, log, State()), State();
        var o, c, l := ConvertInto(f, files[i], exportBoxes);
        AddFilesStep(done, f, st, files, i, exportBoxes, Added(o, c, l, State()));
        obj, config, log := obj + o, config + c, log + l;
      }
      AddFilesDone(Added(obj, config, log, State()), f, files, exportBoxes);
    }

    /** One file of XMdbTo1Obj. */
    method ConvertInto(f: Numbers, file: MdbFile, exportBoxes: bool) returns (obj: seq<string>, config: seq<string>, log: seq<string>)
      modifies this
      ensures Added(obj, config, log, State()) == AddFile(f, old(State()), file, exportBoxes)
    {
      var status := ReadMdb(file.bytes, file.groupName);
      if status.Failed? {
        return [], [], [Message(status.error)];
      }
      var error;
      obj, config, error := WriteObj(f, file.groupName, exportBoxes);
      log := if error.Some? then [error.value] else [];
    }

    /**
     * XMdbToXObj: an OBJ, an MTL and, when boxes are exported, a
     * description file for each MDB file; a file that fails is logged and
     * the loop goes on.
     */
    method XMdbToXObj(f: Numbers, files: seq<MdbFile>, textureDirectory: string, exportBoxes: bool)
      returns (outs: seq<FileOut>, log: seq<string>)
      modifies this
      ensures Separate(outs, log, State()) == OwnFiles(f, textureDirectory, old(State()), files, exportBoxes)
    {
      ghost var total := OwnFiles(f, textureDirectory, State(), files, exportBoxes);
      outs, log := [], [];
      SeparateNothing(total);
      for i := 0 to |files|
        invariant total == ThenSeparate(Separate(outs, log, State()), OwnFiles(f, textureDirectory, State(), files[i..], exportBoxes))
      {
        ghost var done, st := Separate(outs, log, State()), State();
        var out, l := ConvertSeparately(f, files[i], textureDirectory, exportBoxes);
        OwnFilesStep(done, f, textureDirectory, st, files, i, exportBoxes, Separate([out], l, State()));
        outs, log := outs + [out], log + l;
      }
      OwnFilesDone(Separate(outs, log, State()), f, textureDirectory, files, exportBoxes);
    }

    /** Each output file of XMdbToXObj numbers its points from 1. */
    method ResetCounters()
      modifies this`gVCount, this`gVtCount, this`gVnCount
      ensures State() == old(State()).(gVCount := 1, gVtCount := 1, gVnCount := 1)
    {
      gVCount, gVtCount, gVnCount := 1, 1, 1;
    }

    /** One file of XMdbToXObj. */
    method ConvertSeparately(f: Numbers, file: MdbFile, textureDirectory: string, exportBoxes: bool)
      returns (out: FileOut, log: seq<string>)
      modifies this
      ensures Separate([out], log, State()) == OwnFile(f, textureDirectory, old(State()), file, exportBoxes)
    {
      var status := ReadMdb(file.bytes, file.groupName);
      if status.Failed? {
        return Skipped, [Message(status.error)];
      }
      var obj, config, error := WriteObj(f, file.groupName, exportBoxes);
      obj := ["mtllib " + MtlFileName(file.groupName)] + obj;
      if error.Some? {
        return Written(obj, config, []), [error.value];
      }
      ResetCounters();
      var mtl := WriteMtl(textureDirectory);
      out, log := Written(obj, config, mtl), [];
    }
  }
}
