// What ObjTool.ReadMtl does to the material list `finalMat`, one line of the
// MTL file at a time.
module MtlRead {
  import opened Wrappers
  import opened Text
  import opened Records

  const TooManyMaterials := "Material count can't exceed 65536."

  /** Some material in `mats` has this name, ignoring case. */
  predicate HasMaterial(mats: seq<Material>, name: string)
  {
    exists i :: 0 <= i < |mats| && EqualsIgnoreCase(mats[i].matName, name)
  }

  /** Adds the material being read unless its name is taken; refuses a 65537th material. */
  function AddPending(mats: seq<Material>, mat: Option<Material>): (r: (seq<Material>, Outcome))
    ensures r.1.Pass? ==> r.0 == mats || (mat.Some? && r.0 == mats + [mat.value])
    ensures r.1.Fail? ==> r.0 == mats && |mats| > 65535
  {
    if mat.Some? && !HasMaterial(mats, mat.value.matName) then
      if |mats| > 65535 then (mats, Fail(TooManyMaterials)) else (mats + [mat.value], Pass)
    else (mats, Pass)
  }

  /** One line: "newmtl" starts a material with texture "NULL", "map_Kd" sets its texture. */
  function MtlStep(mats: seq<Material>, mat: Option<Material>, line: string): (seq<Material>, Option<Material>, Outcome)
  {
    if StartsWithIgnoreCase(line, "newmtl ") then
      var (m1, o) := AddPending(mats, mat);
      if o.Fail? then (m1, mat, o) else (m1, Some(Material(line[7..], "NULL")), Pass)
    else if StartsWithIgnoreCase(line, "map_kd ") then
      (mats, if mat.Some? then Some(mat.value.(texName := ChangeExtension(line[7..], "tga"))) else None, Pass)
    else (mats, mat, Pass)
  }

  /** The rest of the file from the given state; the first failure ends the read. */
  function MtlLines(mats: seq<Material>, mat: Option<Material>, lines: seq<string>): (seq<Material>, Outcome)
    decreases |lines|
  {
    if |lines| == 0 then AddPending(mats, mat)
    else
      var (m1, mat1, o) := MtlStep(mats, mat, lines[0]);
      if o.Fail? then (m1, o) else MtlLines(m1, mat1, lines[1..])
  }

  /** ReadMtl: the material list after the file, and whether it threw. */
  function ReadMtlSpec(mats: seq<Material>, lines: seq<string>): (seq<Material>, Outcome)
  {
    MtlLines(mats, None, lines)
  }

  // ---------------------------------------------------------------- what ReadMtl promises

  /** No two materials share a name, ignoring case. */
  predicate DistinctNames(mats: seq<Material>)
  {
    forall i, j :: 0 <= i < j < |mats| ==> !EqualsIgnoreCase(mats[i].matName, mats[j].matName)
  }

  /**
   * A texture ReadMtl assigns: "NULL", a name with the extension ".tga", or
   * the empty name an empty "map_Kd " path keeps.
   */
  predicate TgaOrNull(tex: string)
  {
    tex == "NULL" || tex == "" || (|tex| >= 4 && tex[|tex| - 4..] == ".tga")
  }

  /** What holds of the list and the material being read, relative to the list on entry. */
  predicate MtlInv(start: seq<Material>, mats: seq<Material>, mat: Option<Material>)
  {
    start <= mats && DistinctNames(mats)
    && (|start| <= 65536 ==> |mats| <= 65536)
    && (forall i :: |start| <= i < |mats| ==> TgaOrNull(mats[i].texName))
    && (mat.Some? ==> TgaOrNull(mat.value.texName))
  }

  lemma AddPendingKeeps(start: seq<Material>, mats: seq<Material>, mat: Option<Material>)
    requires MtlInv(start, mats, mat)
    ensures MtlInv(start, AddPending(mats, mat).0, None)
  {
    var r := AddPending(mats, mat).0;
    if r != mats {
      var name := mat.value.matName;
      forall i, j | 0 <= i < j < |r|
        ensures !EqualsIgnoreCase(r[i].matName, r[j].matName)
      {
        if j == |mats| {
          assert !EqualsIgnoreCase(mats[i].matName, name);
        }
      }
    }
  }

  /** The texture a "map_Kd " line assigns is empty or a ".tga" file. */
  lemma MapTexture(path: string)
    ensures TgaOrNull(ChangeExtension(path, "tga"))
  {
    var tex := ChangeExtension(path, "tga");
    if |path| > 0 {
      assert tex[|tex| - 4..] == tex[|Stem(path)|..];
    }
  }

  lemma MtlStepKeeps(start: seq<Material>, mats: seq<Material>, mat: Option<Material>, line: string)
    requires MtlInv(start, mats, mat)
    ensures var (m1, mat1, _) := MtlStep(mats, mat, line); MtlInv(start, m1, mat1)
  {
    if StartsWithIgnoreCase(line, "newmtl ") {
      AddPendingKeeps(start, mats, mat);
    } else if StartsWithIgnoreCase(line, "map_kd ") && mat.Some? {
      MapTexture(line[7..]);
      assert MtlStep(mats, mat, line) == (mats, Some(mat.value.(texName := ChangeExtension(line[7..], "tga"))), Pass);
    } else {
      assert MtlStep(mats, mat, line) == (mats, mat, Pass);
    }
  }

  lemma {:induction false} MtlLinesKeep(start: seq<Material>, mats: seq<Material>, mat: Option<Material>, lines: seq<string>)
    requires MtlInv(start, mats, mat)
    ensures MtlInv(start, MtlLines(mats, mat, lines).0, None)
    decreases |lines|
  {
    if |lines| == 0 {
      AddPendingKeeps(start, mats, mat);
    } else {
      MtlStepKeeps(start, mats, mat, lines[0]);
      var (m1, mat1, o) := MtlStep(mats, mat, lines[0]);
      if o.Fail? {
        assert MtlInv(start, m1, None);
      } else {
        MtlLinesKeep(start, m1, mat1, lines[1..]);
      }
    }
  }

  /**
   * ReadMtl only appends: what was in the list stays, names stay distinct
   * ignoring case, the list never grows past 65536 materials, and every new
   * material's texture is "NULL", a ".tga" file or, from an empty "map_Kd "
   * path, empty.
   */
  lemma ReadMtlKeepsList(mats: seq<Material>, lines: seq<string>)
    requires DistinctNames(mats)
    ensures var r := ReadMtlSpec(mats, lines).0;
      mats <= r && DistinctNames(r)
      && (|mats| <= 65536 ==> |r| <= 65536)
      && forall i :: |mats| <= i < |r| ==> TgaOrNull(r[i].texName)
  {
    MtlLinesKeep(mats, mats, None, lines);
  }

  /** ReadMtl throws only when a new name arrives with 65536 materials already listed. */
  lemma {:induction false} ReadMtlFailsOnlyWhenFull(mats: seq<Material>, mat: Option<Material>, lines: seq<string>)
    ensures var (r, o) := MtlLines(mats, mat, lines);
      o.Fail? ==> o == Fail(TooManyMaterials) && |r| > 65535
    decreases |lines|
  {
    if |lines| > 0 {
      var (m1, mat1, o) := MtlStep(mats, mat, lines[0]);
      if o.Pass? {
        ReadMtlFailsOnlyWhenFull(m1, mat1, lines[1..]);
      }
    }
  }
}
