// How ObjTool.ObjToXMdb distributes the (sorted) OBJ groups over output
// files: groups "Ship_Layer1_1" and "Ship_Layer1_2" both go to
// "Ship_Layer1.mdb", and a new file starts whenever the name changes.
module ObjFiles {
  import opened Machine
  import opened Text

  /**
   * RealGroupName: the name without its final "_<suffix>" when that suffix
   * reads as an int, and the whole name otherwise.
   */
  function RealGroupName(name: string): (r: string)
    ensures r <= name
    ensures r != name ==> |r| < |name| && name[|r|] == '_' && '_' !in name[|r| + 1..]
                          && TryParseInt(name[|r| + 1..]).Some?
  {
    var index := LastIndexOf(name, '_');
    if index != -1 && TryParseInt(name[index + 1..]).Some? then name[..index] else name
  }

  /** A name ending in "_" and a printed int loses exactly that suffix. */
  lemma RealGroupNameDropsNumber(base: string, n: int)
    requires IsInt32(n)
    ensures RealGroupName(base + "_" + IntToString(n)) == base
  {
    assert '_' !in IntToString(n) by {
      NatToStringHasNo(if n < 0 then -n else n, '_');
      if n < 0 {
        assert IntToString(n) == "-" + NatToString(-n);
      }
    }
    IntToStringRoundTrip(n);
    RealGroupNameOfSuffix(base, IntToString(n));
  }

  /** A final "_<suffix>" is dropped when the suffix reads as an int. */
  lemma RealGroupNameOfSuffix(base: string, suffix: string)
    requires '_' !in suffix && TryParseInt(suffix).Some?
    ensures RealGroupName(base + "_" + suffix) == base
  {
    var name := base + "_" + suffix;
    assert name == base + ['_'] + suffix;
    LastIndexOfAfter(base, '_', suffix);
    assert name[|base| + 1..] == suffix;
    assert name[..|base|] == base;
  }

  lemma {:induction false} LastIndexOfAfter(a: string, c: char, b: string)
    requires c !in b
    ensures LastIndexOf(a + [c] + b, c) == |a|
    decreases |b|
  {
    var s := a + [c] + b;
    if |b| > 0 {
      assert s[..|s| - 1] == a + [c] + b[..|b| - 1];
      assert s[|s| - 1] == b[|b| - 1];
      LastIndexOfAfter(a, c, b[..|b| - 1]);
    }
  }

  /** A name whose part after the last '_' does not read as an int (or that has no '_') is kept whole. */
  lemma RealGroupNameKeeps(name: string)
    requires '_' !in name || TryParseInt(name[LastIndexOf(name, '_') + 1..]).None?
    ensures RealGroupName(name) == name
  {
  }

  /** The output file a group goes to: its real name, or "-" when that is blank. */
  function FileOf(group: string): (r: string)
    ensures |r| > 0
    ensures !IsBlank(RealGroupName(group)) ==> r == RealGroupName(group)
  {
    var temp := RealGroupName(group);
    if IsBlank(temp) then "-" else temp
  }

  /** An output file: its name (without ".mdb") and how many models (groups) it holds. */
  datatype FileRun = FileRun(file: string, models: nat)

  /**
   * The driver's loop over the groups, given the file each group goes to:
   * `currentFileName` starts empty, and a group whose file differs from the
   * current one closes the current file and starts a new one with
   * modelIndex 0; otherwise the group is the next model of the current file.
   */
  function SplitFrom(current: string, runs: seq<FileRun>, files: seq<string>): (r: seq<FileRun>)
    decreases |files|
  {
    if |files| == 0 then runs
    else if |runs| > 0 && current == files[0] then
      SplitFrom(current, runs[..|runs| - 1] + [runs[|runs| - 1].(models := runs[|runs| - 1].models + 1)], files[1..])
    else SplitFrom(files[0], runs + [FileRun(files[0], 1)], files[1..])
  }

  function SplitFiles(groups: seq<string>): seq<FileRun>
  {
    SplitFrom("", [], FilesOf(groups))
  }

  /** The file names, one per model, that a list of runs stands for. */
  function Expand(runs: seq<FileRun>): seq<string>
  {
    if |runs| == 0 then [] else Expand(runs[..|runs| - 1]) + Repeat(runs[|runs| - 1].file, runs[|runs| - 1].models)
  }

  function Repeat(s: string, n: nat): (r: seq<string>)
    ensures |r| == n && forall k :: 0 <= k < n ==> r[k] == s
  {
    if n == 0 then [] else Repeat(s, n - 1) + [s]
  }

  function FilesOf(groups: seq<string>): (r: seq<string>)
    ensures |r| == |groups| && forall k :: 0 <= k < |groups| ==> r[k] == FileOf(groups[k])
  {
    if |groups| == 0 then [] else [FileOf(groups[0])] + FilesOf(groups[1..])
  }

  /** Consecutive files have different names, and every file holds at least one model. */
  predicate Separated(runs: seq<FileRun>)
  {
    (forall k :: 0 <= k < |runs| ==> runs[k].models >= 1)
    && forall k :: 0 < k < |runs| ==> runs[k - 1].file != runs[k].file
  }

  lemma ExpandSnoc(runs: seq<FileRun>, r: FileRun)
    ensures Expand(runs + [r]) == Expand(runs) + Repeat(r.file, r.models)
  {
    assert (runs + [r])[..|runs|] == runs;
  }

  lemma ExpandBump(runs: seq<FileRun>)
    requires |runs| > 0
    ensures var last := runs[|runs| - 1];
      Expand(runs[..|runs| - 1] + [last.(models := last.models + 1)]) == Expand(runs) + [last.file]
  {
    var init, last := runs[..|runs| - 1], runs[|runs| - 1];
    calc {
      Expand(init + [last.(models := last.models + 1)]);
      { ExpandSnoc(init, last.(models := last.models + 1)); }
      Expand(init) + Repeat(last.file, last.models + 1);
      Expand(init) + (Repeat(last.file, last.models) + [last.file]);
      { Assoc(Expand(init), Repeat(last.file, last.models), [last.file]); }
      Expand(init) + Repeat(last.file, last.models) + [last.file];
      Expand(runs) + [last.file];
    }
  }

  lemma SeparatedBump(runs: seq<FileRun>)
    requires |runs| > 0 && Separated(runs)
    ensures var last := runs[|runs| - 1];
      var r := runs[..|runs| - 1] + [last.(models := last.models + 1)];
      Separated(r) && |r| == |runs| && r[|r| - 1].file == last.file
  {
  }

  lemma SeparatedSnoc(runs: seq<FileRun>, r: FileRun)
    requires Separated(runs) && r.models >= 1
    requires |runs| > 0 ==> runs[|runs| - 1].file != r.file
    ensures Separated(runs + [r])
  {
  }

  lemma {:induction false} SplitFromCorrect(current: string, runs: seq<FileRun>, files: seq<string>)
    requires Separated(runs)
    requires |runs| > 0 ==> current == runs[|runs| - 1].file
    ensures Separated(SplitFrom(current, runs, files))
    ensures Expand(SplitFrom(current, runs, files)) == Expand(runs) + files
    decreases |files|
  {
    if |files| > 0 {
      var temp := files[0];
      if |runs| > 0 && current == temp {
        var last := runs[|runs| - 1];
        var runs' := runs[..|runs| - 1] + [last.(models := last.models + 1)];
        assert Separated(runs') && runs'[|runs'| - 1].file == current by {
          SeparatedBump(runs);
        }
        SplitFromCorrect(current, runs', files[1..]);
        assert Expand(runs') + files[1..] == Expand(runs) + files by {
          ExpandBump(runs);
          Assoc(Expand(runs), [temp], files[1..]);
          assert files == [temp] + files[1..];
        }
      } else {
        var runs' := runs + [FileRun(temp, 1)];
        assert Separated(runs') by {
          SeparatedSnoc(runs, FileRun(temp, 1));
        }
        SplitFromCorrect(temp, runs', files[1..]);
        assert Expand(runs') + files[1..] == Expand(runs) + files by {
          ExpandSnoc(runs, FileRun(temp, 1));
          assert Repeat(temp, 1) == [temp];
          Assoc(Expand(runs), [temp], files[1..]);
          assert files == [temp] + files[1..];
        }
      }
    }
  }

  /**
   * The driver writes every group, in order, to the file its name calls
   * for: reading the files one after the other, model by model, gives back
   * each group's file name; a new file starts exactly where that name
   * changes, and no file is empty.
   */
  lemma SplitFilesCorrect(groups: seq<string>)
    ensures Separated(SplitFiles(groups))
    ensures Expand(SplitFiles(groups)) == FilesOf(groups)
  {
    SplitFromCorrect("", [], FilesOf(groups));
  }

  /** Two consecutive groups numbered after the same base name go to one file, as two models. */
  lemma SameFileTwice(f: string)
    ensures SplitFrom("", [], [f, f]) == [FileRun(f, 2)]
  {
    assert SplitFrom("", [], [f, f]) == SplitFrom(f, [FileRun(f, 1)], [f]);
    assert SplitFrom(f, [FileRun(f, 1)], [f]) == SplitFrom(f, [FileRun(f, 2)], []);
  }

  lemma LayersShareFile(base: string, a: int, b: int)
    requires IsInt32(a) && IsInt32(b) && !IsBlank(base)
    ensures SplitFiles([base + "_" + IntToString(a), base + "_" + IntToString(b)]) == [FileRun(base, 2)]
  {
    NumberedFile(base, a);
    NumberedFile(base, b);
    TwoGroupsOneFile(base + "_" + IntToString(a), base + "_" + IntToString(b), base);
  }

  /** A group named after a non-blank base and a number goes to the base's file. */
  lemma NumberedFile(base: string, n: int)
    requires IsInt32(n) && !IsBlank(base)
    ensures FileOf(base + "_" + IntToString(n)) == base
  {
    RealGroupNameDropsNumber(base, n);
  }

  /** Two groups of the same file make one run of two models. */
  lemma TwoGroupsOneFile(g0: string, g1: string, f: string)
    requires FileOf(g0) == f && FileOf(g1) == f
    ensures SplitFiles([g0, g1]) == [FileRun(f, 2)]
  {
    assert FilesOf([g0, g1]) == [f, f] by {
      assert [g0, g1][0] == g0 && [g0, g1][1] == g1;
    }
    SameFileTwice(f);
  }

  /**
   * XObjToXMdb writes one file per OBJ file, named after it with extension
   * "mdb", and looks its collision boxes up under that same name: a mesh
   * named without that extension is never found. A path that is empty or ends in a
   * separator has no file name, and the name stays empty.
   */
  function XMdbName(objPath: string): (r: string)
    ensures |GetFileName(objPath)| == 0 ==> r == ""
    ensures |GetFileName(objPath)| > 0 ==> |r| >= 4 && r[|r| - 4..] == ".mdb"
  {
    var r := ChangeExtension(GetFileName(objPath), "mdb");
    assert |GetFileName(objPath)| > 0 ==> r[|r| - 4..] == r[|Stem(GetFileName(objPath))|..];
    r
  }

  lemma XMdbLookupMisses(objPath: string, mesh: string)
    requires |mesh| < 4 || mesh[|mesh| - 4..] != ".mdb"
    ensures mesh == XMdbName(objPath) ==> mesh == "" && GetFileName(objPath) == ""
  {
  }
}
