// The registry of element names of a mesh scene: text buffers (the
// toolkit's StringBuilders) shared by reference between the registry and
// the elements, the searches over it, and the renaming rule an element
// applies when its name is already taken.
module MsbNames {
  import opened Wrappers
  import opened Machine
  import opened Text

  /** A StringBuilder: text that is rewritten in place, seen by every holder of the reference. */
  class Buf {
    var text: string

    constructor (s: string)
      ensures text == s
    {
      text := s;
    }
  }

  /** The texts of a list of buffers, in order. */
  function TextsOf(bs: seq<Buf>): (r: seq<string>)
    reads bs
    ensures |r| == |bs|
    ensures forall i :: 0 <= i < |bs| ==> r[i] == bs[i].text
  {
    seq(|bs|, i requires 0 <= i < |bs| reads bs => bs[i].text)
  }

  /** The List<StringBuilder> of element names, shared by the tool and its elements. */
  /** The texts of two lists of buffers laid end to end. */
  lemma TextsOfAppend(a: seq<Buf>, b: seq<Buf>)
    ensures TextsOf(a + b) == TextsOf(a) + TextsOf(b)
  {
  }

  class NameList {
    var items: seq<Buf>

    constructor ()
      ensures items == []
    {
      items := [];
    }

    function Texts(): seq<string>
      reads this, items
    {
      TextsOf(items)
    }

    /** List.Add. */
    method Add(b: Buf)
      modifies this
      ensures items == old(items) + [b]
    {
      items := items + [b];
    }

    /** List.Add of a name buffer: its text becomes the last registered name. */
    method Register(b: Buf)
      modifies this
      ensures items == old(items) + [b] && Texts() == old(Texts()) + [b.text]
    {
      ghost var before := items;
      items := items + [b];
      TextsOfAppend(before, [b]);
    }

    /** List.Insert: an index past the end throws, so callers must stay within it. */
    method Insert(i: nat, b: Buf)
      requires i <= |items|
      modifies this
      ensures items == old(items)[..i] + [b] + old(items)[i..]
    {
      items := items[..i] + [b] + items[i..];
    }

    /** List.RemoveAt. */
    method RemoveAt(i: nat)
      requires i < |items|
      modifies this
      ensures items == old(items)[..i] + old(items)[i + 1..]
    {
      items := items[..i] + items[i + 1..];
    }
  }

  // ---------------------------------------------------------------- searching

  /** The position of the first item equal to `value`, or -1 when there is none. */
  function FirstIndex<T(==)>(texts: seq<T>, value: T): (r: int)
    ensures -1 <= r < |texts|
    ensures r >= 0 ==> texts[r] == value && value !in texts[..r]
    ensures r == -1 <==> value !in texts
  {
    if |texts| == 0 then -1
    else if texts[0] == value then 0
    else
      var k := FirstIndex(texts[1..], value);
      if k == -1 then -1 else k + 1
  }

  /** A position holding `value` with no earlier one is the first index. */
  lemma FirstIndexIs<T>(texts: seq<T>, value: T, i: nat)
    requires i < |texts| && texts[i] == value && value !in texts[..i]
    ensures FirstIndex(texts, value) == i
  {
  }

  /** The first index in a concatenation: in the first part if it is there, else shifted past it. */
  lemma FirstIndexAppend<T>(a: seq<T>, b: seq<T>, value: T)
    ensures FirstIndex(a + b, value)
         == if FirstIndex(a, value) >= 0 then FirstIndex(a, value)
            else if FirstIndex(b, value) >= 0 then |a| + FirstIndex(b, value)
            else -1
  {
    var i, j := FirstIndex(a, value), FirstIndex(b, value);
    if i >= 0 {
      assert (a + b)[..i] == a[..i];
      FirstIndexIs(a + b, value, i);
    } else if j >= 0 {
      assert (a + b)[..|a| + j] == a + b[..j];
      FirstIndexIs(a + b, value, |a| + j);
    } else {
      assert value !in a + b;
    }
  }

  /** One more position of a search loop that did not find `value`. */
  lemma NotInPrefixStep<T>(texts: seq<T>, value: T, i: nat)
    requires i < |texts| && value !in texts[..i] && texts[i] != value
    ensures value !in texts[..i + 1]
  {
    assert texts[..i + 1] == texts[..i] + [texts[i]];
  }

  /** A search loop that ran to the end did not find `value` anywhere. */
  lemma NotInWhole<T>(texts: seq<T>, value: T)
    requires value !in texts[..|texts|]
    ensures value !in texts
  {
    assert texts[..|texts|] == texts;
  }

  /** The first index in four lists laid end to end, as the four searches of GetNewParentId find it. */
  lemma FirstIndexOfFour<T>(a: seq<T>, b: seq<T>, c: seq<T>, d: seq<T>, value: T)
    ensures FirstIndex(a + b + c + d, value)
         == if FirstIndex(a, value) >= 0 then FirstIndex(a, value)
            else if FirstIndex(b, value) >= 0 then |a| + FirstIndex(b, value)
            else if FirstIndex(c, value) >= 0 then |a| + |b| + FirstIndex(c, value)
            else if FirstIndex(d, value) >= 0 then |a| + |b| + |c| + FirstIndex(d, value)
            else -1
  {
    FirstIndexAppend(a + b + c, d, value);
    FirstIndexAppend(a + b, c, value);
    FirstIndexAppend(a, b, value);
  }

  /** The buffer the first equal text belongs to, or null (FindParentName). */
  function FirstWithText(bs: seq<Buf>, value: string): (r: Buf?)
    reads bs
    ensures r == null <==> value !in TextsOf(bs)
    ensures r != null ==> r.text == value
  {
    var i := FirstIndex(TextsOf(bs), value);
    if i == -1 then null else bs[i]
  }

  /**
   * The loop of FindParentName and of the name setters: the first registry
   * entry whose text equals `value`, -1 when none does.
   */
  method IndexOfText(reg: NameList, value: string) returns (r: int)
    ensures r == FirstIndex(reg.Texts(), value)
  {
    var i := 0;
    while i < |reg.items|
      invariant 0 <= i <= |reg.items|
      invariant value !in reg.Texts()[..i]
    {
      if reg.items[i].text == value {
        FirstIndexIs(reg.Texts(), value, i);
        return i;
      }
      assert reg.Texts()[..i + 1] == reg.Texts()[..i] + [reg.items[i].text];
      i := i + 1;
    }
    assert reg.Texts()[..i] == reg.Texts();
    return -1;
  }

  /** FindParentName: the registry's buffer whose text is `value`, or null. */
  method FindText(reg: NameList, value: string) returns (b: Buf?)
    ensures b == FirstWithText(reg.items, value)
    ensures b != null ==> b in reg.items && b.text == value
    ensures b == null <==> value !in reg.Texts()
  {
    var i := IndexOfText(reg, value);
    if i == -1 {
      return null;
    }
    return reg.items[i];
  }

  // ---------------------------------------------------------------- renaming

  /**
   * A name split at a trailing "_<int>": the text before the last '_' and
   * the number after it when that part parses as an int; otherwise the whole
   * name and 0, the value int.TryParse leaves behind.
   */
  function SplitSuffix(s: string): (r: (string, int))
    ensures IsInt32(r.1)
    ensures |r.0| <= |s|
  {
    var index := LastIndexOf(s, '_');
    if index != -1 && TryParseInt(s[index + 1..]).Some? then (s[..index], TryParseInt(s[index + 1..]).value)
    else (s, 0)
  }

  /** The splits of every registry text, in order. */
  function Splits(texts: seq<string>): (r: seq<(string, int)>)
    ensures |r| == |texts|
    ensures forall i :: 0 <= i < |texts| ==> r[i] == SplitSuffix(texts[i])
  {
    seq(|texts|, i requires 0 <= i < |texts| => SplitSuffix(texts[i]))
  }

  /** The largest number among the splits whose base is `base`, and 0 when none is larger. */
  function MaxOf(ps: seq<(string, int)>, base: string): int
  {
    if |ps| == 0 then 0
    else
      var m := MaxOf(ps[..|ps| - 1], base);
      var last := ps[|ps| - 1];
      if last.0 == base && last.1 > m then last.1 else m
  }

  /** One more split: the maximum moves to its number when it has the base and a larger number. */
  lemma MaxOfStep(ps: seq<(string, int)>, i: nat, base: string)
    requires i < |ps|
    ensures MaxOf(ps[..i + 1], base)
         == if ps[i].0 == base && ps[i].1 > MaxOf(ps[..i], base) then ps[i].1 else MaxOf(ps[..i], base)
  {
    assert ps[..i + 1][..i] == ps[..i];
  }

  /** The maximum is one of the numbers with that base, or 0. */
  lemma {:induction false} MaxOfRange(ps: seq<(string, int)>, base: string)
    requires forall i :: 0 <= i < |ps| ==> IsInt32(ps[i].1)
    ensures 0 <= MaxOf(ps, base) <= Int32Max
  {
    if |ps| > 0 {
      MaxOfRange(ps[..|ps| - 1], base);
    }
  }

  /** No split with the same base carries a number above the maximum. */
  lemma {:induction false} MaxOfBound(ps: seq<(string, int)>, base: string)
    ensures forall i :: 0 <= i < |ps| && ps[i].0 == base ==> ps[i].1 <= MaxOf(ps, base)
  {
    if |ps| > 0 {
      var init := ps[..|ps| - 1];
      MaxOfBound(init, base);
      assert forall i :: 0 <= i < |init| ==> ps[i] == init[i];
    }
  }

  /**
   * maxNodeNumber of ProcessName: the largest number among the registry
   * texts whose base is `base`, and 0 when none is larger.
   */
  function MaxSuffix(texts: seq<string>, base: string): (m: int)
    ensures 0 <= m <= Int32Max
  {
    MaxOfRange(Splits(texts), base);
    MaxOf(Splits(texts), base)
  }

  /** No entry with the same base carries a number above the maximum. */
  lemma MaxSuffixBound(texts: seq<string>, base: string, i: nat)
    requires i < |texts| && SplitSuffix(texts[i]).0 == base
    ensures SplitSuffix(texts[i]).1 <= MaxSuffix(texts, base)
  {
    MaxOfBound(Splits(texts), base);
  }

  /** The name ProcessName builds: base, '_', and the number as Int32.ToString writes it. */
  function NumberedName(base: string, n: nat): string
  {
    base + "_" + IntToString(n)
  }

  /** The last '_' of a text is the one after which no '_' follows. */
  lemma LastIndexOfMark(a: string, c: char, b: string)
    requires c !in b
    ensures LastIndexOf(a + [c] + b, c) == |a|
  {
    var s := a + [c] + b;
    assert s[|a|] == c;
  }

  /** A numbered name splits back into its base and its number. */
  lemma SplitNumbered(base: string, n: nat)
    requires n <= Int32Max
    ensures SplitSuffix(NumberedName(base, n)) == (base, n)
  {
    var digits := NatToString(n);
    var s := NumberedName(base, n);
    assert IntToString(n) == digits;
    NatToStringHasNo(n, '_');
    assert s == base + ['_'] + digits;
    LastIndexOfMark(base, '_', digits);
    assert s[|base| + 1..] == digits;
    assert s[..|base|] == base;
    IntToStringRoundTrip(n);
  }

  /** The number after the largest one taken is free: no registry text has it. */
  lemma NumberedFresh(texts: seq<string>, base: string)
    requires MaxSuffix(texts, base) < Int32Max
    ensures NumberedName(base, MaxSuffix(texts, base) + 1) !in texts
  {
    var m := MaxSuffix(texts, base);
    var ps := Splits(texts);
    SplitNumbered(base, m + 1);
    MaxOfBound(ps, base);
    assert forall i :: 0 <= i < |texts| ==> ps[i] != (base, m + 1);
  }

  /**
   * The new name for a registered name with base `base`: base + "_" +
   * (max + 1), which no registry text has, or None (an exception) when max
   * is int.MaxValue.
   */
  function Renumbered(base: string, texts: seq<string>): (r: Option<string>)
    ensures r.None? <==> MaxSuffix(texts, base) == Int32Max
    ensures r.Some? ==> r.value !in texts
  {
    var max := MaxSuffix(texts, base);
    if max == Int32Max then None
    else
      NumberedFresh(texts, base);
      Some(NumberedName(base, max + 1))
  }

  /**
   * ProcessName's outcome for a name against the registry texts: the name
   * itself when it is not registered, otherwise its renumbered form.
   */
  function ProcessedName(name: string, texts: seq<string>): (r: Option<string>)
    ensures name !in texts ==> r == Some(name)
    ensures r.Some? ==> r.value !in texts
    ensures name in texts ==> (r.None? <==> MaxSuffix(texts, SplitSuffix(name).0) == Int32Max)
  {
    if name !in texts then Some(name) else Renumbered(SplitSuffix(name).0, texts)
  }

  /**
   * A registered name is renamed to the next free number of its base, and
   * the new name splits back into that base and that number.
   */
  lemma Renamed(name: string, texts: seq<string>, base: string, max: int)
    requires name in texts && base == SplitSuffix(name).0
    requires max == MaxSuffix(texts, base) < Int32Max
    ensures ProcessedName(name, texts) == Some(NumberedName(base, max + 1))
    ensures SplitSuffix(NumberedName(base, max + 1)) == (base, max + 1)
  {
    assert ProcessedName(name, texts) == Renumbered(base, texts);
    SplitNumbered(base, max + 1);
  }

  /** The loop of ProcessName over the registry: the largest number taken with base `base`. */
  method MaxSuffixIn(reg: NameList, base: string) returns (max: int)
    ensures max == MaxSuffix(reg.Texts(), base)
  {
    max := 0;
    ghost var texts := reg.Texts();
    for i := 0 to |reg.items|
      invariant max == MaxOf(Splits(texts)[..i], base)
    {
      var parsed := SplitSuffix(reg.items[i].text);
      assert reg.items[i].text == texts[i];
      MaxOfStep(Splits(texts), i, base);
      if parsed.0 == base && parsed.1 > max {
        max := parsed.1;
      }
    }
    assert Splits(texts)[..|reg.items|] == Splits(texts);
  }

  /**
   * ProcessName on a name buffer: when its text is already registered it is
   * rewritten in place as base + "_" + (max + 1); an exception when max is
   * int.MaxValue; otherwise nothing changes.
   */
  method ProcessBuf(buf: Buf, reg: NameList) returns (o: Outcome)
    modifies buf
    ensures o.Pass? <==> ProcessedName(old(buf.text), old(reg.Texts())).Some?
    ensures o.Pass? ==> buf.text == ProcessedName(old(buf.text), old(reg.Texts())).value
    ensures o.Fail? ==> buf.text == old(buf.text)
  {
    ghost var texts := reg.Texts();
    var nodeName := buf.text;
    var found := IndexOfText(reg, nodeName);
    if found != -1 {
      var base := SplitSuffix(nodeName).0;
      var max := MaxSuffixIn(reg, base);
      if max == Int32Max {
        return Fail("Exception of type 'System.Exception' was thrown.");
      }
      Renamed(nodeName, texts, base, max);
      buf.text := NumberedName(base, max + 1);
    }
    return Pass;
  }
}
