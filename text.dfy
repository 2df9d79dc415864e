// The parts of System.String, System.Int32 and System.IO.Path that the
// toolkit relies on, over Dafny strings (`seq<char>`).
module Text {
  import opened Wrappers
  import opened Machine

  /** Index of the last occurrence of `c` in `s`, or -1 (String.LastIndexOf(char)). */
  function LastIndexOf(s: string, c: char): (r: int)
    ensures -1 <= r < |s|
    ensures r >= 0 ==> s[r] == c && c !in s[r + 1..]
    ensures r == -1 <==> c !in s
  {
    if |s| == 0 then -1
    else if s[|s| - 1] == c then |s| - 1
    else
      assert s == s[..|s| - 1] + [s[|s| - 1]];
      LastIndexOf(s[..|s| - 1], c)
  }

  // ---------------------------------------------------------------- whitespace

  /** Char.IsWhiteSpace: the Unicode separator categories plus U+0009..U+000D, U+0085. */
  predicate IsWhiteSpace(c: char)
  {
    c == ' ' || ('\t' <= c <= '\r') || c == '\U{85}' || c == '\U{A0}' || c == '\U{1680}'
    || ('\U{2000}' <= c <= '\U{200A}') || c == '\U{2028}' || c == '\U{2029}' || c == '\U{202F}'
    || c == '\U{205F}' || c == '\U{3000}'
  }

  /** String.IsNullOrWhiteSpace for a non-null string: empty, or whitespace only. */
  predicate IsBlank(s: string)
  {
    forall i :: 0 <= i < |s| ==> IsWhiteSpace(s[i])
  }

  // ---------------------------------------------------------------- case folding

  /** Upper-casing as OrdinalIgnoreCase applies it, restricted to ASCII letters. */
  function UpperAscii(c: char): char
  {
    if 'a' <= c <= 'z' then (c as int - 32) as char else c
  }

  predicate EqualsIgnoreCase(a: string, b: string)
  {
    |a| == |b| && forall i :: 0 <= i < |a| ==> UpperAscii(a[i]) == UpperAscii(b[i])
  }

  predicate StartsWith(s: string, prefix: string)
  {
    prefix <= s
  }

  predicate StartsWithIgnoreCase(s: string, prefix: string)
  {
    |prefix| <= |s| && EqualsIgnoreCase(s[..|prefix|], prefix)
  }

  // ---------------------------------------------------------------- Int32.TryParse

  predicate IsDigit(c: char) { '0' <= c <= '9' }

  predicate AllDigits(s: string) { forall i :: 0 <= i < |s| ==> IsDigit(s[i]) }

  /** The number written by a string of decimal digits. */
  function DigitsValue(s: string): nat
    requires AllDigits(s)
  {
    if |s| == 0 then 0 else 10 * DigitsValue(s[..|s| - 1]) + (s[|s| - 1] as int - '0' as int)
  }

  /** The white space NumberStyles.Integer allows around a number: U+0009..U+000D and U+0020. */
  predicate IsNumberWhite(c: char) { c == ' ' || '\t' <= c <= '\r' }

  function TrimNumberWhite(s: string): (r: string)
    ensures |r| <= |s|
    ensures |r| > 0 ==> !IsNumberWhite(r[0]) && !IsNumberWhite(r[|r| - 1])
    decreases |s|
  {
    if |s| > 0 && IsNumberWhite(s[0]) then TrimNumberWhite(s[1..])
    else if |s| > 0 && IsNumberWhite(s[|s| - 1]) then TrimNumberWhite(s[..|s| - 1])
    else s
  }

  /**
   * Int32.TryParse(s, out n) in NumberStyles.Integer: white space around an
   * optional sign and at least one decimal digit; None when the text is not of
   * that form or the value leaves the int range (the source then reads 0).
   */
  function TryParseInt(s: string): (r: Option<int>)
    ensures r.Some? ==> IsInt32(r.value)
  {
    var t := TrimNumberWhite(s);
    var negative := |t| > 0 && t[0] == '-';
    var digits := if |t| > 0 && (t[0] == '-' || t[0] == '+') then t[1..] else t;
    if |digits| == 0 || !AllDigits(digits) then None
    else
      var magnitude: int := DigitsValue(digits);
      var value := if negative then -magnitude else magnitude;
      if IsInt32(value) then Some(value) else None
  }

  /** The value `int.TryParse(s, out x)` leaves in `x`. */
  function ParsedOrZero(s: string): (r: int)
    ensures IsInt32(r)
    ensures TryParseInt(s).None? ==> r == 0
  {
    match TryParseInt(s)
    case Some(n) => n
    case None => 0
  }

  function DigitChar(d: nat): (c: char)
    requires d < 10
    ensures IsDigit(c)
  {
    ('0' as int + d) as char
  }

  /** Int32.ToString() of a non-negative value. */
  function NatToString(n: nat): (r: string)
    ensures |r| > 0 && AllDigits(r)
  {
    if n < 10 then [DigitChar(n)] else NatToString(n / 10) + [DigitChar(n % 10)]
  }

  /** Int32.ToString(): decimal digits, with '-' in front of negative values. */
  function IntToString(i: int): string
  {
    if i < 0 then "-" + NatToString(-i) else NatToString(i)
  }

  lemma {:induction false} NatToStringValue(n: nat)
    ensures DigitsValue(NatToString(n)) == n
  {
    if n >= 10 {
      var s := NatToString(n);
      NatToStringValue(n / 10);
      assert s[..|s| - 1] == NatToString(n / 10);
    }
  }

  lemma TrimNumberWhiteOfDigits(s: string)
    requires |s| > 0 && AllDigits(s)
    ensures TrimNumberWhite(s) == s
  {
  }

  /** Every int printed by IntToString is read back by TryParseInt. */
  lemma IntToStringRoundTrip(i: int)
    requires IsInt32(i)
    ensures TryParseInt(IntToString(i)) == Some(i)
  {
    var s := IntToString(i);
    if i < 0 {
      var d := NatToString(-i);
      NatToStringValue(-i);
      assert s[1..] == d;
      assert !IsNumberWhite(s[0]) && !IsNumberWhite(s[|s| - 1]);
      assert TrimNumberWhite(s) == s;
    } else {
      NatToStringValue(i);
      TrimNumberWhiteOfDigits(s);
    }
  }

  /** A printed number contains none of the characters the toolkit uses as separators. */
  lemma NatToStringHasNo(n: nat, c: char)
    requires !IsDigit(c)
    ensures c !in NatToString(n)
  {
  }

  // ---------------------------------------------------------------- String.Split

  /** Index of the first `c` in `s`, or |s|. */
  function IndexOf(s: string, c: char): (r: nat)
    ensures r <= |s|
    ensures c !in s[..r]
    ensures r < |s| ==> s[r] == c
  {
    if |s| == 0 || s[0] == c then 0
    else
      assert s[..1 + IndexOf(s[1..], c)] == [s[0]] + s[1..][..IndexOf(s[1..], c)];
      1 + IndexOf(s[1..], c)
  }

  /** The string without its leading separators. */
  function TrimStart(s: string, c: char): (r: string)
    ensures |r| <= |s| && r == s[|s| - |r|..]
    ensures r == [] || r[0] != c
    ensures c !in s ==> r == s
  {
    if |s| > 0 && s[0] == c then TrimStart(s[1..], c) else s
  }

  /**
   * String.Split(new[] { c }, count, options) for count >= 1: at most `count`
   * pieces, the last one holding the rest of the string; with `removeEmpty`
   * empty pieces are dropped before they are counted, and once `count - 1`
   * pieces are taken the separators in front of the last piece are skipped
   * (a last piece that is then empty is dropped as well).
   */
  function SplitN(s: string, c: char, count: nat, removeEmpty: bool): (r: seq<string>)
    requires count >= 1
    ensures |r| <= count
    ensures !removeEmpty ==> |r| >= 1
    ensures !removeEmpty && c !in s ==> r == [s]
    ensures removeEmpty ==> forall k :: 0 <= k < |r| ==> r[k] != []
    decreases |s|
  {
    var i := IndexOf(s, c);
    if count == 1 || i == |s| then (if removeEmpty && |s| == 0 then [] else [s])
    else if removeEmpty && i == 0 then SplitN(s[1..], c, count, removeEmpty)
    else if removeEmpty && count == 2 then
      var last := TrimStart(s[i + 1..], c);
      [s[..i]] + (if last == [] then [] else [last])
    else [s[..i]] + SplitN(s[i + 1..], c, count - 1, removeEmpty)
  }

  /** String.Split(c): every piece between two separators. */
  function SplitAll(s: string, c: char): (r: seq<string>)
    ensures |r| >= 1
    decreases |s|
  {
    var i := IndexOf(s, c);
    if i == |s| then [s] else [s[..i]] + SplitAll(s[i + 1..], c)
  }

  /** No piece of a split holds the separator. */
  lemma {:induction false} SplitAllPieces(s: string, c: char)
    ensures forall k :: 0 <= k < |SplitAll(s, c)| ==> c !in SplitAll(s, c)[k]
    decreases |s|
  {
    var i := IndexOf(s, c);
    if i < |s| {
      SplitAllPieces(s[i + 1..], c);
    }
  }

  /** Splitting the pieces back together with the separator gives the string again. */
  function Join(pieces: seq<string>, c: char): string
  {
    if |pieces| == 0 then "" else if |pieces| == 1 then pieces[0] else pieces[0] + [c] + Join(pieces[1..], c)
  }

  lemma {:induction false} SplitAllJoin(s: string, c: char)
    ensures Join(SplitAll(s, c), c) == s
    decreases |s|
  {
    var i := IndexOf(s, c);
    if i < |s| {
      var rest := SplitAll(s[i + 1..], c);
      calc {
        Join(SplitAll(s, c), c);
        Join([s[..i]] + rest, c);
        { JoinCons(s[..i], rest, c); }
        s[..i] + [c] + Join(rest, c);
        { SplitAllJoin(s[i + 1..], c); }
        s[..i] + [c] + s[i + 1..];
        { Around(s, i); }
        s;
      }
    }
  }

  /** A string is what comes before position i, the char at i, and what follows. */
  lemma Around<T>(s: seq<T>, i: nat)
    requires i < |s|
    ensures s[..i] + [s[i]] + s[i + 1..] == s
  {
  }

  /** Joining a first piece in front of at least one more. */
  lemma JoinCons(a: string, rest: seq<string>, c: char)
    requires |rest| >= 1
    ensures Join([a] + rest, c) == a + [c] + Join(rest, c)
  {
    assert ([a] + rest)[1..] == rest;
  }

  /** The first separator after a prefix without one. */
  lemma IndexOfAfterPrefix(prefix: string, c: char, rest: string)
    requires c !in prefix
    ensures IndexOf(prefix + [c] + rest, c) == |prefix|
    decreases |prefix|
  {
    if |prefix| > 0 {
      assert (prefix + [c] + rest)[1..] == prefix[1..] + [c] + rest;
      IndexOfAfterPrefix(prefix[1..], c, rest);
    }
  }

  /** A piece without the separator comes out of String.Split whole, and the split goes on after it. */
  lemma SplitNCons(a: string, c: char, rest: string, count: nat)
    requires c !in a && count >= 2
    ensures SplitN(a + [c] + rest, c, count, false) == [a] + SplitN(rest, c, count - 1, false)
  {
    var s := a + [c] + rest;
    IndexOfAfterPrefix(a, c, rest);
    assert s[..|a|] == a && s[|a| + 1..] == rest;
  }

  /** With empty pieces removed: a piece without the separator, then the split of the rest. */
  lemma SplitNRemoveCons(a: string, c: char, rest: string, count: nat)
    requires c !in a && a != "" && count >= 3
    ensures SplitN(a + [c] + rest, c, count, true) == [a] + SplitN(rest, c, count - 1, true)
  {
    var s := a + [c] + rest;
    IndexOfAfterPrefix(a, c, rest);
    assert s[..|a|] == a && s[|a| + 1..] == rest;
  }

  /** With empty pieces removed, a leading separator is skipped. */
  lemma SplitNRemoveLead(c: char, rest: string, count: nat)
    requires count >= 2
    ensures SplitN([c] + rest, c, count, true) == SplitN(rest, c, count, true)
  {
    assert ([c] + rest)[1..] == rest;
  }

  /** A non-empty string without the separator is one piece. */
  lemma SplitNWhole(s: string, c: char, count: nat)
    requires c !in s && s != "" && count >= 1
    ensures SplitN(s, c, count, true) == [s]
  {
    assert IndexOf(s, c) == |s|;
  }

  lemma SplitAllCons(a: string, c: char, rest: string)
    requires c !in a
    ensures SplitAll(a + [c] + rest, c) == [a] + SplitAll(rest, c)
  {
    var s := a + [c] + rest;
    IndexOfAfterPrefix(a, c, rest);
    assert s[..|a|] == a && s[|a| + 1..] == rest;
  }

  /** The pieces that are not empty, in order. */
  function NonEmpty(pieces: seq<string>): (r: seq<string>)
    ensures |r| <= |pieces|
  {
    if |pieces| == 0 then [] else (if pieces[0] == "" then [] else [pieces[0]]) + NonEmpty(pieces[1..])
  }

  /** Concatenation regrouped to the right. */
  lemma Assoc<T>(a: seq<T>, b: seq<T>, c: seq<T>)
    ensures a + b + c == a + (b + c)
  {
  }

  /** The first `k` elements of `s`, taken apart at the head. */
  lemma PrefixTail<T>(s: seq<T>, k: nat)
    requires 0 < k <= |s|
    ensures s[..k][0] == s[0] && s[..k][1..] == s[1..][..k - 1] && s[1..][k - 1..] == s[k..]
  {
  }

  /** The first `k + 1` elements of `s` are its first `k` and then `s[k]`. */
  lemma PrefixLast<T>(s: seq<T>, k: nat)
    requires k < |s|
    ensures s[..k + 1][..k] == s[..k] && s[..k + 1][k..] == [s[k]] && [s[k]][1..] == []
  {
  }

  /** A non-empty sequence is its front and its last element. */
  lemma InitLast<T>(s: seq<T>)
    requires |s| > 0
    ensures s[..|s| - 1] + [s[|s| - 1]] == s
  {
  }

  /** A prefix grown by one element, after a fixed start. */
  lemma PrefixSnoc<T>(a: seq<T>, b: seq<T>, j: nat)
    requires j < |b|
    ensures a + b[..j + 1] == a + b[..j] + [b[j]]
  {
    assert b[..j + 1] == b[..j] + [b[j]];
  }

  /** An empty prefix, after a fixed start, and a whole one. */
  lemma PrefixEnds<T>(a: seq<T>, b: seq<T>)
    ensures a + b[..0] == a && a + b[..|b|] == a + b
  {
    assert b[..0] == [] && b[..|b|] == b;
  }

  /** Four pieces appended one by one, regrouped to the right. */
  lemma Assoc4<T>(s: seq<T>, a: seq<T>, b: seq<T>, c: seq<T>, d: seq<T>)
    ensures s + a + b + c + d == s + (a + (b + (c + d)))
  {
    Assoc(s + a + b, c, d);
    Assoc(s + a, b, c + d);
    Assoc(s, a, b + (c + d));
  }

  /** Four pieces appended one by one, regrouped as two pairs. */
  lemma AssocPairs<T>(s: seq<T>, a: seq<T>, b: seq<T>, c: seq<T>, d: seq<T>)
    ensures s + a + b + c + d == s + ((a + b) + (c + d))
  {
    Assoc(s + a + b, c, d);
    Assoc(s, a, b);
    Assoc(s, a + b, c + d);
  }

  /** Pieces that are not empty are all kept. */
  lemma {:induction false} NonEmptyKept(kept: seq<string>, rest: seq<string>)
    requires forall k :: 0 <= k < |kept| ==> kept[k] != ""
    ensures NonEmpty(kept + rest) == kept + NonEmpty(rest)
    decreases |kept|
  {
    if |kept| == 0 {
      assert kept + rest == rest;
    } else {
      assert (kept + rest)[0] == kept[0] && (kept + rest)[1..] == kept[1..] + rest;
      NonEmptyKept(kept[1..], rest);
    }
  }

  /** Pieces joined with a separator none of them holds are split apart again. */
  lemma {:induction false} JoinSplitN(pieces: seq<string>, c: char, count: nat)
    requires 1 <= |pieces| <= count
    requires forall k :: 0 <= k < |pieces| ==> c !in pieces[k]
    ensures SplitN(Join(pieces, c), c, count, false) == pieces
    decreases |pieces|
  {
    if |pieces| > 1 {
      TailPieces(pieces, c);
      JoinSplitN(pieces[1..], c, count - 1);
      JoinSplitNStep(pieces, c, count);
    } else {
      assert Join(pieces, c) == pieces[0];
      assert c !in pieces[0];
      assert SplitN(pieces[0], c, count, false) == [pieces[0]];
      assert pieces == [pieces[0]];
    }
  }

  lemma TailPieces(pieces: seq<string>, c: char)
    requires 1 <= |pieces|
    requires forall k :: 0 <= k < |pieces| ==> c !in pieces[k]
    ensures forall k :: 0 <= k < |pieces[1..]| ==> c !in pieces[1..][k]
  {
    forall k | 0 <= k < |pieces[1..]| ensures c !in pieces[1..][k] { assert pieces[1..][k] == pieces[k + 1]; }
  }

  lemma JoinSplitNStep(pieces: seq<string>, c: char, count: nat)
    requires 2 <= |pieces| <= count
    requires forall k :: 0 <= k < |pieces| ==> c !in pieces[k]
    requires SplitN(Join(pieces[1..], c), c, count - 1, false) == pieces[1..]
    ensures SplitN(Join(pieces, c), c, count, false) == pieces
  {
    SplitNCons(pieces[0], c, Join(pieces[1..], c), count);
    assert pieces == [pieces[0]] + pieces[1..];
  }

  /** With empty pieces removed, a line of at most `count` pieces gives its non-empty pieces. */
  lemma {:induction false} JoinSplitNRemoveEmpty(pieces: seq<string>, c: char, count: nat)
    requires 1 <= |pieces| <= count
    requires forall k :: 0 <= k < |pieces| ==> c !in pieces[k]
    ensures SplitN(Join(pieces, c), c, count, true) == NonEmpty(pieces)
    decreases |pieces|
  {
    if |pieces| == 1 {
      assert Join(pieces, c) == pieces[0];
      assert NonEmpty(pieces) == (if pieces[0] == "" then [] else [pieces[0]]) + NonEmpty([]);
    } else {
      TailPieces(pieces, c);
      var k := if pieces[0] == "" then count else count - 1;
      JoinSplitNRemoveEmpty(pieces[1..], c, k);
      RemoveEmptyStep(pieces, c, count);
    }
  }

  lemma RemoveEmptyStep(pieces: seq<string>, c: char, count: nat)
    requires 2 <= |pieces| <= count
    requires forall k :: 0 <= k < |pieces| ==> c !in pieces[k]
    requires SplitN(Join(pieces[1..], c), c, if pieces[0] == "" then count else count - 1, true) == NonEmpty(pieces[1..])
    ensures SplitN(Join(pieces, c), c, count, true) == NonEmpty(pieces)
  {
    var s := Join(pieces, c);
    var rest := Join(pieces[1..], c);
    assert s == pieces[0] + [c] + rest;
    IndexOfAfterPrefix(pieces[0], c, rest);
    assert s[..|pieces[0]|] == pieces[0] && s[|pieces[0]| + 1..] == rest;
    if count == 2 && pieces[0] != "" {
      LastPieceKept(pieces, c);
    }
  }

  /** Two pieces, the first non-empty: the second is not trimmed, having no separator. */
  lemma LastPieceKept(pieces: seq<string>, c: char)
    requires |pieces| == 2 && pieces[0] != ""
    requires forall k :: 0 <= k < |pieces| ==> c !in pieces[k]
    ensures var rest := Join(pieces[1..], c);
      (if TrimStart(rest, c) == [] then [] else [TrimStart(rest, c)]) == SplitN(rest, c, 1, true)
  {
    assert pieces[1..] == [pieces[1]];
    assert Join(pieces[1..], c) == pieces[1];
  }

  lemma {:induction false} JoinSplitAll(pieces: seq<string>, c: char)
    requires 1 <= |pieces|
    requires forall k :: 0 <= k < |pieces| ==> c !in pieces[k]
    ensures SplitAll(Join(pieces, c), c) == pieces
    decreases |pieces|
  {
    if |pieces| > 1 {
      SplitAllCons(pieces[0], c, Join(pieces[1..], c));
      JoinSplitAll(pieces[1..], c);
    }
  }

  /** A character that is neither the separator nor in any piece is not in the joined line. */
  lemma {:induction false} JoinHasNo(pieces: seq<string>, c: char, x: char)
    requires x != c
    requires forall k :: 0 <= k < |pieces| ==> x !in pieces[k]
    ensures x !in Join(pieces, c)
    decreases |pieces|
  {
    if |pieces| > 1 {
      TailPieces(pieces, x);
      JoinHasNo(pieces[1..], c, x);
      assert Join(pieces, c) == pieces[0] + [c] + Join(pieces[1..], c);
    }
  }

  /** A line made of a keyword and more pieces starts with the keyword and the separator. */
  lemma JoinStart(pieces: seq<string>, c: char)
    requires |pieces| >= 2
    ensures Join(pieces, c)[..|pieces[0]| + 1] == pieces[0] + [c]
  {
    assert Join(pieces, c) == pieces[0] + [c] + Join(pieces[1..], c);
  }

  // ---------------------------------------------------------------- System.IO.Path

  predicate IsDirectorySeparator(c: char) { c == '\\' || c == '/' }

  /** Index of the last directory separator, or -1. */
  function LastSeparator(path: string): (r: int)
    ensures -1 <= r < |path|
    ensures r >= 0 ==> IsDirectorySeparator(path[r])
    ensures forall k :: r < k < |path| ==> !IsDirectorySeparator(path[k])
  {
    if |path| == 0 then -1
    else if IsDirectorySeparator(path[|path| - 1]) then |path| - 1
    else LastSeparator(path[..|path| - 1])
  }

  /** Path.GetFileName: the part after the last directory separator. */
  function GetFileName(path: string): (r: string)
    ensures |r| <= |path| && r == path[|path| - |r|..]
    ensures forall k :: 0 <= k < |r| ==> !IsDirectorySeparator(r[k])
  {
    path[LastSeparator(path) + 1..]
  }

  /** The path without its extension: up to the last '.' that follows the last separator. */
  function Stem(path: string): (r: string)
    ensures r <= path
  {
    var dot := LastIndexOf(path, '.');
    if dot > LastSeparator(path) then path[..dot] else path
  }

  /**
   * Path.ChangeExtension(path, ext) for an extension given without its dot:
   * an empty path stays empty, any other path ends in "." + ext after its stem.
   */
  function ChangeExtension(path: string, ext: string): (r: string)
    ensures |path| == 0 ==> r == ""
    ensures |path| > 0 ==> |r| == |Stem(path)| + 1 + |ext|
    ensures |path| > 0 ==> r[..|Stem(path)|] == Stem(path) && r[|Stem(path)|..] == "." + ext
  {
    if |path| == 0 then ""
    else
      var stem, tail := Stem(path), "." + ext;
      assert (stem + tail)[..|stem|] == stem;
      assert (stem + tail)[|stem|..] == tail;
      stem + tail
  }

  /** Path.GetFileNameWithoutExtension. */
  function GetFileNameWithoutExtension(path: string): (r: string)
    ensures '.' !in r ==> r == GetFileName(path) || '.' in GetFileName(path)
  {
    Stem(GetFileName(path))
  }

  // ---------------------------------------------------------------- StreamWriter

  /** A text file written line by line (StreamWriter.WriteLine). */
  class TextWriter {
    var lines: seq<string>

    constructor ()
      ensures lines == []
    {
      lines := [];
    }

    method WriteLine(line: string)
      modifies this
      ensures lines == old(lines) + [line]
    {
      lines := lines + [line];
    }
  }
}
