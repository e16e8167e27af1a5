/**
 * The Python `str` operations the quiz relies on: `replace`, `strip`,
 * `lower` and the `in` substring test, with `split`/`join` as an independent
 * reference for `replace`.
 */
module PyStrings {
  import opened Wrappers

  /** `t` occurs in `s` starting at position `i`. */
  predicate OccursAt(s: string, t: string, i: nat) {
    i + |t| <= |s| && s[i..i + |t|] == t
  }

  /** Python's `t in s`. */
  predicate Contains(s: string, t: string) {
    exists i :: 0 <= i <= |s| && OccursAt(s, t, i)
  }

  /** Python's `s.startswith(t)`. */
  predicate StartsWith(s: string, t: string) {
    OccursAt(s, t, 0)
  }

  lemma OccursAtTail(s: string, t: string, i: nat)
    requires |s| > 0
    ensures OccursAt(s[1..], t, i) <==> OccursAt(s, t, i + 1)
  {
    if i + 1 + |t| <= |s| {
      assert s[1..][i..i + |t|] == s[i + 1..i + 1 + |t|];
    }
  }

  /** Away from position 0, occurrences in `s` are the occurrences in its tail, shifted by one. */
  lemma OccursAtShift(s: string, t: string)
    requires |s| > 0
    ensures forall j: nat :: 1 <= j ==> (OccursAt(s, t, j) <==> OccursAt(s[1..], t, j - 1))
  {
    forall j: nat | 1 <= j
      ensures OccursAt(s, t, j) <==> OccursAt(s[1..], t, j - 1)
    {
      OccursAtTail(s, t, j - 1);
    }
  }

  /** When `t` does not start `s`, `s` contains `t` exactly when its tail does. */
  lemma ContainsTail(s: string, t: string)
    requires |s| > 0 && !OccursAt(s, t, 0)
    ensures Contains(s, t) <==> Contains(s[1..], t)
  {
    OccursAtShift(s, t);
    if Contains(s, t) {
      var i :| 0 <= i <= |s| && OccursAt(s, t, i);
      assert OccursAt(s[1..], t, i - 1);
    }
    if Contains(s[1..], t) {
      var i :| 0 <= i <= |s[1..]| && OccursAt(s[1..], t, i);
      assert OccursAt(s, t, i + 1);
    }
  }

  /** Python's `s.find(t)` for a non-empty `t`, with None for -1 (see `FindFirstSpec`). */
  function FindFirst(s: string, t: string): (r: Option<nat>)
    requires |t| > 0
    ensures r.Some? ==> r.value + |t| <= |s|
    decreases |s|
  {
    if |s| < |t| then None
    else if s[..|t|] == t then Some(0)
    else
      match FindFirst(s[1..], t)
      case None => None
      case Some(i) => Some(i + 1)
  }

  /** `FindFirst` finds the leftmost occurrence, and finds nothing exactly when there is none. */
  lemma {:induction false} FindFirstSpec(s: string, t: string)
    requires |t| > 0
    ensures var r := FindFirst(s, t);
      && (r.Some? ==> OccursAt(s, t, r.value) && forall j :: 0 <= j < r.value ==> !OccursAt(s, t, j))
      && (r.None? <==> !Contains(s, t))
    decreases |s|
  {
    if |s| < |t| {
    } else if s[..|t|] == t {
      assert OccursAt(s, t, 0);
    } else {
      FindFirstSpec(s[1..], t);
      ContainsTail(s, t);
      match FindFirst(s[1..], t)
      case None =>
      case Some(i) =>
        OccursAtTail(s, t, i);
        forall j | 0 <= j < i + 1
          ensures !OccursAt(s, t, j)
        {
          if j > 0 {
            OccursAtTail(s, t, j - 1);
          }
        }
    }
  }

  /**
   * Python's `s.replace(old, new)` for a non-empty `old`: scanning left to
   * right, every non-overlapping occurrence of `old` becomes `new`.
   */
  function ReplaceAll(s: string, pat: string, rep: string): string
    requires |pat| > 0
    decreases |s|
  {
    if |s| < |pat| then s
    else if s[..|pat|] == pat then rep + ReplaceAll(s[|pat|..], pat, rep)
    else [s[0]] + ReplaceAll(s[1..], pat, rep)
  }

  /** Python's `s.split(sep)` for a non-empty `sep`: the pieces between leftmost non-overlapping occurrences. */
  function Split(s: string, sep: string): (pieces: seq<string>)
    requires |sep| > 0
    ensures |pieces| > 0
    decreases |s|
  {
    match FindFirst(s, sep)
    case None => [s]
    case Some(i) => [s[..i]] + Split(s[i + |sep|..], sep)
  }

  /** Python's `sep.join(pieces)`. */
  function Join(pieces: seq<string>, sep: string): string {
    if |pieces| == 0 then ""
    else if |pieces| == 1 then pieces[0]
    else pieces[0] + sep + Join(pieces[1..], sep)
  }

  /** When the leftmost separator is at `i`, `s` is the text before it, the separator and the text after it. */
  lemma {:induction false} SplitFound(s: string, sep: string, i: nat)
    requires |sep| > 0 && FindFirst(s, sep) == Some(i)
    ensures i + |sep| <= |s|
    ensures Split(s, sep) == [s[..i]] + Split(s[i + |sep|..], sep)
    ensures s == s[..i] + sep + s[i + |sep|..]
  {
    FindFirstSpec(s, sep);
    AroundOccurrence(s, sep, i);
  }

  /** An occurrence of `t` at `i` splits `s` into the text before it, `t` and the text after it. */
  lemma {:induction false} AroundOccurrence(s: string, t: string, i: nat)
    requires OccursAt(s, t, i)
    ensures s == s[..i] + t + s[i + |t|..]
  {
    assert s == s[..i] + s[i..i + |t|] + s[i + |t|..];
  }

  /** Splitting and joining with the same separator gives back the string. */
  lemma {:induction false} SplitJoinRoundTrip(s: string, sep: string)
    requires |sep| > 0
    ensures Join(Split(s, sep), sep) == s
    decreases |s|
  {
    match FindFirst(s, sep)
    case None =>
    case Some(i) =>
      var rest := s[i + |sep|..];
      SplitFound(s, sep, i);
      SplitJoinRoundTrip(rest, sep);
      JoinCons(s[..i], Split(rest, sep), sep);
  }

  /** No piece produced by `Split` still contains the separator. */
  lemma {:induction false} SplitPiecesFree(s: string, sep: string)
    requires |sep| > 0
    ensures forall k :: 0 <= k < |Split(s, sep)| ==> !Contains(Split(s, sep)[k], sep)
    decreases |s|
  {
    match FindFirst(s, sep)
    case None =>
      FindFirstSpec(s, sep);
    case Some(i) =>
      var rest := s[i + |sep|..];
      SplitFound(s, sep, i);
      SplitPiecesFree(rest, sep);
      BeforeFirstFree(s, sep, i);
      forall k | 0 <= k < |Split(s, sep)|
        ensures !Contains(Split(s, sep)[k], sep)
      {
        if k > 0 {
          assert Split(s, sep)[k] == Split(rest, sep)[k - 1];
        }
      }
  }

  /** The text before the leftmost occurrence holds no occurrence. */
  lemma {:induction false} BeforeFirstFree(s: string, sep: string, i: nat)
    requires |sep| > 0 && FindFirst(s, sep) == Some(i)
    ensures !Contains(s[..i], sep)
  {
    FindFirstSpec(s, sep);
    forall j | 0 <= j <= i
      ensures !OccursAt(s[..i], sep, j)
    {
      if j + |sep| <= i {
        assert !OccursAt(s, sep, j);
        assert s[..i][j..j + |sep|] == s[j..j + |sep|];
      }
    }
  }

  lemma JoinCons(p: string, pieces: seq<string>, sep: string)
    requires |pieces| > 0
    ensures Join([p] + pieces, sep) == p + sep + Join(pieces, sep)
  {
    assert ([p] + pieces)[1..] == pieces;
  }

  lemma JoinExtendHead(c: char, pieces: seq<string>, sep: string)
    requires |pieces| > 0
    ensures Join([[c] + pieces[0]] + pieces[1..], sep) == [c] + Join(pieces, sep)
  {
    if |pieces| > 1 {
      assert ([[c] + pieces[0]] + pieces[1..])[1..] == pieces[1..];
    }
  }

  /** When `sep` starts neither `s` nor its tail's split, `Split` extends the first piece of the tail's split. */
  lemma {:induction false} SplitSkip(s: string, sep: string)
    requires |sep| > 0 && |s| > 0 && !OccursAt(s, sep, 0)
    ensures Split(s, sep) == [[s[0]] + Split(s[1..], sep)[0]] + Split(s[1..], sep)[1..]
  {
    if |s| < |sep| {
      assert FindFirst(s[1..], sep) == None;
      assert [s[0]] + s[1..] == s;
    } else {
      assert s[..|sep|] != sep;
      match FindFirst(s[1..], sep)
      case None =>
        assert FindFirst(s, sep) == None;
        assert [s[0]] + s[1..] == s;
      case Some(i) =>
        SplitSkipFound(s, sep, i);
    }
  }

  lemma {:induction false} SplitSkipFound(s: string, sep: string, i: nat)
    requires |sep| > 0 && |sep| <= |s| && s[..|sep|] != sep && FindFirst(s[1..], sep) == Some(i)
    ensures Split(s, sep) == [[s[0]] + Split(s[1..], sep)[0]] + Split(s[1..], sep)[1..]
  {
    FindFirstSkip(s, sep, i);
    SplitFound(s, sep, i + 1);
    SplitFound(s[1..], sep, i);
    TailSlices(s, i, |sep|);
    ConsOntoHead(s[0], s[1..][..i], Split(s[i + 1 + |sep|..], sep), Split(s, sep), Split(s[1..], sep));
  }

  lemma {:induction false} TailSlices(s: string, i: nat, n: nat)
    requires i + 1 + n <= |s|
    ensures s[1..][i + n..] == s[i + 1 + n..]
    ensures s[..i + 1] == [s[0]] + s[1..][..i]
  {
  }

  lemma {:induction false} ConsOntoHead(c: char, a: string, tail: seq<string>, whole: seq<string>, x: seq<string>)
    requires x == [a] + tail && whole == [[c] + a] + tail
    ensures whole == [[c] + x[0]] + x[1..]
  {
    assert x[0] == a && x[1..] == tail;
  }

  /** When `sep` does not start `s`, the leftmost occurrence in `s` is the tail's, one further on. */
  lemma {:induction false} FindFirstSkip(s: string, sep: string, i: nat)
    requires |sep| > 0 && |sep| <= |s| && s[..|sep|] != sep && FindFirst(s[1..], sep) == Some(i)
    ensures FindFirst(s, sep) == Some(i + 1)
  {
  }

  /**
   * `ReplaceAll` agrees with Python's documented reading of `replace`:
   * `s.replace(old, new) == new.join(s.split(old))`.
   */
  lemma {:induction false} ReplaceAllIsJoinSplit(s: string, pat: string, rep: string)
    requires |pat| > 0
    ensures ReplaceAll(s, pat, rep) == Join(Split(s, pat), rep)
    decreases |s|
  {
    if |s| < |pat| {
      assert FindFirst(s, pat) == None;
    } else if s[..|pat|] == pat {
      ReplaceAllIsJoinSplit(s[|pat|..], pat, rep);
      JoinSplitAtStart(s, pat, rep);
    } else {
      ReplaceAllIsJoinSplit(s[1..], pat, rep);
      JoinSplitSkip(s, pat, rep);
    }
  }

  /** A separator at the very start makes an empty first piece, so the join starts with the joiner. */
  lemma {:induction false} JoinSplitAtStart(s: string, sep: string, rep: string)
    requires 0 < |sep| <= |s| && s[..|sep|] == sep
    ensures Join(Split(s, sep), rep) == rep + Join(Split(s[|sep|..], sep), rep)
  {
    assert FindFirst(s, sep) == Some(0);
    SplitFound(s, sep, 0);
    assert s[..0] == [];
    JoinCons([], Split(s[|sep|..], sep), rep);
    assert [] + rep == rep;
  }

  /** Without a separator at the start, the join starts with the first character. */
  lemma {:induction false} JoinSplitSkip(s: string, sep: string, rep: string)
    requires |sep| > 0 && |s| > 0 && !OccursAt(s, sep, 0)
    ensures Join(Split(s, sep), rep) == [s[0]] + Join(Split(s[1..], sep), rep)
  {
    SplitSkip(s, sep);
    JoinExtendHead(s[0], Split(s[1..], sep), rep);
  }

  /** Text without an occurrence of `old` is left verbatim by `replace`. */
  lemma ReplaceAllAbsent(s: string, pat: string, rep: string)
    requires |pat| > 0 && !Contains(s, pat)
    ensures ReplaceAll(s, pat, rep) == s
  {
    ReplaceAllIsJoinSplit(s, pat, rep);
    FindFirstSpec(s, pat);
    assert Split(s, pat) == [s];
  }

  /** Python's `str.isspace()` for one character: the characters `strip()` removes. */
  predicate IsSpace(c: char) {
    ('\t' <= c <= '\r') || ('\U{1C}' <= c <= ' ') || c == '\U{85}' || c == '\U{A0}'
    || c == '\U{1680}' || ('\U{2000}' <= c <= '\U{200A}') || c == '\U{2028}' || c == '\U{2029}'
    || c == '\U{202F}' || c == '\U{205F}' || c == '\U{3000}'
  }

  /** Python's `s.lstrip()` (see `TrimStartSpaces`). */
  function TrimStart(s: string): (r: string)
    ensures |r| <= |s|
  {
    if |s| > 0 && IsSpace(s[0]) then TrimStart(s[1..]) else s
  }

  /** `lstrip` leaves a suffix of `s` and removes exactly the leading whitespace: all of what it drops, and not the character it stops at. */
  lemma {:induction false} TrimStartSpaces(s: string)
    ensures TrimStart(s) == s[|s| - |TrimStart(s)|..]
    ensures forall i :: 0 <= i < |s| - |TrimStart(s)| ==> IsSpace(s[i])
    ensures |TrimStart(s)| > 0 ==> !IsSpace(TrimStart(s)[0])
    decreases |s|
  {
    if |s| > 0 && IsSpace(s[0]) {
      TrimStartSpaces(s[1..]);
      SpacesBeforeTail(s, s[1..], |s[1..]| - |TrimStart(s[1..])|);
      TailSuffix(s, |s[1..]| - |TrimStart(s[1..])|);
    }
  }

  lemma {:induction false} TailSuffix(s: string, k: nat)
    requires |s| > 0 && k <= |s| - 1
    ensures s[1..][k..] == s[k + 1..]
  {
  }

  lemma {:induction false} InitPrefix(s: string, n: nat)
    requires |s| > 0 && n <= |s| - 1
    ensures s[..|s| - 1][..n] == s[..n]
  {
  }

  /** Leading whitespace of the tail, after a whitespace first character, is leading whitespace of the whole. */
  lemma {:induction false} SpacesBeforeTail(s: string, tail: string, n: nat)
    requires |s| > 0 && IsSpace(s[0]) && tail == s[1..] && n <= |tail|
    requires forall i :: 0 <= i < n ==> IsSpace(tail[i])
    ensures forall i :: 0 <= i < n + 1 ==> IsSpace(s[i])
  {
    forall i | 1 <= i < n + 1
      ensures IsSpace(s[i])
    {
      assert s[i] == tail[i - 1];
    }
  }

  /** Python's `s.rstrip()` (see `TrimEndSpaces`). */
  function TrimEnd(s: string): (r: string)
    ensures |r| <= |s|
  {
    if |s| > 0 && IsSpace(s[|s| - 1]) then TrimEnd(s[..|s| - 1]) else s
  }

  /** `rstrip` leaves a prefix of `s` and removes exactly the trailing whitespace. */
  lemma {:induction false} TrimEndSpaces(s: string)
    ensures TrimEnd(s) == s[..|TrimEnd(s)|]
    ensures forall i :: |TrimEnd(s)| <= i < |s| ==> IsSpace(s[i])
    ensures |TrimEnd(s)| > 0 ==> !IsSpace(TrimEnd(s)[|TrimEnd(s)| - 1])
    decreases |s|
  {
    if |s| > 0 && IsSpace(s[|s| - 1]) {
      TrimEndSpaces(s[..|s| - 1]);
      SpacesAfterInit(s, s[..|s| - 1], |TrimEnd(s[..|s| - 1])|);
      InitPrefix(s, |TrimEnd(s[..|s| - 1])|);
    }
  }

  /** Trailing whitespace of the string without its last character, itself whitespace, is trailing whitespace of the whole. */
  lemma {:induction false} SpacesAfterInit(s: string, init: string, n: nat)
    requires |s| > 0 && IsSpace(s[|s| - 1]) && init == s[..|s| - 1] && n <= |init|
    requires forall i :: n <= i < |init| ==> IsSpace(init[i])
    ensures forall i :: n <= i < |s| ==> IsSpace(s[i])
  {
    forall i | n <= i < |init|
      ensures IsSpace(s[i])
    {
      assert s[i] == init[i];
    }
  }

  /** Python's `s.strip()`: `s` without its leading and trailing whitespace (see `StripSpec`). */
  function Strip(s: string): string {
    TrimEnd(TrimStart(s))
  }

  /**
   * `Strip(s)` is the slice of `s` that remains once its leading and its
   * trailing whitespace are removed: everything before and after the slice
   * is whitespace, and the slice neither starts nor ends with whitespace.
   */
  lemma {:induction false} StripSpec(s: string)
    ensures var r := Strip(s); var lo := |s| - |TrimStart(s)|;
      && lo + |r| <= |s| && r == s[lo..lo + |r|]
      && (forall i :: 0 <= i < lo ==> IsSpace(s[i]))
      && (forall i :: lo + |r| <= i < |s| ==> IsSpace(s[i]))
      && (|r| > 0 ==> !IsSpace(r[0]) && !IsSpace(r[|r| - 1]))
  {
    var t := TrimStart(s);
    TrimStartSpaces(s);
    TrimEndSpaces(t);
    StripParts(s, t, TrimEnd(t));
  }

  /** The whitespace facts of `lstrip` on `s` and of `rstrip` on its result, combined. */
  lemma {:induction false} StripParts(s: string, t: string, r: string)
    requires |t| <= |s| && t == s[|s| - |t|..] && |r| <= |t| && r == t[..|r|]
    requires forall i :: 0 <= i < |s| - |t| ==> IsSpace(s[i])
    requires |t| > 0 ==> !IsSpace(t[0])
    requires forall i :: |r| <= i < |t| ==> IsSpace(t[i])
    requires |r| > 0 ==> !IsSpace(r[|r| - 1])
    ensures var lo := |s| - |t|;
      && lo + |r| <= |s| && r == s[lo..lo + |r|]
      && (forall i :: 0 <= i < lo ==> IsSpace(s[i]))
      && (forall i :: lo + |r| <= i < |s| ==> IsSpace(s[i]))
      && (|r| > 0 ==> !IsSpace(r[0]) && !IsSpace(r[|r| - 1]))
  {
    var lo := |s| - |t|;
    SuffixPrefix(s, lo, |r|);
    TrailingSpaces(s, t, lo, |r|);
    if |r| > 0 {
      assert r[0] == t[0];
    }
  }

  lemma {:induction false} SuffixPrefix(s: string, lo: nat, n: nat)
    requires lo + n <= |s|
    ensures s[lo..][..n] == s[lo..lo + n]
  {
  }

  lemma {:induction false} TrailingSpaces(s: string, t: string, lo: nat, n: nat)
    requires lo <= |s| && t == s[lo..] && n <= |t|
    requires forall i :: n <= i < |t| ==> IsSpace(t[i])
    ensures forall i :: lo + n <= i < |s| ==> IsSpace(s[i])
  {
    forall i | lo + n <= i < |s|
      ensures IsSpace(s[i])
    {
      assert s[i] == t[i - lo];
    }
  }

  /** Python's `c.lower()` on Latin and Cyrillic capitals; every other character is kept. */
  function LowerChar(c: char): char {
    if 'A' <= c <= 'Z' then (c as int + 32) as char
    else if 'А' <= c <= 'Я' then (c as int + 32) as char
    else if 'Ѐ' <= c <= 'Џ' then (c as int + 80) as char
    else c
  }

  /** Python's `s.lower()`, character by character. */
  function Lower(s: string): (r: string)
    ensures |r| == |s|
    ensures forall i :: 0 <= i < |s| ==> r[i] == LowerChar(s[i])
  {
    seq(|s|, i requires 0 <= i < |s| => LowerChar(s[i]))
  }

  /** The Latin case pairs `Lower` implements, written out letter for letter. */
  lemma {:induction false} LatinCasePairs()
    ensures Lower("ABCDEFGHIJKLM") == "abcdefghijklm"
    ensures Lower("NOPQRSTUVWXYZ") == "nopqrstuvwxyz"
  {
  }

  /**
   * The case pairs of the Cyrillic capitals U+0400–U+040F (Ѐ, Ё, Ђ, …),
   * written out letter for letter.
   */
  lemma {:induction false} CyrillicExtensionCasePairs()
    ensures Lower("ЀЁЂЃЄЅІЇЈЉЊЋЌЍЎЏ") == "ѐёђѓєѕіїјљњћќѝўџ"
  {
  }

  /** The case pairs of the Russian alphabet's capitals А–Я, written out letter for letter. */
  lemma {:induction false} CyrillicCasePairs()
    ensures Lower("АБВГДЕЖЗИЙКЛМНОП") == "абвгдежзийклмноп"
    ensures Lower("РСТУФХЦЧШЩЪЫЬЭЮЯ") == "рстуфхцчшщъыьэюя"
  {
  }

  /**
   * `Lower` without its arithmetic: the length is kept, characters outside
   * the capital ranges are kept, no capital is left in the result, and
   * lower-casing twice changes nothing more.
   */
  lemma {:induction false} LowerSpec(s: string)
    ensures |Lower(s)| == |s|
    ensures forall i :: 0 <= i < |s| && !('A' <= s[i] <= 'Z') && !('Ѐ' <= s[i] <= 'Я') ==> Lower(s)[i] == s[i]
    ensures forall i :: 0 <= i < |s| ==> !('A' <= Lower(s)[i] <= 'Z') && !('Ѐ' <= Lower(s)[i] <= 'Я')
    ensures Lower(Lower(s)) == Lower(s)
  {
  }
}
