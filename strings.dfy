/** The string operations the components call on JavaScript strings:
    `toLowerCase`, `includes`, `split` on one character and `replace` with a
    string pattern. */
module Strings {
  import opened Common

  /** `toLowerCase` on one character, for the ASCII letters; every other
      character is kept. */
  function LowerChar(c: char): char {
    if 'A' <= c <= 'Z' then (c as int - 'A' as int + 'a' as int) as char else c
  }

  function ToLower(s: string): (r: string)
    ensures |r| == |s|
  {
    seq(|s|, i requires 0 <= i < |s| => LowerChar(s[i]))
  }

  /** A lower-cased string has no upper-case letter left, keeps every other
      character where it was, and lowering it again changes nothing. */
  lemma ToLowerLowers(s: string)
    ensures forall i | 0 <= i < |s| :: !('A' <= ToLower(s)[i] <= 'Z')
    ensures forall i | 0 <= i < |s| :: !('A' <= s[i] <= 'Z') ==> ToLower(s)[i] == s[i]
    ensures ToLower(ToLower(s)) == ToLower(s)
  {
    var r := ToLower(s);
    forall i | 0 <= i < |s|
      ensures !('A' <= r[i] <= 'Z') && LowerChar(r[i]) == r[i]
    {
      assert r[i] == LowerChar(s[i]);
    }
  }

  /** sub occurs in s starting at position i. */
  predicate OccursAt(s: string, sub: string, i: nat) {
    i + |sub| <= |s| && s[i..i + |sub|] == sub
  }

  /** `s.includes(sub)`: sub occurs in s at some position. */
  predicate Contains(s: string, sub: string) {
    exists i | 0 <= i <= |s| :: OccursAt(s, sub, i)
  }

  /** Every string includes the empty string and itself. */
  lemma ContainsEmptyAndSelf(s: string)
    ensures Contains(s, "") && Contains(s, s)
  {
    assert OccursAt(s, "", 0);
    assert OccursAt(s, s, 0);
  }

  /** The first position at or after `from` where sub occurs in s. */
  function FindFrom(s: string, sub: string, from: nat): (r: Option<nat>)
    ensures r.Some? ==>
      from <= r.value && OccursAt(s, sub, r.value) &&
      (forall j | from <= j < r.value :: !OccursAt(s, sub, j))
    ensures r.None? ==> forall j: nat | from <= j :: !OccursAt(s, sub, j)
    decreases |s| - from
  {
    if from + |sub| > |s| then None
    else if OccursAt(s, sub, from) then Some(from)
    else FindFrom(s, sub, from + 1)
  }

  /** sub occurs nowhere in s before position i. */
  predicate IsFirst(s: string, sub: string, i: nat) {
    forall j: nat | j < i :: !OccursAt(s, sub, j)
  }

  /** The position of the first occurrence of sub in s, or None (the -1 of
      JavaScript's `indexOf`), as `replace` looks it up. */
  function IndexOf(s: string, sub: string): (r: Option<nat>)
    ensures r.Some? <==> Contains(s, sub)
    ensures r.Some? ==> OccursAt(s, sub, r.value) && IsFirst(s, sub, r.value)
  {
    var r := FindFrom(s, sub, 0);
    assert r.Some? ==> r.value <= |s|;
    r
  }

  /** `s.replace(pattern, value)` with a string pattern: only the first
      occurrence is replaced, and s is returned as it is when the pattern
      does not occur. */
  function ReplaceFirst(s: string, pattern: string, value: string): (r: string)
    ensures !Contains(s, pattern) ==> r == s
    ensures Contains(s, pattern) ==> |r| == |s| - |pattern| + |value|
  {
    match IndexOf(s, pattern)
    case None => s
    case Some(i) => s[..i] + value + s[i + |pattern|..]
  }

  /** Without an occurrence of the pattern nothing is replaced; otherwise
      the text before the first occurrence is kept, the value stands where
      the pattern stood, and the rest follows unchanged. */
  lemma ReplaceFirstReplaces(s: string, pattern: string, value: string)
    ensures !Contains(s, pattern) ==> ReplaceFirst(s, pattern, value) == s
    ensures forall i: nat | OccursAt(s, pattern, i) && IsFirst(s, pattern, i) ::
      ReplaceFirst(s, pattern, value) == s[..i] + value + s[i + |pattern|..]
  {
    forall i: nat | OccursAt(s, pattern, i) && IsFirst(s, pattern, i)
      ensures IndexOf(s, pattern) == Some(i)
    {
      assert Contains(s, pattern);
      var k := IndexOf(s, pattern).value;
      assert !(k < i) && !(i < k);
    }
  }

  /** `s.split(sep)` on one character: the pieces between the separators,
      empty pieces included, and at least one piece. */
  function Split(s: string, sep: char): (r: seq<string>)
    ensures |r| >= 1
  {
    if s == [] then [""]
    else
      var rest := Split(s[1..], sep);
      if s[0] == sep then [""] + rest else [[s[0]] + rest[0]] + rest[1..]
  }

  /** `parts.join(sep)`. */
  function Join(parts: seq<string>, sep: char): string
    requires |parts| >= 1
  {
    if |parts| == 1 then parts[0] else parts[0] + [sep] + Join(parts[1..], sep)
  }

  /** No piece holds the separator. */
  lemma {:induction false} SplitPiecesHaveNoSeparator(s: string, sep: char)
    ensures forall i | 0 <= i < |Split(s, sep)| :: sep !in Split(s, sep)[i]
  {
    if s != [] {
      SplitPiecesHaveNoSeparator(s[1..], sep);
      var rest := Split(s[1..], sep);
      if s[0] != sep {
        assert sep !in [s[0]] + rest[0];
      }
    }
  }

  /** Joining the pieces with the separator gives back the string. */
  lemma {:induction false} JoinSplit(s: string, sep: char)
    ensures Join(Split(s, sep), sep) == s
  {
    if s != [] {
      JoinSplit(s[1..], sep);
      var rest := Split(s[1..], sep);
      if s[0] == sep {
        assert ([""] + rest)[1..] == rest;
        assert s == [sep] + s[1..];
      } else {
        var r := [[s[0]] + rest[0]] + rest[1..];
        if |rest| == 1 {
          assert s == [s[0]] + s[1..];
        } else {
          assert r[1..] == rest[1..];
          assert Join(rest, sep) == rest[0] + [sep] + Join(rest[1..], sep);
          assert s == [s[0]] + s[1..];
        }
      }
    }
  }

  /** Splitting a join of pieces without the separator gives back the
      pieces. */
  lemma {:induction false} SplitJoin(parts: seq<string>, sep: char)
    requires |parts| >= 1
    requires forall i | 0 <= i < |parts| :: sep !in parts[i]
    ensures Split(Join(parts, sep), sep) == parts
  {
    if |parts| == 1 {
      SplitPiece(parts[0], [], sep);
    } else {
      SplitJoin(parts[1..], sep);
      SplitPiece(parts[0], Join(parts[1..], sep), sep);
      assert [parts[0]] + parts[1..] == parts;
    }
  }

  /** A piece without the separator, followed by a separator and a tail (or
      by nothing), splits into that piece and the tail's pieces. */
  lemma {:induction false} SplitPiece(piece: string, tail: string, sep: char)
    requires sep !in piece
    ensures tail == [] ==> Split(piece, sep) == [piece]
    ensures Split(piece + [sep] + tail, sep) == [piece] + Split(tail, sep)
  {
    if piece != [] {
      SplitPiece(piece[1..], tail, sep);
      assert (piece + [sep] + tail)[1..] == piece[1..] + [sep] + tail;
      assert [piece[0]] + piece[1..] == piece;
    } else {
      assert piece + [sep] + tail == [sep] + tail;
    }
  }
}
