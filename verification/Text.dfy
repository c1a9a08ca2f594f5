/**
 * The JavaScript string operations the generator relies on, over `seq<char>`:
 * `split` and `join` with a one-character separator, `indexOf`/`includes`,
 * `replace` with a string pattern, `slice(0, -n)`, `repeat` and ASCII
 * `toUpperCase`.
 */
module Text {
  import opened Wrappers

  /** Index of the first occurrence of `c` in `s`. */
  function IndexOfChar(s: string, c: char): (r: Option<nat>)
    ensures r.None? <==> c !in s
    ensures r.Some? ==> r.value < |s| && s[r.value] == c && c !in s[..r.value]
  {
    if |s| == 0 then None
    else if s[0] == c then Some(0)
    else
      match IndexOfChar(s[1..], c)
      case None => None
      case Some(i) =>
        assert s[..i + 1] == [s[0]] + s[1..][..i];
        Some(i + 1)
  }

  /** `s.split(c)`: the pieces of `s` between occurrences of `c`. */
  function Split(s: string, c: char): (parts: seq<string>)
    ensures |parts| >= 1
    ensures |parts| == 1 <==> IndexOfChar(s, c).None?
    decreases |s|
  {
    match IndexOfChar(s, c)
    case None => [s]
    case Some(i) => [s[..i]] + Split(s[i + 1..], c)
  }

  /** No piece of a split contains the separator. */
  lemma {:induction false} SplitPieces(s: string, c: char)
    ensures forall k :: 0 <= k < |Split(s, c)| ==> c !in Split(s, c)[k]
    decreases |s|
  {
    var r := IndexOfChar(s, c);
    if r.Some? {
      var rest := s[r.value + 1..];
      SplitPieces(rest, c);
      assert Split(s, c) == [s[..r.value]] + Split(rest, c);
    }
  }

  /** `parts.join(sep)`. */
  function Join(parts: seq<string>, sep: string): string
  {
    if |parts| == 0 then ""
    else if |parts| == 1 then parts[0]
    else parts[0] + sep + Join(parts[1..], sep)
  }

  /** Joining the pieces of a split with the same separator gives back the string. */
  lemma {:induction false} JoinSplit(s: string, c: char)
    ensures Join(Split(s, c), [c]) == s
    decreases |s|
  {
    match IndexOfChar(s, c)
    case None =>
    case Some(i) =>
      var rest := s[i + 1..];
      JoinSplit(rest, c);
      SplitAt(s, c, i);
      JoinSplitStep(s, c, i, s[..i], rest, Split(rest, c), Split(s, c));
  }

  /** Splitting at the first separator, at index `i`. */
  lemma SplitAt(s: string, c: char, i: nat)
    requires IndexOfChar(s, c) == Some(i)
    ensures Split(s, c) == [s[..i]] + Split(s[i + 1..], c)
  {
  }

  /** One step of JoinSplit: the first piece and the separator in front of the rest. */
  lemma JoinSplitStep(s: string, c: char, i: nat, head: string, rest: string, tail: seq<string>, pieces: seq<string>)
    requires i < |s| && s[i] == c && head == s[..i] && rest == s[i + 1..]
    requires pieces == [head] + tail
    requires |tail| >= 1 && Join(tail, [c]) == rest
    ensures Join(pieces, [c]) == s
  {
    JoinCons(head, tail, [c]);
    Around(s, i);
  }

  /** A string is the text before index `i`, the character at `i` and the text after it. */
  lemma Around(s: string, i: nat)
    requires i < |s|
    ensures s == s[..i] + [s[i]] + s[i + 1..]
  {
    assert s[i..] == [s[i]] + s[i + 1..];
  }

  /** Putting a piece in front of a non-empty join adds one separator. */
  lemma JoinCons(first: string, parts: seq<string>, sep: string)
    requires |parts| >= 1
    ensures Join([first] + parts, sep) == first + sep + Join(parts, sep)
  {
    assert ([first] + parts)[1..] == parts;
  }

  /** Appending one more piece to a non-empty join adds one separator. */
  lemma {:induction false} JoinSnoc(parts: seq<string>, last: string, sep: string)
    requires |parts| >= 1
    ensures Join(parts + [last], sep) == Join(parts, sep) + sep + last
    decreases |parts|
  {
    if |parts| == 1 {
      assert (parts + [last])[1..] == [last];
    } else {
      assert (parts + [last])[1..] == parts[1..] + [last];
      JoinSnoc(parts[1..], last, sep);
    }
  }

  /** The text before the first `c`, or all of `s` when it has none: `s.split(c)[0]`. */
  lemma FirstPiece(s: string, c: char)
    ensures c !in Split(s, c)[0]
    ensures Split(s, c)[0] <= s
    ensures |Split(s, c)[0]| < |s| ==> s[|Split(s, c)[0]|] == c
    ensures c !in s ==> Split(s, c)[0] == s
  {
  }

  /** `sub` occurs in `s` starting at index `i`. */
  predicate OccursAt(s: string, sub: string, i: nat)
  {
    i + |sub| <= |s| && s[i..i + |sub|] == sub
  }

  /** The first index at or after `from` where `sub` occurs in `s`. */
  function IndexOfFrom(s: string, sub: string, from: nat): (r: Option<nat>)
    ensures r.Some? ==> from <= r.value && OccursAt(s, sub, r.value)
    ensures r.Some? ==> forall j: nat :: from <= j < r.value ==> !OccursAt(s, sub, j)
    ensures r.None? ==> forall j: nat :: from <= j ==> !OccursAt(s, sub, j)
    decreases |s| + 1 - from
  {
    if from > |s| then None
    else if OccursAt(s, sub, from) then Some(from)
    else IndexOfFrom(s, sub, from + 1)
  }

  /** `s.indexOf(sub)`: the first index where `sub` occurs in `s`. */
  function IndexOf(s: string, sub: string): (r: Option<nat>)
    ensures r.Some? ==> OccursAt(s, sub, r.value)
    ensures r.Some? ==> forall j: nat :: j < r.value ==> !OccursAt(s, sub, j)
    ensures r.None? ==> forall j: nat :: !OccursAt(s, sub, j)
  {
    IndexOfFrom(s, sub, 0)
  }

  /** `s.includes(sub)`. */
  predicate Contains(s: string, sub: string)
  {
    IndexOf(s, sub).Some?
  }

  /** `includes` with a one-character pattern is membership of that character. */
  lemma ContainsChar(s: string, c: char)
    ensures Contains(s, [c]) <==> c in s
  {
    if c in s {
      var i :| 0 <= i < |s| && s[i] == c;
      assert OccursAt(s, [c], i);
    }
    if Contains(s, [c]) {
      var i := IndexOf(s, [c]).value;
      assert s[i..i + 1] == [c];
      assert s[i] == s[i..i + 1][0];
    }
  }

  /** `s.replace(pat, rep)` with a string pattern: only the first occurrence is replaced. */
  function ReplaceFirst(s: string, pat: string, rep: string): (r: string)
    ensures (forall j: nat :: !OccursAt(s, pat, j)) ==> r == s
    ensures forall i: nat ::
              OccursAt(s, pat, i) && (forall j: nat :: j < i ==> !OccursAt(s, pat, j)) ==>
                r == s[..i] + rep + s[i + |pat|..]
  {
    match IndexOf(s, pat)
    case None => s
    case Some(i) => s[..i] + rep + s[i + |pat|..]
  }

  /** `s.slice(0, -n)` for `n >= 1`: `s` without its last `n` characters. */
  function DropLast(s: string, n: nat): (r: string)
    requires n >= 1
    ensures r <= s
    ensures |r| == if |s| >= n then |s| - n else 0
  {
    if |s| >= n then s[..|s| - n] else ""
  }

  /** `s` ends with `suffix`. */
  predicate EndsWith(s: string, suffix: string)
  {
    |suffix| <= |s| && s[|s| - |suffix|..] == suffix
  }

  /** `" ".repeat(n)` and the like. */
  function Repeat(c: char, n: nat): (r: string)
    ensures |r| == n
    ensures forall i :: 0 <= i < n ==> r[i] == c
  {
    if n == 0 then "" else [c] + Repeat(c, n - 1)
  }

  /** `toUpperCase` of one character, ASCII only. */
  function UpperChar(c: char): (u: char)
    ensures 'a' <= c <= 'z' ==> 'A' <= u <= 'Z' && u as int - c as int == 'A' as int - 'a' as int
    ensures !('a' <= c <= 'z') ==> u == c
  {
    if 'a' <= c <= 'z' then (c as int - 'a' as int + 'A' as int) as char else c
  }

  /** `s.toUpperCase()`, ASCII only. */
  function Upper(s: string): (u: string)
    ensures |u| == |s|
    ensures forall i :: 0 <= i < |s| ==> u[i] == UpperChar(s[i])
  {
    if s == [] then [] else [UpperChar(s[0])] + Upper(s[1..])
  }
}
