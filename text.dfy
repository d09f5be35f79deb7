/**
 * The few string operations the pages use: `toLowerCase` (ASCII letters
 * only), `includes`, `indexOf`, `split` on a non-empty separator, and the
 * matching `join`.
 */
module Text {
  import opened Wrappers

  /** `toLowerCase` of one character, for the letters A to Z; every other character is kept. */
  function LowerChar(c: char): char {
    if 'A' <= c <= 'Z' then (c as int + 32) as char else c
  }

  function Lower(s: string): (r: string)
    ensures |r| == |s|
    ensures forall i :: 0 <= i < |s| ==> r[i] == LowerChar(s[i])
  {
    if s == [] then [] else Lower(s[..|s| - 1]) + [LowerChar(s[|s| - 1])]
  }

  /** Lower-casing twice is lower-casing once. */
  lemma LowerIdempotent(s: string)
    ensures Lower(Lower(s)) == Lower(s)
  {
  }

  /** `t` occurs in `s` starting at index `i`. */
  predicate OccursAt(s: string, i: nat, t: string) {
    i + |t| <= |s| && s[i..i + |t|] == t
  }

  /** The first occurrence of `t` in `s` at or after index `i`. */
  function IndexFrom(s: string, t: string, i: nat): (r: Option<nat>)
    requires i <= |s|
    decreases |s| - i
    ensures r.Some? ==> i <= r.value <= |s| && OccursAt(s, r.value, t)
  {
    if OccursAt(s, i, t) then Some(i)
    else if i == |s| then None
    else IndexFrom(s, t, i + 1)
  }

  /** The search finds the first occurrence at or after `i`, and finds nothing only when there is none. */
  lemma {:induction false} IndexFromFirst(s: string, t: string, i: nat)
    requires i <= |s|
    decreases |s| - i
    ensures IndexFrom(s, t, i).Some? ==> forall k :: i <= k < IndexFrom(s, t, i).value ==> !OccursAt(s, k, t)
    ensures IndexFrom(s, t, i).None? <==> forall k :: i <= k <= |s| ==> !OccursAt(s, k, t)
  {
    if !OccursAt(s, i, t) && i < |s| {
      IndexFromFirst(s, t, i + 1);
    }
  }

  /** An occurrence at `m` with none between `i` and `m` is what the search returns. */
  lemma {:induction false} IndexFromAt(s: string, t: string, i: nat, m: nat)
    requires i <= m <= |s|
    requires forall k :: i <= k < m ==> !OccursAt(s, k, t)
    requires OccursAt(s, m, t)
    decreases m - i
    ensures IndexFrom(s, t, i) == Some(m)
  {
    if i < m {
      IndexFromAt(s, t, i + 1, m);
    }
  }

  /** `s.indexOf(t)`: the first occurrence, or none. */
  function IndexOf(s: string, t: string): (r: Option<nat>)
    ensures r.Some? ==> r.value <= |s| && OccursAt(s, r.value, t)
  {
    IndexFrom(s, t, 0)
  }

  /** `s.includes(t)`. */
  predicate Contains(s: string, t: string) {
    IndexOf(s, t).Some?
  }

  /** `includes` holds exactly when some index starts an occurrence; the empty string occurs everywhere. */
  lemma ContainsMeaning(s: string, t: string)
    ensures Contains(s, t) <==> exists i :: 0 <= i <= |s| && OccursAt(s, i, t)
    ensures Contains(s, [])
  {
    IndexFromFirst(s, t, 0);
    assert OccursAt(s, 0, []);
  }

  /**
   * The search used by every list page:
   * `field.toLowerCase().includes(term.toLowerCase())`.
   */
  predicate MatchesTerm(field: string, term: string) {
    Contains(Lower(field), Lower(term))
  }

  /** An empty search term matches every field. */
  lemma EmptyTermMatches(field: string)
    ensures MatchesTerm(field, "")
  {
    ContainsMeaning(Lower(field), "");
  }

  /** `s.split(sep)` for a non-empty separator: the pieces between occurrences, left to right. */
  function Split(s: string, sep: string): (r: seq<string>)
    requires sep != []
    decreases |s|
    ensures |r| >= 1
  {
    match IndexOf(s, sep)
    case None => [s]
    case Some(i) => [s[..i]] + Split(s[i + |sep|..], sep)
  }

  /** `parts.join(sep)`. */
  function Join(parts: seq<string>, sep: string): string
    requires |parts| >= 1
  {
    if |parts| == 1 then parts[0] else parts[0] + sep + Join(parts[1..], sep)
  }

  /** Joining a piece in front of a non-empty list puts the separator between them. */
  lemma JoinFront(p: string, parts: seq<string>, sep: string)
    requires |parts| >= 1
    ensures Join([p] + parts, sep) == p + sep + Join(parts, sep)
  {
    assert ([p] + parts)[1..] == parts;
  }

  /** A string cut around one occurrence of the separator. */
  lemma CutAround(s: string, sep: string, i: nat)
    requires OccursAt(s, i, sep)
    ensures s == s[..i] + sep + s[i + |sep|..]
  {
    assert s == s[..i] + s[i..i + |sep|] + s[i + |sep|..];
  }

  /** Joining the pieces of a split gives back the string. */
  lemma {:induction false} JoinSplit(s: string, sep: string)
    requires sep != []
    decreases |s|
    ensures Join(Split(s, sep), sep) == s
  {
    var found := IndexOf(s, sep);
    if found.Some? {
      var i := found.value;
      var rest := s[i + |sep|..];
      JoinSplit(rest, sep);
      JoinFront(s[..i], Split(rest, sep), sep);
      CutAround(s, sep, i);
    }
  }

  /** `p` followed by the separator has no occurrence of the separator before the one after `p`. */
  predicate SplitsAfter(p: string, sep: string) {
    forall i :: 0 <= i < |p| ==> !OccursAt(p + sep, i, sep)
  }

  /** A piece that ends where the separator begins comes off the front of the split intact. */
  lemma SplitFront(p: string, sep: string, rest: string)
    requires sep != []
    requires SplitsAfter(p, sep)
    ensures Split(p + sep + rest, sep) == [p] + Split(rest, sep)
  {
    var s := p + sep + rest;
    forall k | 0 <= k < |p|
      ensures !OccursAt(s, k, sep)
    {
      assert s[k..k + |sep|] == (p + sep)[k..k + |sep|];
      assert !OccursAt(p + sep, k, sep);
    }
    assert s[|p|..|p| + |sep|] == sep;
    IndexFromAt(s, sep, 0, |p|);
    assert s[..|p|] == p;
    assert s[|p| + |sep|..] == rest;
  }

  /** Every piece but the last ends where the separator begins. */
  predicate PiecesSplitAfter(parts: seq<string>, sep: string) {
    |parts| <= 1 || (SplitsAfter(parts[0], sep) && PiecesSplitAfter(parts[1..], sep))
  }

  /** A piece joined in front comes off the front of the split. */
  lemma SplitJoinFront(p: string, tail: seq<string>, sep: string)
    requires sep != [] && |tail| >= 1
    requires SplitsAfter(p, sep)
    ensures Split(Join([p] + tail, sep), sep) == [p] + Split(Join(tail, sep), sep)
  {
    JoinFront(p, tail, sep);
    SplitFront(p, sep, Join(tail, sep));
  }

  /** Putting the first piece back in front of the rest of a split. */
  lemma GlueFront(parts: seq<string>, whole: seq<string>, rest: seq<string>, last: seq<string>)
    requires |parts| > 1
    requires rest == parts[1..|parts| - 1] + last
    requires whole == [parts[0]] + rest
    ensures whole == parts[..|parts| - 1] + last
  {
    assert parts[..|parts| - 1] == [parts[0]] + parts[1..|parts| - 1];
  }

  /** Splitting a join recovers every piece but the last, and splits the last on its own. */
  lemma {:induction false} SplitJoin(parts: seq<string>, sep: string)
    requires sep != [] && |parts| >= 1
    requires PiecesSplitAfter(parts, sep)
    decreases |parts|
    ensures Split(Join(parts, sep), sep) == parts[..|parts| - 1] + Split(parts[|parts| - 1], sep)
  {
    if |parts| > 1 {
      var tail := parts[1..];
      assert parts == [parts[0]] + tail;
      SplitJoin(tail, sep);
      assert tail[..|tail| - 1] == parts[1..|parts| - 1] && tail[|tail| - 1] == parts[|parts| - 1];
      SplitJoinFront(parts[0], tail, sep);
      GlueFront(parts, Split(Join(parts, sep), sep), Split(Join(tail, sep), sep), Split(parts[|parts| - 1], sep));
    } else {
      assert Join(parts, sep) == parts[0];
      assert parts[..0] == [];
    }
  }

  /** A string with no occurrence of the separator splits into itself. */
  lemma SplitWhole(s: string, sep: string)
    requires sep != []
    requires forall k :: 0 <= k <= |s| ==> !OccursAt(s, k, sep)
    ensures Split(s, sep) == [s]
  {
    IndexFromFirst(s, sep, 0);
  }
}
