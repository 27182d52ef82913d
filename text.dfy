/** The JavaScript string operations the core relies on: `indexOf`, `includes`, `split`
    with a non-empty separator, `trim`, and ASCII case mapping. */
module Text {
  import opened Wrappers

  /** `t` occurs in `s` starting at index `i`. */
  predicate OccursAt(s: string, t: string, i: nat) {
    i + |t| <= |s| && s[i..i + |t|] == t
  }

  /** `s.indexOf(t, from)`, with `None` for -1. */
  function IndexOfFrom(s: string, t: string, from: nat): (r: Option<nat>)
    ensures r.Some? ==> from <= r.value && OccursAt(s, t, r.value)
    ensures r.Some? ==> forall j: nat :: from <= j < r.value ==> !OccursAt(s, t, j)
    ensures r.None? ==> forall j: nat :: from <= j ==> !OccursAt(s, t, j)
    decreases |s| - from
  {
    if from + |t| > |s| then None
    else if s[from..from + |t|] == t then Some(from)
    else IndexOfFrom(s, t, from + 1)
  }

  /** `s.indexOf(t)`: the first occurrence. */
  function IndexOf(s: string, t: string): (r: Option<nat>)
    ensures r.Some? ==> OccursAt(s, t, r.value) && forall j: nat :: j < r.value ==> !OccursAt(s, t, j)
    ensures r.None? ==> forall j: nat :: !OccursAt(s, t, j)
  {
    IndexOfFrom(s, t, 0)
  }

  /** `s.includes(t)`. */
  predicate Contains(s: string, t: string) {
    IndexOf(s, t).Some?
  }

  lemma ContainsIff(s: string, t: string)
    ensures Contains(s, t) <==> exists i: nat :: OccursAt(s, t, i)
  {
  }

  /** `s.split(sep)` for a non-empty separator: the pieces between occurrences. */
  function Split(s: string, sep: string): (parts: seq<string>)
    requires sep != ""
    ensures |parts| >= 1
    decreases |s|
  {
    match IndexOf(s, sep)
    case None => [s]
    case Some(i) => [s[..i]] + Split(s[i + |sep|..], sep)
  }

  /** `parts.pop()` of a non-empty array. */
  function Last<T>(parts: seq<T>): T
    requires |parts| >= 1
  {
    parts[|parts| - 1]
  }

  lemma LastOfCons<T>(x: T, r: seq<T>)
    requires |r| >= 1
    ensures Last([x] + r) == Last(r)
  {
  }

  lemma SplitUnfold(s: string, sep: string, i: nat)
    requires sep != "" && IndexOf(s, sep) == Some(i)
    ensures i + |sep| <= |s|
    ensures Split(s, sep) == [s[..i]] + Split(s[i + |sep|..], sep)
  {
  }

  /** Past the first separator, the split goes on with the rest of the string. */
  lemma SplitLastOfRest(s: string, sep: string, i: nat)
    requires sep != "" && IndexOf(s, sep) == Some(i)
    ensures i + |sep| <= |s|
    ensures Last(Split(s, sep)) == Last(Split(s[i + |sep|..], sep))
  {
    SplitUnfold(s, sep, i);
    LastOfCons(s[..i], Split(s[i + |sep|..], sep));
  }
  /** The last piece of a split is a suffix of the string and holds no separator. */
  lemma {:induction false} LastPieceIsSuffix(s: string, sep: string)
    requires sep != ""
    ensures var p := Last(Split(s, sep)); |p| <= |s| && s[|s| - |p|..] == p && !Contains(p, sep)
    decreases |s|
  {
    match IndexOf(s, sep)
    case None =>
      assert Split(s, sep) == [s];
    case Some(i) =>
      var rest := s[i + |sep|..];
      LastPieceIsSuffix(rest, sep);
      SplitLastOfRest(s, sep, i);
      var p := Last(Split(rest, sep));
      assert s[|s| - |p|..] == rest[|rest| - |p|..];
  }

  lemma SliceOfSuffix(s: string, k: nat, x: nat, y: nat)
    requires k <= |s| && x <= y <= |s| - k
    ensures s[k..][x..y] == s[k + x..k + y]
  {
  }

  /** `p` ends `s` and the separator comes just before it. */
  predicate PrecededBy(s: string, sep: string, p: string) {
    |p| + |sep| <= |s| && s[|s| - |p| - |sep|..|s| - |p|] == sep
  }

  lemma PrecededByInSuffix(s: string, k: nat, sep: string, p: string)
    requires k <= |s| && PrecededBy(s[k..], sep, p)
    ensures PrecededBy(s, sep, p)
  {
    var rest := s[k..];
    var x, y := |rest| - |p| - |sep|, |rest| - |p|;
    SliceOfSuffix(s, k, x, y);
    assert s[k + x..k + y] == sep;
  }

  /** When the string holds a separator, the text just before the last piece is one. */
  lemma {:induction false} LastPieceFollowsSeparator(s: string, sep: string)
    requires sep != "" && Contains(s, sep)
    ensures PrecededBy(s, sep, Last(Split(s, sep)))
    decreases |s|
  {
    var i := IndexOf(s, sep).value;
    var rest := s[i + |sep|..];
    SplitLastOfRest(s, sep, i);
    var p := Last(Split(rest, sep));
    if Contains(rest, sep) {
      LastPieceFollowsSeparator(rest, sep);
      PrecededByInSuffix(s, i + |sep|, sep, p);
    } else {
      SplitWithoutSeparator(rest, sep);
      assert OccursAt(s, sep, i);
      assert s[i..i + |sep|] == sep;
    }
  }

  lemma SplitWithoutSeparator(s: string, sep: string)
    requires sep != "" && !Contains(s, sep)
    ensures Last(Split(s, sep)) == s
  {
    assert Split(s, sep) == [s];
  }

  /** The first two pieces of a split: the text before the first separator, and the text
      between the first and the second. */
  lemma SplitPieces(s: string, sep: string)
    requires sep != ""
    ensures IndexOf(s, sep).None? ==> Split(s, sep) == [s]
    ensures IndexOf(s, sep).Some? ==>
      var i := IndexOf(s, sep).value;
      var rest := s[i + |sep|..];
      && |Split(s, sep)| >= 2
      && Split(s, sep)[0] == s[..i]
      && Split(s, sep)[1] == (match IndexOf(rest, sep) case None => rest case Some(j) => rest[..j])
  {
  }

  /** The characters `trim` removes: the ECMAScript white space (tab, vertical tab, form
      feed, the byte order mark and every space separator) and line terminators. */
  predicate IsWhitespace(c: char) {
    || c == '\t' || c == '\U{000B}' || c == '\U{000C}' || c == ' ' || c == '\U{00A0}' || c == '\U{FEFF}'
    || c == '\U{1680}' || '\U{2000}' <= c <= '\U{200A}' || c == '\U{202F}' || c == '\U{205F}' || c == '\U{3000}'
    || c == '\n' || c == '\r' || c == '\U{2028}' || c == '\U{2029}'
  }

  function TrimStart(s: string): (r: string)
    ensures |r| <= |s| && r == s[|s| - |r|..]
    ensures r == "" || !IsWhitespace(r[0])
    ensures forall i :: 0 <= i < |s| - |r| ==> IsWhitespace(s[i])
  {
    if s != "" && IsWhitespace(s[0]) then TrimStart(s[1..]) else s
  }

  function TrimEnd(s: string): (r: string)
    ensures |r| <= |s| && r == s[..|r|]
    ensures r == "" || !IsWhitespace(r[|r| - 1])
    ensures forall i :: |r| <= i < |s| ==> IsWhitespace(s[i])
  {
    if s != "" && IsWhitespace(s[|s| - 1]) then TrimEnd(s[..|s| - 1]) else s
  }

  /** `s.trim()`. */
  function Trim(s: string): string {
    TrimEnd(TrimStart(s))
  }

  /** `!s.trim()`: the string is empty or made only of whitespace. */
  predicate IsBlank(s: string) {
    Trim(s) == ""
  }

  lemma {:induction false} AllWhitespaceTrimsToEmpty(s: string)
    requires forall i :: 0 <= i < |s| ==> IsWhitespace(s[i])
    ensures TrimStart(s) == ""
  {
    if s != "" {
      AllWhitespaceTrimsToEmpty(s[1..]);
    }
  }

  lemma BlankIffAllWhitespace(s: string)
    ensures IsBlank(s) <==> forall i :: 0 <= i < |s| ==> IsWhitespace(s[i])
  {
    if forall i :: 0 <= i < |s| ==> IsWhitespace(s[i]) {
      AllWhitespaceTrimsToEmpty(s);
    }
    if IsBlank(s) {
      assert TrimStart(s) == "";
    }
  }

  /** An ideographic space alone is blank to `trim`. */
  lemma IdeographicSpaceIsBlank()
    ensures IsBlank("\U{3000}") && IsBlank(" \U{2028}\U{00A0}")
  {
    BlankIffAllWhitespace("\U{3000}");
    BlankIffAllWhitespace(" \U{2028}\U{00A0}");
  }

  /** `s.length`: the number of UTF-16 code units, two for each character outside the Basic
      Multilingual Plane. */
  function Utf16Length(s: string): (n: nat)
    ensures |s| <= n <= 2 * |s|
    ensures (forall i :: 0 <= i < |s| ==> s[i] as int <= 0xFFFF) ==> n == |s|
    decreases |s|
  {
    if s == "" then 0
    else Utf16Length(s[..|s| - 1]) + (if s[|s| - 1] as int > 0xFFFF then 2 else 1)
  }

  /** Two mathematical letters outside the Basic Multilingual Plane make a string of length
      4 to JavaScript. */
  lemma AstralPairLength()
    ensures Utf16Length("\U{1D400}\U{1D401}") == 4
  {
    assert "\U{1D400}\U{1D401}"[..1] == "\U{1D400}";
  }

  function LowerChar(c: char): char {
    if 'A' <= c <= 'Z' then (c as int + 32) as char else c
  }

  function UpperChar(c: char): char {
    if 'a' <= c <= 'z' then (c as int - 32) as char else c
  }

  /** `s.toLowerCase()` on ASCII letters. */
  function Lower(s: string): (r: string)
    ensures |r| == |s| && forall i :: 0 <= i < |s| ==> r[i] == LowerChar(s[i])
  {
    if s == "" then "" else [LowerChar(s[0])] + Lower(s[1..])
  }

  /** `s.charAt(0).toUpperCase() + s.slice(1)`. */
  function Capitalize(s: string): (r: string)
    ensures |r| == |s| && (s != "" ==> r[0] == UpperChar(s[0]) && r[1..] == s[1..])
  {
    if s == "" then "" else [UpperChar(s[0])] + s[1..]
  }
}
