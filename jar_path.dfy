/**
  The jar-name parser of `UiAutomator.parseJarNameFromPath`: the regular
  expression `.*(\/|\\)(.*\.jar)` executed on the binary path, and group 2 of
  the match returned.

  JavaScript's `.` matches every character except the four line terminators,
  so a match never spans a line.  The search tries start positions from the
  left, so the match lies in the first line that can hold one; inside that
  line both `.*` are greedy, so the separator is the last one that still has
  a `.jar` after it, and the name runs up to the end of the last `.jar`.
*/
module JarPath {
  import opened Base

  predicate IsSeparator(c: char) { c == '/' || c == '\\' }

  /** The characters JavaScript's `.` refuses to match. */
  predicate IsLineTerminator(c: char) {
    c == '\n' || c == '\r' || c == '\U{2028}' || c == '\U{2029}'
  }

  predicate LineFree(s: string) {
    forall m :: 0 <= m < |s| ==> !IsLineTerminator(s[m])
  }

  /** `.jar` starts at index `j` of `s`. */
  predicate JarAt(s: string, j: int) {
    0 <= j && j + 4 <= |s| && s[j..j + 4] == ".jar"
  }

  /** The pattern can match with its separator at `i` and its `\.jar` at `j`,
      ignoring line terminators. */
  predicate Candidate(s: string, i: int, j: int) {
    0 <= i < j && JarAt(s, j) && IsSeparator(s[i])
  }

  /** The same, with no line terminator between the separator and `.jar`:
      a way the pattern really matches `s`. */
  predicate LineCandidate(s: string, i: int, j: int) {
    Candidate(s, i, j) && forall m :: i < m < j ==> !IsLineTerminator(s[m])
  }

  /** `s[a..b]` is one whole line of `s`. */
  predicate Line(s: string, a: int, b: int) {
    0 <= a <= b <= |s| &&
    (a == 0 || IsLineTerminator(s[a - 1])) &&
    (b == |s| || IsLineTerminator(s[b])) &&
    forall m :: a <= m < b ==> !IsLineTerminator(s[m])
  }

  /** The greatest `j < k` at which `.jar` starts. */
  function LastJarBefore(s: string, k: nat): (r: Option<nat>)
    requires k <= |s|
    ensures r.Some? ==> r.value < k && JarAt(s, r.value)
    ensures r.Some? ==> forall j :: r.value < j < k ==> !JarAt(s, j)
    ensures r.None? ==> forall j :: 0 <= j < k ==> !JarAt(s, j)
  {
    if k == 0 then None
    else if JarAt(s, k - 1) then Some(k - 1)
    else LastJarBefore(s, k - 1)
  }

  /** The greatest `i < k` holding a separator. */
  function LastSeparatorBefore(s: string, k: nat): (r: Option<nat>)
    requires k <= |s|
    ensures r.Some? ==> r.value < k && IsSeparator(s[r.value])
    ensures r.Some? ==> forall i :: r.value < i < k ==> !IsSeparator(s[i])
    ensures r.None? ==> forall i :: 0 <= i < k ==> !IsSeparator(s[i])
  {
    if k == 0 then None
    else if IsSeparator(s[k - 1]) then Some(k - 1)
    else LastSeparatorBefore(s, k - 1)
  }

  /** Group 2 of the pattern matched against one line: the greedy choice is
      the candidate with the greatest separator and, for it, the greatest
      `.jar`; no candidate means no match. */
  function MatchLine(line: string): (r: Option<string>)
    ensures r.None? <==> forall i, j :: !Candidate(line, i, j)
    ensures r.Some? ==>
      exists i, j :: Candidate(line, i, j) && r.value == line[i + 1..j + 4] &&
        forall i', j' :: Candidate(line, i', j') ==> i' <= i && j' <= j
  {
    match LastJarBefore(line, |line|)
    case None => None
    case Some(j) =>
      match LastSeparatorBefore(line, j)
      case None => None
      case Some(i) =>
        assert Candidate(line, i, j);
        Some(line[i + 1..j + 4])
  }

  /** The index of the first line terminator, or `|s|` if there is none. */
  function FirstLineEnd(s: string): (k: nat)
    ensures k <= |s| && (k < |s| ==> IsLineTerminator(s[k]))
    ensures forall m :: 0 <= m < k ==> !IsLineTerminator(s[m])
  {
    if s == [] || IsLineTerminator(s[0]) then 0 else 1 + FirstLineEnd(s[1..])
  }

  /** `RegExp.prototype.exec` of the pattern on `s`, reduced to group 2. */
  function ExecPattern(s: string): (r: Option<string>)
    decreases |s|
    ensures r.None? <==> forall i, j :: !LineCandidate(s, i, j)
    ensures r.Some? ==>
      exists a, b :: Line(s, a, b) && MatchLine(s[a..b]) == r &&
        forall i, j :: LineCandidate(s, i, j) ==> a <= i
  {
    var k := FirstLineEnd(s);
    match MatchLine(s[..k])
    case Some(name) =>
      FirstLineMatches(s, k);
      Some(name)
    case None =>
      if k == |s| then
        OnlyLineFails(s, k);
        None
      else
        var rest := ExecPattern(s[k + 1..]);
        LaterLine(s, k, s[k + 1..], rest);
        rest
  }

  /** A match of the first line `s[..k]` is a match of `s`. */
  lemma FirstLineBack(s: string, k: nat, i: int, j: int)
    requires k == FirstLineEnd(s) && Candidate(s[..k], i, j)
    ensures LineCandidate(s, i, j)
  {
    assert s[..k][j..j + 4] == s[j..j + 4];
  }

  /** A match of `s` that starts in the first line lies inside it. */
  lemma FirstLinePair(s: string, k: nat, i: int, j: int)
    requires k == FirstLineEnd(s) && LineCandidate(s, i, j) && i < k
    ensures Candidate(s[..k], i, j)
  {
    assert s[j..j + 4] == ".jar";
    assert forall m :: j <= m < j + 4 ==> s[m] == s[j..j + 4][m - j];
    assert forall m :: i <= m < j + 4 ==> !IsLineTerminator(s[m]);
    assert j + 4 <= k;
    assert s[..k][j..j + 4] == s[j..j + 4];
  }

  /** A match of `s` past the first line is a match of the rest `t`. */
  lemma RestPair(s: string, k: nat, t: string, i: int, j: int)
    requires k < |s| && IsLineTerminator(s[k]) && t == s[k + 1..]
    requires LineCandidate(s, i, j) && k <= i
    ensures LineCandidate(t, i - k - 1, j - k - 1)
  {
    assert i != k;
    assert t[i - k - 1] == s[i];
    assert t[j - k - 1..j - k + 3] == s[j..j + 4];
    forall m | i - k - 1 < m < j - k - 1 ensures !IsLineTerminator(t[m]) {
      assert t[m] == s[m + k + 1];
    }
  }

  /** A match of the rest `t` is a match of `s`, shifted by `k + 1`. */
  lemma RestBack(s: string, k: nat, t: string, i: int, j: int)
    requires k < |s| && t == s[k + 1..] && LineCandidate(t, i, j)
    ensures LineCandidate(s, i + k + 1, j + k + 1)
  {
    assert s[j + k + 1..j + k + 5] == t[j..j + 4];
    forall m | i + k + 1 < m < j + k + 1 ensures !IsLineTerminator(s[m]) {
      assert s[m] == t[m - k - 1];
    }
  }

  lemma FirstLineMatches(s: string, k: nat)
    requires k == FirstLineEnd(s) && MatchLine(s[..k]).Some?
    ensures exists i, j :: LineCandidate(s, i, j)
    ensures Line(s, 0, k) && s[0..k] == s[..k]
  {
    var i, j :| Candidate(s[..k], i, j);
    FirstLineBack(s, k, i, j);
  }

  lemma OnlyLineFails(s: string, k: nat)
    requires k == FirstLineEnd(s) == |s| && MatchLine(s[..k]).None?
    ensures forall i, j :: !LineCandidate(s, i, j)
  {
    forall i, j | LineCandidate(s, i, j) ensures false {
      FirstLinePair(s, k, i, j);
    }
  }

  /** When the first line `s[..k]` has no match, every match of `s` is a
      match of the text `t` after its line terminator. */
  lemma MatchesAfterFirstLine(s: string, k: nat, t: string)
    requires k == FirstLineEnd(s) && k < |s| && t == s[k + 1..]
    requires MatchLine(s[..k]).None?
    ensures forall i, j :: LineCandidate(s, i, j) ==>
      k < i && LineCandidate(t, i - k - 1, j - k - 1)
  {
    forall i, j | LineCandidate(s, i, j)
      ensures k < i && LineCandidate(t, i - k - 1, j - k - 1)
    {
      if i < k {
        FirstLinePair(s, k, i, j);
      }
      RestPair(s, k, t, i, j);
    }
  }

  /** The match of `s` is then that of `t`, shifted by `k + 1`. */
  lemma LaterLine(s: string, k: nat, t: string, rest: Option<string>)
    requires k == FirstLineEnd(s) && k < |s| && t == s[k + 1..]
    requires MatchLine(s[..k]).None?
    requires rest.None? <==> forall i, j :: !LineCandidate(t, i, j)
    requires rest.Some? ==>
      exists a, b :: Line(t, a, b) && MatchLine(t[a..b]) == rest &&
        forall i, j :: LineCandidate(t, i, j) ==> a <= i
    ensures rest.None? <==> forall i, j :: !LineCandidate(s, i, j)
    ensures rest.Some? ==>
      exists a, b :: Line(s, a, b) && MatchLine(s[a..b]) == rest &&
        forall i, j :: LineCandidate(s, i, j) ==> a <= i
  {
    MatchesAfterFirstLine(s, k, t);
    if rest.Some? {
      var a, b :| Line(t, a, b) && MatchLine(t[a..b]) == rest &&
        forall i, j :: LineCandidate(t, i, j) ==> a <= i;
      var i0, j0 :| LineCandidate(t, i0, j0);
      RestBack(s, k, t, i0, j0);
      LineShift(s, k, t, a, b);
    }
  }

  lemma LineShift(s: string, k: nat, t: string, a: int, b: int)
    requires k < |s| && t == s[k + 1..] && IsLineTerminator(s[k]) && Line(t, a, b)
    ensures Line(s, a + k + 1, b + k + 1) && t[a..b] == s[a + k + 1..b + k + 1]
  {
    forall m | a + k + 1 <= m < b + k + 1 ensures !IsLineTerminator(s[m]) {
      assert s[m] == t[m - k - 1];
    }
  }

  function ParseError(path: string): Error {
    Error("Unable to parse jar name from " + path)
  }

  /** `parseJarNameFromPath`: the name of the jar at the end of `path`, or
      the error it throws when the pattern does not match. */
  function ParseJarNameFromPath(path: string): Result<string> {
    match ExecPattern(path)
    case Some(name) => Success(name)
    case None => Failure(ParseError(path))
  }
}
