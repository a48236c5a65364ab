/** What `parseJarNameFromPath` promises its caller `start`. */
module JarPathProperties {
  import opened Base
  import opened JarPath

  /** A jar name without separators, after any directory on the same line
      and either separator, is what the parser returns. */
  lemma ParseDirectoryAndName(dir: string, sep: char, name: string)
    requires LineFree(dir) && IsSeparator(sep)
    requires |name| >= 4 && name[|name| - 4..] == ".jar"
    requires forall m :: 0 <= m < |name| ==> !IsSeparator(name[m]) && !IsLineTerminator(name[m])
    ensures ParseJarNameFromPath(dir + [sep] + name) == Success(name)
  {
    var p := dir + [sep] + name;
    DirectoryAndNameCandidates(dir, sep, name);
    calc {
      ExecPattern(p);
    == { SingleLineParse(p); }
      MatchLine(p);
    == { GreediestCandidate(p, |dir|, |p| - 4); }
      Some(p[|dir| + 1..|p|]);
    == { assert p[|dir| + 1..|p|] == p[|dir| + 1..]; }
      Some(name);
    }
  }

  /** On a path with no line break the pattern matches as on one line. */
  lemma SingleLineParse(path: string)
    requires LineFree(path)
    ensures ExecPattern(path) == MatchLine(path)
  {
    LineFreeEnd(path);
    assert path[..|path|] == path;
  }

  /** The greediest candidate of a line is the one the pattern matches. */
  lemma GreediestCandidate(line: string, i: int, j: int)
    requires Candidate(line, i, j)
    requires forall i', j' :: Candidate(line, i', j') ==> i' <= i && j' <= j
    ensures MatchLine(line) == Some(line[i + 1..j + 4])
  {
    var i0, j0 :| Candidate(line, i0, j0) && MatchLine(line).value == line[i0 + 1..j0 + 4] &&
      forall i', j' :: Candidate(line, i', j') ==> i' <= i0 && j' <= j0;
    assert i0 <= i && j0 <= j;
    assert i <= i0 && j <= j0;
  }

  /** The candidates of such a path: the separator before the name and the
      `.jar` that ends it come last. */
  lemma DirectoryAndNameCandidates(dir: string, sep: char, name: string)
    requires LineFree(dir) && IsSeparator(sep)
    requires |name| >= 4 && name[|name| - 4..] == ".jar"
    requires forall m :: 0 <= m < |name| ==> !IsSeparator(name[m]) && !IsLineTerminator(name[m])
    ensures var p := dir + [sep] + name;
      LineFree(p) && p[|dir| + 1..] == name && Candidate(p, |dir|, |p| - 4) &&
      forall i, j :: Candidate(p, i, j) ==> i <= |dir| && j <= |p| - 4
  {
    var p := dir + [sep] + name;
    var d := |dir|;
    assert p[d + 1..] == name;
    forall m | 0 <= m < |p| ensures !IsLineTerminator(p[m]) && (m > d ==> !IsSeparator(p[m])) {
      if m > d { assert p[m] == name[m - d - 1]; }
    }
    assert p[|p| - 4..] == name[|name| - 4..];
  }

  /** The first path shape the comment above the call expects, with
      forward slashes, gives the bare file name. */
  lemma ParseSlashExample(path: string)
    requires path == "/ads/ads/foo.jar"
    ensures ParseJarNameFromPath(path) == Success("foo.jar")
  {
    assert path[..8] == "/ads/ads" && path[9..] == "foo.jar";
    ParseDirectoryAndName(path[..8], path[8], path[9..]);
    Reassemble(path, 8);
  }

  /** The second, with backslashes, gives it too. */
  lemma ParseBackslashExample(path: string)
    requires path == "\\asd\\asd\\foo.jar"
    ensures ParseJarNameFromPath(path) == Success("foo.jar")
  {
    assert path[..8] == "\\asd\\asd" && path[9..] == "foo.jar";
    ParseDirectoryAndName(path[..8], path[8], path[9..]);
    Reassemble(path, 8);
  }

  /** A string is the part before index `k`, the character at `k` and the
      part after it. */
  lemma Reassemble(s: string, k: nat)
    requires k < |s|
    ensures s[..k] + [s[k]] + s[k + 1..] == s
  {
  }

  /** A path without line breaks is one line. */
  lemma {:induction false} LineFreeEnd(s: string)
    requires LineFree(s)
    ensures FirstLineEnd(s) == |s|
  {
    if s != [] {
      assert LineFree(s[1..]) by {
        forall m | 0 <= m < |s| - 1 ensures !IsLineTerminator(s[1..][m]) {
          assert s[1..][m] == s[m + 1];
        }
      }
      LineFreeEnd(s[1..]);
    }
  }

  /** The parser fails, with its fixed message, exactly when no line of the
      path holds a separator followed by `.jar`. */
  lemma ParseFailsExactly(path: string)
    ensures ParseJarNameFromPath(path).Success? <==> exists i, j :: LineCandidate(path, i, j)
    ensures ParseJarNameFromPath(path).Failure? ==>
      ParseJarNameFromPath(path).error.message == "Unable to parse jar name from " + path
  {
  }

  /** On a single line, a match is exactly a separator with `.jar` after it. */
  lemma LineFreeCandidates(s: string)
    requires LineFree(s)
    ensures forall i, j :: LineCandidate(s, i, j) <==> Candidate(s, i, j)
  {
  }

  /** On a single line the parser fails exactly when no `/` or `\` is
      followed, later in the path, by `.jar`. */
  lemma ParseFailsIffNoSeparatorBeforeJar(path: string)
    requires LineFree(path)
    ensures ParseJarNameFromPath(path).Failure? <==>
      !exists i, j :: 0 <= i < j && JarAt(path, j) && IsSeparator(path[i])
  {
    LineFreeCandidates(path);
    ParseFailsExactly(path);
    if ParseJarNameFromPath(path).Success? {
      var i, j :| LineCandidate(path, i, j);
      assert 0 <= i < j && JarAt(path, j) && IsSeparator(path[i]);
    } else {
      forall i, j | 0 <= i < j && JarAt(path, j) && IsSeparator(path[i])
        ensures LineCandidate(path, i, j)
      {
      }
    }
  }

  /** On a single line the parsed name is the text after the last separator
      that still has a `.jar` after it, up to the end of the last `.jar`. */
  lemma ParseIsGreedy(path: string)
    requires LineFree(path) && ParseJarNameFromPath(path).Success?
    ensures exists i, j :: Candidate(path, i, j) &&
              ParseJarNameFromPath(path).value == path[i + 1..j + 4] &&
              forall i', j' :: Candidate(path, i', j') ==> i' <= i && j' <= j
  {
    var r := ExecPattern(path);
    var a, b :| Line(path, a, b) && MatchLine(path[a..b]) == r &&
      forall i, j :: LineCandidate(path, i, j) ==> a <= i;
    assert a == 0 && b == |path|;
    assert path[a..b] == path;
  }

  /** Within one line: the matched name ends in `.jar`, holds no
      separator, and follows a separator. */
  lemma MatchLineShape(line: string, name: string) returns (i: nat)
    requires MatchLine(line) == Some(name)
    ensures |name| >= 4 && name[|name| - 4..] == ".jar"
    ensures forall m :: 0 <= m < |name| ==> !IsSeparator(name[m])
    ensures i + 1 + |name| <= |line| && IsSeparator(line[i]) && line[i + 1..i + 1 + |name|] == name
  {
    var i0, j :| Candidate(line, i0, j) && name == line[i0 + 1..j + 4] &&
      forall i', j' :: Candidate(line, i', j') ==> i' <= i0 && j' <= j;
    i := i0;
    assert |name| == j + 3 - i && i + 1 + |name| == j + 4;
    NoSeparatorAfter(line, i, j);
    assert name[|name| - 4..] == line[j..j + 4];
    forall m | 0 <= m < |name| ensures !IsSeparator(name[m]) {
      assert name[m] == line[i + 1 + m];
    }
  }

  /** After the separator of the greediest candidate comes no other
      separator: one before the `.jar` would start a later candidate, and
      `.jar` holds none. */
  lemma NoSeparatorAfter(line: string, i: int, j: int)
    requires Candidate(line, i, j)
    requires forall i', j' :: Candidate(line, i', j') ==> i' <= i && j' <= j
    ensures forall m :: i < m < j + 4 ==> !IsSeparator(line[m])
  {
    forall m | i < m < j + 4 ensures !IsSeparator(line[m]) {
      if m < j {
        assert Candidate(line, m, j) ==> m <= i;
      } else {
        assert line[m] == line[j..j + 4][m - j];
      }
    }
  }

  /** The line of `path` that the pattern matched. */
  lemma MatchedLine(path: string, name: string) returns (a: nat, b: nat)
    requires ParseJarNameFromPath(path) == Success(name)
    ensures Line(path, a, b) && MatchLine(path[a..b]) == Some(name)
  {
    assert ExecPattern(path) == Some(name);
    a, b :| Line(path, a, b) && MatchLine(path[a..b]) == Some(name) &&
      forall i, j :: LineCandidate(path, i, j) ==> a <= i;
  }

  /** A parsed name ends in `.jar`, holds no separator and no line break, and
      stands in the path right after a separator. */
  lemma ParsedNameShape(path: string, name: string) returns (i: nat)
    requires ParseJarNameFromPath(path) == Success(name)
    ensures |name| >= 4 && name[|name| - 4..] == ".jar"
    ensures forall m :: 0 <= m < |name| ==> !IsSeparator(name[m]) && !IsLineTerminator(name[m])
    ensures i + 1 + |name| <= |path| && IsSeparator(path[i]) && path[i + 1..i + 1 + |name|] == name
  {
    var a, b := MatchedLine(path, name);
    var k := MatchLineShape(path[a..b], name);
    i := LiftFromLine(path, a, b, k, name);
  }

  lemma LiftFromLine(path: string, a: nat, b: nat, k: nat, name: string) returns (i: nat)
    requires Line(path, a, b)
    requires k + 1 + |name| <= b - a && IsSeparator(path[a..b][k])
    requires path[a..b][k + 1..k + 1 + |name|] == name
    ensures forall m :: 0 <= m < |name| ==> !IsLineTerminator(name[m])
    ensures i + 1 + |name| <= |path| && IsSeparator(path[i]) && path[i + 1..i + 1 + |name|] == name
  {
    forall m | 0 <= m < |name| ensures !IsLineTerminator(name[m]) {
      assert name[m] == path[a + k + 1 + m];
    }
    i := a + k;
  }
}
