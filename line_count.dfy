/**
 * The line statistics of `ASTParser.parse_code`: the source text is cut at every
 * '\n' (`str.split('\n')`), and each piece is classified by its `str.strip()`ped
 * form as blank, comment, or code.
 */
module LineCount {

  datatype LineStats = LineStats(total: int, code: int, comment: int, blank: int)

  /** Number of occurrences of `c` in `s`. */
  function Occurrences(s: string, c: char): nat
  {
    if s == [] then 0 else (if s[0] == c then 1 else 0) + Occurrences(s[1..], c)
  }

  /** `s.split('\n')`: the maximal newline-free pieces between newlines, kept even when empty. */
  function SplitLines(s: string): (r: seq<string>)
    ensures |r| == Occurrences(s, '\n') + 1
    ensures forall i :: 0 <= i < |r| ==> '\n' !in r[i]
  {
    if s == [] then [""]
    else if s[0] == '\n' then [""] + SplitLines(s[1..])
    else
      var rest := SplitLines(s[1..]);
      [[s[0]] + rest[0]] + rest[1..]
  }

  /** Inverse of `SplitLines`: `'\n'.join(lines)`. */
  function JoinLines(lines: seq<string>): string
    requires lines != []
  {
    if |lines| == 1 then lines[0] else lines[0] + "\n" + JoinLines(lines[1..])
  }

  /** Splitting loses nothing: joining the pieces with '\n' gives the text back. */
  lemma {:induction false} JoinSplitLines(s: string)
    ensures JoinLines(SplitLines(s)) == s
  {
    if s == [] {
    } else if s[0] == '\n' {
      JoinSplitLines(s[1..]);
      var rest := SplitLines(s[1..]);
      assert SplitLines(s) == [""] + rest;
      assert ([""] + rest)[1..] == rest;
    } else {
      JoinSplitLines(s[1..]);
      var rest := SplitLines(s[1..]);
      var r := [[s[0]] + rest[0]] + rest[1..];
      assert SplitLines(s) == r;
      if |rest| == 1 {
        assert s == [s[0]] + s[1..];
      } else {
        assert r[1..] == rest[1..];
        assert JoinLines(rest) == rest[0] + "\n" + JoinLines(rest[1..]);
        assert s == [s[0]] + s[1..];
      }
    }
  }

  /** The characters Python's `str.strip()` removes (those for which `str.isspace()` holds). */
  predicate IsSpace(c: char)
  {
    var v := c as int;
    (0x09 <= v <= 0x0D) || (0x1C <= v <= 0x20) || v == 0x85 || v == 0xA0 || v == 0x1680
    || (0x2000 <= v <= 0x200A) || v == 0x2028 || v == 0x2029 || v == 0x202F || v == 0x205F
    || v == 0x3000
  }

  function StripLeft(s: string): (r: string)
  {
    if s != [] && IsSpace(s[0]) then StripLeft(s[1..]) else s
  }

  function StripRight(s: string): (r: string)
  {
    if s != [] && IsSpace(s[|s| - 1]) then StripRight(s[..|s| - 1]) else s
  }

  /** `line.strip()`. */
  function Strip(line: string): string
  {
    StripRight(StripLeft(line))
  }

  /** `not line.strip()`. */
  predicate IsBlank(line: string)
  {
    Strip(line) == ""
  }

  /** `line.strip().startswith('#')`. */
  predicate IsComment(line: string)
  {
    var t := Strip(line);
    t != "" && t[0] == '#'
  }

  predicate AllSpace(s: string)
  {
    forall i :: 0 <= i < |s| ==> IsSpace(s[i])
  }

  lemma {:induction false} StripLeftEmpty(s: string)
    ensures StripLeft(s) == "" <==> AllSpace(s)
  {
    if s != [] && IsSpace(s[0]) {
      StripLeftEmpty(s[1..]);
      assert AllSpace(s) <==> AllSpace(s[1..]) by {
        if AllSpace(s[1..]) {
          forall i | 0 <= i < |s| ensures IsSpace(s[i]) {
            if i > 0 { assert s[i] == s[1..][i - 1]; }
          }
        }
      }
    }
  }

  /** Length of the run of whitespace at the front of `s`. */
  function LeadingSpaces(s: string): (k: nat)
    ensures k <= |s|
  {
    if s != [] && IsSpace(s[0]) then 1 + LeadingSpaces(s[1..]) else 0
  }

  /** `StripLeft` drops the leading whitespace run and leaves either nothing or a non-space in front. */
  lemma {:induction false} StripLeftShape(s: string)
    ensures AllSpace(s[..LeadingSpaces(s)]) && StripLeft(s) == s[LeadingSpaces(s)..]
    ensures LeadingSpaces(s) < |s| ==> !IsSpace(s[LeadingSpaces(s)])
  {
    if s != [] && IsSpace(s[0]) {
      var k := LeadingSpaces(s[1..]);
      StripLeftShape(s[1..]);
      assert s[1..][k..] == s[k + 1..];
      var p := s[..k + 1];
      assert AllSpace(p) by {
        forall i | 0 <= i < |p| ensures IsSpace(p[i]) {
          if i > 0 { assert p[i] == s[1..][..k][i - 1]; }
        }
      }
    } else {
      assert s[..0] == [] && s[0..] == s;
    }
  }

  /** `StripRight` keeps a prefix and never removes a non-space first character. */
  lemma {:induction false} StripRightPrefix(s: string)
    ensures |StripRight(s)| <= |s| && StripRight(s) == s[..|StripRight(s)|]
    ensures StripRight(s) == "" ==> AllSpace(s)
  {
    if s != [] && IsSpace(s[|s| - 1]) {
      var p := s[..|s| - 1];
      StripRightPrefix(p);
      assert p[..|StripRight(p)|] == s[..|StripRight(p)|];
      if StripRight(s) == "" {
        forall i | 0 <= i < |s| ensures IsSpace(s[i]) {
          if i < |s| - 1 { assert s[i] == p[i]; }
        }
      }
    }
  }

  /** A line is blank exactly when it consists of whitespace only (the empty line included). */
  lemma BlankIffAllSpace(line: string)
    ensures IsBlank(line) <==> AllSpace(line)
  {
    StripLeftEmpty(line);
    StripLeftShape(line);
    StripRightPrefix(StripLeft(line));
    if AllSpace(line) {
      assert StripLeft(line) == "";
      assert StripRight("") == "";
    }
  }

  /** Every character of a whitespace-only prefix is whitespace in the whole line. */
  lemma SpacePrefix(line: string, k: nat)
    requires k <= |line| && AllSpace(line[..k])
    ensures forall i :: 0 <= i < k ==> IsSpace(line[i])
  {
    forall i | 0 <= i < k ensures IsSpace(line[i]) {
      assert line[..k][i] == line[i];
    }
  }

  /** A non-space character after a whitespace-only prefix sits where the whitespace run ends. */
  lemma SpaceRunEnd(line: string, j: nat, k: nat)
    requires j < |line| && k <= |line|
    requires AllSpace(line[..j]) && !IsSpace(line[j])
    requires AllSpace(line[..k]) && (k < |line| ==> !IsSpace(line[k]))
    ensures j == k
  {
    SpacePrefix(line, j);
    SpacePrefix(line, k);
  }

  /** A comment line has '#' right after its leading whitespace. */
  lemma CommentHashFirst(line: string)
    requires IsComment(line)
    ensures LeadingSpaces(line) < |line| && line[LeadingSpaces(line)] == '#'
  {
    StripLeftShape(line);
    var t := StripLeft(line);
    StripRightPrefix(t);
    assert t[0] == line[LeadingSpaces(line)];
  }

  /** A line whose first non-whitespace character is '#' is a comment line. */
  lemma HashFirstComment(line: string, j: nat)
    requires j < |line| && AllSpace(line[..j]) && line[j] == '#'
    ensures IsComment(line)
  {
    var k := LeadingSpaces(line);
    StripLeftShape(line);
    SpaceRunEnd(line, j, k);
    var t := StripLeft(line);
    StripRightPrefix(t);
    assert t[0] == '#';
  }

  /** A line is a comment exactly when its first non-whitespace character is '#'. */
  lemma CommentIffHashFirst(line: string)
    ensures IsComment(line) <==>
              exists k :: 0 <= k < |line| && AllSpace(line[..k]) && line[k] == '#'
  {
    if IsComment(line) {
      CommentHashFirst(line);
      StripLeftShape(line);
    }
    if exists j :: 0 <= j < |line| && AllSpace(line[..j]) && line[j] == '#' {
      var j :| 0 <= j < |line| && AllSpace(line[..j]) && line[j] == '#';
      HashFirstComment(line, j);
    }
  }

  /** Number of blank lines. */
  function CountBlank(lines: seq<string>): (r: nat)
    ensures r <= |lines|
  {
    if lines == [] then 0 else (if IsBlank(lines[0]) then 1 else 0) + CountBlank(lines[1..])
  }

  /** Number of comment lines. */
  function CountComment(lines: seq<string>): (r: nat)
    ensures r <= |lines|
  {
    if lines == [] then 0 else (if IsComment(lines[0]) then 1 else 0) + CountComment(lines[1..])
  }

  /** Number of lines that are neither blank nor a comment: the lines that hold code. */
  function CountCode(lines: seq<string>): (r: nat)
    ensures r <= |lines|
  {
    if lines == [] then 0
    else (if !IsBlank(lines[0]) && !IsComment(lines[0]) then 1 else 0) + CountCode(lines[1..])
  }

  /** Blank and comment lines are disjoint, so together with code lines they partition the text. */
  lemma {:induction false} LinesPartition(lines: seq<string>)
    ensures CountBlank(lines) + CountComment(lines) + CountCode(lines) == |lines|
  {
    if lines != [] {
      LinesPartition(lines[1..]);
    }
  }

  /** The line statistics `parse_code` reports for `source`. */
  function CountLines(source: string): (r: LineStats)
    ensures r.total == Occurrences(source, '\n') + 1
    ensures r.blank + r.comment + r.code == r.total
    ensures r.blank == CountBlank(SplitLines(source)) && r.comment == CountComment(SplitLines(source))
    ensures 0 <= r.code && r.code == CountCode(SplitLines(source))
  {
    var lines := SplitLines(source);
    var total := |lines|;
    var blank := CountBlank(lines);
    var comment := CountComment(lines);
    LinesPartition(lines);
    LineStats(total, total - blank - comment, comment, blank)
  }
}
