/**
 * The line framing the event stream applies to one decoded chunk:
 * Foundation's `components(separatedBy: "\n")`, taken over the characters
 * of the text, and the `hasPrefix` test on a line.
 */
module LineFraming {

  /** How many newline characters `s` holds. */
  function NewlineCount(s: string): nat {
    multiset(s)['\n']
  }

  predicate NoNewline(s: string) {
    '\n' !in s
  }

  /**
   * `s.components(separatedBy: "\n")`: every newline ends one component and
   * starts the next, so "a\n" has the two components "a" and "", and the
   * empty text has the single component "".
   */
  function Split(s: string): (lines: seq<string>)
    ensures |lines| >= 1
  {
    if s == [] then [""]
    else
      var rest := Split(s[1..]);
      if s[0] == '\n' then [""] + rest
      else [[s[0]] + rest[0]] + rest[1..]
  }

  /** The components glued back together with "\n" between neighbours. */
  function Join(lines: seq<string>): string {
    if |lines| == 0 then ""
    else if |lines| == 1 then lines[0]
    else lines[0] + "\n" + Join(lines[1..])
  }

  /** `s.hasPrefix(prefix)`. */
  predicate HasPrefix(s: string, prefix: string) {
    |prefix| <= |s| && s[..|prefix|] == prefix
  }

  /** `s.hasPrefix(prefix)` holds exactly when `s` is `prefix` followed by some rest. */
  lemma HasPrefixMeansConcatenation(s: string, prefix: string)
    ensures HasPrefix(s, prefix) <==> exists rest :: s == prefix + rest
  {
    if HasPrefix(s, prefix) {
      assert s == prefix + s[|prefix|..];
    }
  }

  /** A text with n newlines has exactly n + 1 components. */
  lemma {:induction false} SplitCount(s: string)
    ensures |Split(s)| == NewlineCount(s) + 1
  {
    if s != [] {
      SplitCount(s[1..]);
      assert s == [s[0]] + s[1..];
      assert multiset(s) == multiset([s[0]]) + multiset(s[1..]);
    }
  }

  /** No component contains the separator. */
  lemma {:induction false} SplitLinesHaveNoNewline(s: string)
    ensures forall i :: 0 <= i < |Split(s)| ==> NoNewline(Split(s)[i])
  {
    if s != [] {
      SplitLinesHaveNoNewline(s[1..]);
      var rest := Split(s[1..]);
      if s[0] != '\n' {
        assert NoNewline(rest[0]);
        assert NoNewline([s[0]] + rest[0]);
      }
    }
  }

  lemma {:induction false} JoinConsChar(c: char, lines: seq<string>)
    requires |lines| >= 1
    ensures Join([[c] + lines[0]] + lines[1..]) == [c] + Join(lines)
  {
    var glued := [[c] + lines[0]] + lines[1..];
    assert glued[0] == [c] + lines[0];
    assert glued[1..] == lines[1..];
    if |lines| > 1 {
      var tail := Join(lines[1..]);
      assert Join(glued) == glued[0] + "\n" + tail;
      assert Join(lines) == lines[0] + "\n" + tail;
      assert ([c] + lines[0]) + "\n" + tail == [c] + (lines[0] + "\n" + tail);
    }
  }

  /** Joining the components with "\n" gives back the text. */
  lemma {:induction false} JoinSplit(s: string)
    ensures Join(Split(s)) == s
  {
    if s != [] {
      JoinSplit(s[1..]);
      var rest := Split(s[1..]);
      if s[0] == '\n' {
        assert Split(s)[1..] == rest;
        assert s == "\n" + s[1..];
      } else {
        JoinConsChar(s[0], rest);
        assert s == [s[0]] + s[1..];
      }
    }
  }

  /** A newline-free head stays glued to the first component of what follows it. */
  lemma {:induction false} SplitNewlineFreeHead(x: string, t: string)
    requires NoNewline(x)
    ensures Split(x + t) == [x + Split(t)[0]] + Split(t)[1..]
  {
    if x == [] {
      assert x + t == t;
      assert x + Split(t)[0] == Split(t)[0];
      assert Split(t) == [Split(t)[0]] + Split(t)[1..];
    } else {
      SplitNewlineFreeHead(x[1..], t);
      assert (x + t)[1..] == x[1..] + t;
      assert [x[0]] + (x[1..] + Split(t)[0]) == x + Split(t)[0];
    }
  }

  /** Splitting a join of newline-free components gives back the components. */
  lemma {:induction false} SplitJoin(lines: seq<string>)
    requires |lines| >= 1
    requires forall i :: 0 <= i < |lines| ==> NoNewline(lines[i])
    ensures Split(Join(lines)) == lines
  {
    if |lines| == 1 {
      SplitNewlineFreeHead(lines[0], "");
      assert lines[0] + "" == lines[0];
    } else {
      assert NoNewline(lines[0]);
      SplitJoin(lines[1..]);
      var t := "\n" + Join(lines[1..]);
      SplitNewlineFreeHead(lines[0], t);
      assert lines[0] + "\n" + Join(lines[1..]) == lines[0] + t;
      assert t[0] == '\n' && t[1..] == Join(lines[1..]);
      assert Split(t) == [""] + Split(t[1..]);
      assert Split(t)[0] == "" && Split(t)[1..] == lines[1..];
      assert lines[0] + "" == lines[0];
      assert lines == [lines[0]] + lines[1..];
    }
  }
}
