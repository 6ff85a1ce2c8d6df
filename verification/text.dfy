/** The string operations the edge client relies on: Go's `strings.Split` with a
    one-character separator, its inverse, and `strings.Contains`. */
module Text {

  /** `strings.Split(s, string(sep))`: the pieces between separators; `n`
      separators give `n + 1` pieces, and the empty string gives one empty piece. */
  function Split(s: string, sep: char): (r: seq<string>)
    ensures |r| >= 1
    ensures forall k :: 0 <= k < |r| ==> sep !in r[k]
  {
    if |s| == 0 then [""]
    else
      var rest := Split(s[1..], sep);
      if s[0] == sep then [""] + rest
      else [[s[0]] + rest[0]] + rest[1..]
  }

  /** `strings.Join(parts, string(sep))`. */
  function Join(parts: seq<string>, sep: char): string
    requires |parts| >= 1
  {
    if |parts| == 1 then parts[0] else parts[0] + [sep] + Join(parts[1..], sep)
  }

  /** Splitting and joining back on the same separator gives the input again. */
  lemma {:induction false} JoinSplit(s: string, sep: char)
    ensures Join(Split(s, sep), sep) == s
  {
    if |s| > 0 {
      var rest := Split(s[1..], sep);
      JoinSplit(s[1..], sep);
      if s[0] == sep {
        assert Split(s, sep) == [""] + rest;
        assert (["" ] + rest)[1..] == rest;
      } else {
        var r := Split(s, sep);
        assert r == [[s[0]] + rest[0]] + rest[1..];
        if |rest| == 1 {
          assert r == [[s[0]] + rest[0]];
        } else {
          assert r[1..] == rest[1..];
          assert Join(r, sep) == [s[0]] + rest[0] + [sep] + Join(rest[1..], sep);
        }
      }
    }
  }

  /** Splitting a piece-wise join whose pieces avoid the separator gives the pieces back. */
  lemma {:induction false} SplitJoin(parts: seq<string>, sep: char)
    requires |parts| >= 1
    requires forall k :: 0 <= k < |parts| ==> sep !in parts[k]
    ensures Split(Join(parts, sep), sep) == parts
    decreases |parts|, |parts[0]|
  {
    if |parts[0]| > 0 {
      var p := parts[0];
      var tail := [p[1..]] + parts[1..];
      assert forall k :: 0 <= k < |tail| ==> sep !in tail[k];
      SplitJoin(tail, sep);
      if |parts| == 1 {
        assert Join(parts, sep) == p;
        assert Join(tail, sep) == p[1..];
        assert p == [p[0]] + p[1..];
      } else {
        assert Join(parts, sep) == p + [sep] + Join(parts[1..], sep);
        assert Join(tail, sep) == p[1..] + [sep] + Join(parts[1..], sep);
        assert Join(parts, sep)[1..] == Join(tail, sep);
        assert Join(parts, sep)[0] == p[0];
        assert tail[1..] == parts[1..];
        assert [p[0]] + p[1..] == p;
        assert [p] + parts[1..] == parts;
      }
    } else if |parts| > 1 {
      SplitJoin(parts[1..], sep);
      assert Join(parts, sep) == [sep] + Join(parts[1..], sep);
      assert Join(parts, sep)[1..] == Join(parts[1..], sep);
      assert [""] + parts[1..] == parts;
    }
  }

  /** `sub` occurs in `s` starting at index `i`. */
  predicate OccursAt(s: string, sub: string, i: nat)
    requires i + |sub| <= |s|
  {
    s[i..i + |sub|] == sub
  }

  /** `strings.Contains(s, sub)`. */
  predicate Contains(s: string, sub: string) {
    exists i: nat :: i + |sub| <= |s| && OccursAt(s, sub, i)
  }

  /** `strings.Split(line, " ")[len - 1]`: the text after the last space. */
  function LastToken(line: string): (t: string)
    ensures ' ' !in t
  {
    var parts := Split(line, ' ');
    parts[|parts| - 1]
  }

  /** The last token is a suffix of the line, and the line is either that token
      alone or has a space right before it. */
  lemma LastTokenIsSuffix(line: string)
    ensures var t := LastToken(line);
      |t| <= |line| && line[|line| - |t|..] == t && (|t| < |line| ==> line[|line| - |t| - 1] == ' ')
  {
    JoinSplit(line, ' ');
    LastPieceSuffix(Split(line, ' '), ' ');
  }

  /** The last piece of a join is a suffix, preceded by the separator unless it is everything. */
  lemma {:induction false} LastPieceSuffix(parts: seq<string>, sep: char)
    requires |parts| >= 1
    ensures var s := Join(parts, sep); var p := parts[|parts| - 1];
      |p| <= |s| && s[|s| - |p|..] == p && (|parts| > 1 ==> |p| < |s| && s[|s| - |p| - 1] == sep)
    decreases |parts|
  {
    if |parts| > 1 {
      LastPieceSuffix(parts[1..], sep);
      assert parts[1..][|parts[1..]| - 1] == parts[|parts| - 1];
    }
  }
}
