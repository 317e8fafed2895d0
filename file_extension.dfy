/**
 * `'.' + name.split('.').pop()?.toLowerCase()`, the extension rule used both by
 * the upload validator and by the scene manager's loader dispatch.
 */
module FileExtension {

  /** `s.split('.')`: the maximal dot-free pieces between dots, in order (never empty). */
  function Split(s: string): (parts: seq<string>)
    ensures |parts| >= 1
    decreases |s|
  {
    if s == [] then [[]]
    else if s[0] == '.' then [[]] + Split(s[1..])
    else
      var rest := Split(s[1..]);
      [[s[0]] + rest[0]] + rest[1..]
  }

  /** `parts.join(sep)`; with "." it undoes `Split` (see `JoinSplit` and `SplitJoin`). */
  function Join(parts: seq<string>, sep: string): string
  {
    if |parts| == 0 then []
    else if |parts| == 1 then parts[0]
    else parts[0] + sep + Join(parts[1..], sep)
  }

  /** `Array.prototype.pop` on a non-empty array: its last element. */
  function Last(parts: seq<string>): string
    requires |parts| >= 1
  {
    parts[|parts| - 1]
  }

  /** `toLowerCase` restricted to ASCII letters; see README for why this suffices. */
  function LowerChar(c: char): (d: char)
    ensures 'A' <= c <= 'Z' ==> d as int == c as int + 32
    ensures !('A' <= c <= 'Z') ==> d == c
  {
    if 'A' <= c <= 'Z' then (c as int + 32) as char else c
  }

  function Lower(s: string): (r: string)
    ensures |r| == |s|
    ensures forall i :: 0 <= i < |s| ==> r[i] == LowerChar(s[i])
  {
    seq(|s|, i requires 0 <= i < |s| => LowerChar(s[i]))
  }

  /** Lowercasing leaves a name without upper-case ASCII letters unchanged. */
  lemma LowerKeepsLowercase(s: string)
    requires forall i :: 0 <= i < |s| ==> !('A' <= s[i] <= 'Z')
    ensures Lower(s) == s
  {
  }

  /** The extension the source derives from a file name. */
  function Extension(name: string): (ext: string)
    ensures |ext| >= 1 && ext[0] == '.'
  {
    "." + Lower(Last(Split(name)))
  }

  lemma {:induction false} SplitPiecesAreDotFree(s: string)
    ensures forall k :: 0 <= k < |Split(s)| ==> '.' !in Split(s)[k]
    decreases |s|
  {
    if s != [] {
      SplitPiecesAreDotFree(s[1..]);
      if s[0] != '.' {
        var rest := Split(s[1..]);
        assert '.' !in rest[0];
        assert '.' !in [s[0]] + rest[0];
      }
    }
  }

  /** Join undoes Split: gluing the pieces back gives the name again. */
  lemma {:induction false} JoinSplit(s: string)
    ensures Join(Split(s), ".") == s
    decreases |s|
  {
    if s != [] {
      var rest := Split(s[1..]);
      JoinSplit(s[1..]);
      if s[0] == '.' {
        assert Split(s) == [[]] + rest;
        assert Join(Split(s), ".") == [] + "." + Join(rest, ".");
      } else {
        var p := [[s[0]] + rest[0]] + rest[1..];
        assert Split(s) == p;
        if |rest| == 1 {
          assert Join(p, ".") == [s[0]] + rest[0];
        } else {
          assert p[1..] == rest[1..];
          assert Join(p, ".") == [s[0]] + rest[0] + "." + Join(rest[1..], ".");
          assert Join(rest, ".") == rest[0] + "." + Join(rest[1..], ".");
        }
      }
    }
  }

  /** A name without a dot is a single piece. */
  lemma {:induction false} SplitDotless(s: string)
    requires '.' !in s
    ensures Split(s) == [s]
    decreases |s|
  {
    if s != [] {
      assert '.' !in s[1..] by {
        forall k | 0 <= k < |s[1..]| ensures s[1..][k] != '.' { assert s[1..][k] == s[k + 1]; }
      }
      SplitDotless(s[1..]);
      assert s[0] in s;
      assert s == [s[0]] + s[1..];
    }
  }

  /**
   * `pop()` of the split is the longest dot-free suffix of the name: it ends the
   * name, holds no dot, and is either the whole name or preceded by a dot.
   */
  lemma {:induction false} LastPieceIsSuffix(s: string)
    ensures var r := Last(Split(s));
      && |r| <= |s| && s[|s| - |r|..] == r
      && '.' !in r
      && (|r| == |s| || s[|s| - |r| - 1] == '.')
    decreases |s|
  {
    SplitPiecesAreDotFree(s);
    if s != [] {
      LastPieceIsSuffix(s[1..]);
      var rest := Split(s[1..]);
      var r := Last(rest);
      if s[0] == '.' {
        assert Last(Split(s)) == r;
        assert s[1..][|s| - 1 - |r|..] == s[|s| - |r|..];
        if |r| < |s| - 1 {
          assert s[1..][|s| - 1 - |r| - 1] == s[|s| - |r| - 1];
        }
      } else if |rest| == 1 {
        JoinSplit(s[1..]);
        assert r == s[1..];
        assert Last(Split(s)) == [s[0]] + s[1..] == s;
      } else {
        var p := [[s[0]] + rest[0]] + rest[1..];
        assert Last(p) == r;
        assert s[1..][|s| - 1 - |r|..] == s[|s| - |r|..];
        if |r| == |s| - 1 {
          assert r == s[1..];
          SplitDotless(s[1..]);
        }
        assert s[1..][|s| - 1 - |r| - 1] == s[|s| - |r| - 1];
      }
    }
  }

  /** A name with no dot yields "." followed by the whole lowercased name. */
  lemma ExtensionOfDotlessName(name: string)
    requires '.' !in name
    ensures Extension(name) == "." + Lower(name)
  {
    SplitDotless(name);
  }

  /** The extension is determined by what follows the last dot: any prefix ending in a dot can be swapped. */
  lemma {:induction false} ExtensionIgnoresStem(stem: string, tail: string)
    requires '.' !in tail
    ensures Extension(stem + "." + tail) == "." + Lower(tail)
    decreases |stem|
  {
    if stem == [] {
      assert stem + "." + tail == ['.'] + tail;
      assert (['.'] + tail)[1..] == tail;
      SplitDotless(tail);
    } else {
      var s := stem + "." + tail;
      assert s[1..] == stem[1..] + "." + tail;
      ExtensionIgnoresStem(stem[1..], tail);
      SplitNonEmptyLast(s);
    }
  }

  /** Splitting from the second character changes only the first piece, hence not the last unless there is one piece. */
  lemma SplitNonEmptyLast(s: string)
    requires |s| >= 1
    requires '.' in s[1..]
    ensures Last(Split(s)) == Last(Split(s[1..]))
  {
    var rest := Split(s[1..]);
    if s[0] != '.' {
      if |rest| == 1 {
        JoinSplit(s[1..]);
        SplitPiecesAreDotFree(s[1..]);
        assert false;
      }
      var p := [[s[0]] + rest[0]] + rest[1..];
      assert Split(s) == p;
      assert p[|p| - 1] == rest[|rest| - 1];
    }
  }

  /** A dot-free piece followed by a dot splits into that piece, then the split of the rest. */
  lemma {:induction false} SplitAfterPiece(p: string, rest: string)
    requires '.' !in p
    ensures Split(p + "." + rest) == [p] + Split(rest)
    decreases |p|
  {
    var s := p + "." + rest;
    if p == [] {
      assert s == ['.'] + rest;
      assert s[1..] == rest;
    } else {
      assert '.' !in p[1..] by {
        forall k | 0 <= k < |p[1..]| ensures p[1..][k] != '.' { assert p[1..][k] == p[k + 1]; }
      }
      assert s[0] == p[0] && p[0] != '.' by { assert p[0] in p; }
      assert s[1..] == p[1..] + "." + rest;
      SplitAfterPiece(p[1..], rest);
      var r := Split(s[1..]);
      assert r == [p[1..]] + Split(rest);
      assert [s[0]] + r[0] == p;
      assert r[1..] == Split(rest);
    }
  }

  /** Split undoes Join on a non-empty list of dot-free pieces. */
  lemma {:induction false} SplitJoin(parts: seq<string>)
    requires |parts| >= 1
    requires forall i :: 0 <= i < |parts| ==> '.' !in parts[i]
    ensures Split(Join(parts, ".")) == parts
    decreases |parts|
  {
    if |parts| == 1 {
      SplitDotless(parts[0]);
    } else {
      SplitJoin(parts[1..]);
      SplitAfterPiece(parts[0], Join(parts[1..], "."));
      assert parts == [parts[0]] + parts[1..];
    }
  }
}
