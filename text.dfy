/** Joining strings into one, as `Array.prototype.join` does, and `Split`,
    which cuts a string at every occurrence of a separator character and so
    gives the pieces back when none of them holds the separator. */
module Text {

  /** `ws.join(sep)` in JavaScript: the pieces with one separator between
      consecutive pieces; the empty list joins to the empty string. */
  function Join(ws: seq<string>, sep: char): string
  {
    if |ws| == 0 then ""
    else if |ws| == 1 then ws[0]
    else ws[0] + [sep] + Join(ws[1..], sep)
  }

  /** Cuts `s` at every occurrence of `sep`: the inverse of `Join` on pieces
      that do not contain the separator. */
  function Split(s: string, sep: char): (r: seq<string>)
    ensures |r| >= 1
  {
    if s == [] then [""]
    else
      var rest := Split(s[1..], sep);
      if s[0] == sep then [""] + rest
      else [[s[0]] + rest[0]] + rest[1..]
  }

  /** The last piece. */
  function Last(ws: seq<string>): string
    requires |ws| > 0
  {
    ws[|ws| - 1]
  }

  /** No piece of `ws` contains the separator. */
  predicate Free(ws: seq<string>, sep: char)
  {
    forall i :: 0 <= i < |ws| ==> sep !in ws[i]
  }

  /** `t` occurs in `s` starting at index `i`. */
  predicate OccursAt(s: string, t: string, i: int)
  {
    0 <= i <= |s| - |t| && s[i..i + |t|] == t
  }

  /** `t` occurs in `s` as a contiguous slice. */
  ghost predicate Contains(s: string, t: string)
  {
    exists i :: OccursAt(s, t, i)
  }

  /** A piece without the separator splits into itself. */
  lemma {:induction false} SplitWithoutSeparator(s: string, sep: char)
    requires sep !in s
    ensures Split(s, sep) == [s]
  {
    if s != [] {
      SplitWithoutSeparator(s[1..], sep);
      assert [s[0]] + s[1..] == s;
    }
  }

  /** The text after the last separator is the last piece. */
  lemma {:induction false} SplitLastPiece(a: string, b: string, sep: char)
    requires sep !in b
    ensures |Split(a + [sep] + b, sep)| >= 2
    ensures Last(Split(a + [sep] + b, sep)) == b
  {
    var s := a + [sep] + b;
    if a == [] {
      assert s[1..] == b;
      SplitWithoutSeparator(b, sep);
    } else {
      assert s[1..] == a[1..] + [sep] + b;
      SplitLastPiece(a[1..], b, sep);
    }
  }

  /** Splitting stops at the first separator when the text before it has none. */
  lemma {:induction false} SplitAtFirstSeparator(a: string, b: string, sep: char)
    requires sep !in a
    ensures Split(a + [sep] + b, sep) == [a] + Split(b, sep)
  {
    var s := a + [sep] + b;
    if a == [] {
      assert s[1..] == b;
    } else {
      SplitAtFirstSeparator(a[1..], b, sep);
      assert s[1..] == a[1..] + [sep] + b;
      assert [a[0]] + a[1..] == a;
    }
  }

  /** Splitting the joined pieces gives the pieces back, provided there is at
      least one and none contains the separator. */
  lemma {:induction false} SplitJoin(ws: seq<string>, sep: char)
    requires |ws| > 0 && Free(ws, sep)
    ensures Split(Join(ws, sep), sep) == ws
  {
    if |ws| == 1 {
      SplitWithoutSeparator(ws[0], sep);
    } else {
      assert Free(ws[1..], sep) by {
        forall i | 0 <= i < |ws[1..]| ensures sep !in ws[1..][i] {
          assert ws[1..][i] == ws[i + 1];
        }
      }
      SplitJoin(ws[1..], sep);
      SplitAtFirstSeparator(ws[0], Join(ws[1..], sep), sep);
      assert [ws[0]] + ws[1..] == ws;
    }
  }

  /** Two lists free of the separator concatenate to one free of it. */
  lemma FreeConcat(a: seq<string>, b: seq<string>, sep: char)
    requires Free(a, sep) && Free(b, sep)
    ensures Free(a + b, sep)
  {
    forall i | 0 <= i < |a + b| ensures sep !in (a + b)[i] {
      if i >= |a| {
        assert (a + b)[i] == b[i - |a|];
      }
    }
  }

  /** A character other than the separator occurs in the joined text only if
      it occurs in one of the pieces. */
  lemma {:induction false} JoinKeepsOut(ws: seq<string>, sep: char, c: char)
    requires c != sep && Free(ws, c)
    ensures c !in Join(ws, sep)
  {
    if |ws| > 1 {
      assert Free(ws[1..], c) by {
        forall i | 0 <= i < |ws[1..]| ensures c !in ws[1..][i] {
          assert ws[1..][i] == ws[i + 1];
        }
      }
      JoinKeepsOut(ws[1..], sep, c);
    }
  }

  /** Every piece occurs verbatim in the joined text: joining neither drops,
      escapes nor rewrites any of them. */
  lemma {:induction false} JoinContainsPiece(ws: seq<string>, sep: char, k: nat)
    requires k < |ws|
    ensures Contains(Join(ws, sep), ws[k])
  {
    var s := Join(ws, sep);
    if |ws| == 1 {
      assert OccursAt(s, ws[k], 0);
    } else if k == 0 {
      assert s[0..|ws[0]|] == ws[0];
      assert OccursAt(s, ws[k], 0);
    } else {
      JoinContainsPiece(ws[1..], sep, k - 1);
      var i :| OccursAt(Join(ws[1..], sep), ws[1..][k - 1], i);
      var off := |ws[0]| + 1;
      assert s[off + i..off + i + |ws[k]|] == Join(ws[1..], sep)[i..i + |ws[k]|];
      assert OccursAt(s, ws[k], off + i);
    }
  }
}
