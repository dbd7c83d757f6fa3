/** Splitting a request path into segments the way Go's `strings.Split` does
    when the separator is a single character: k separators give k + 1 pieces,
    and empty pieces (before a leading separator, between two adjacent ones,
    after a trailing one) are kept. */
module Paths {

  /** Number of occurrences of `c` in `s`. */
  function Count(s: string, c: char): (n: nat) {
    if s == [] then 0 else (if s[0] == c then 1 else 0) + Count(s[1..], c)
  }

  /** `c` is counted zero times exactly when it does not occur. */
  lemma {:induction false} CountZero(s: string, c: char)
    ensures Count(s, c) == 0 <==> c !in s
  {
    if s != [] {
      CountZero(s[1..], c);
      assert s == [s[0]] + s[1..];
    }
  }

  /** Occurrences in a concatenation add up. */
  lemma {:induction false} CountAppend(a: string, b: string, c: char)
    ensures Count(a + b, c) == Count(a, c) + Count(b, c)
  {
    if a == [] {
      assert a + b == b;
    } else {
      CountAppend(a[1..], b, c);
      assert (a + b)[0] == a[0] && (a + b)[1..] == a[1..] + b;
    }
  }

  /** No piece contains the separator. */
  predicate SeparatorFree(pieces: seq<string>, sep: char) {
    forall i :: 0 <= i < |pieces| ==> sep !in pieces[i]
  }

  /** `strings.Split(s, string(sep))`. */
  function Split(s: string, sep: char): (pieces: seq<string>)
    ensures |pieces| == Count(s, sep) + 1
    ensures SeparatorFree(pieces, sep)
  {
    if s == [] then [""]
    else
      var rest := Split(s[1..], sep);
      if s[0] == sep then [""] + rest
      else [[s[0]] + rest[0]] + rest[1..]
  }

  /** `strings.Join(pieces, string(sep))`, for at least one piece. */
  function Join(pieces: seq<string>, sep: char): (s: string)
    requires |pieces| >= 1
  {
    if |pieces| == 1 then pieces[0] else pieces[0] + [sep] + Join(pieces[1..], sep)
  }

  /** Joining the pieces back with the separator gives the original string:
      `Split` loses nothing. */
  lemma {:induction false} JoinSplit(s: string, sep: char)
    ensures Join(Split(s, sep), sep) == s
  {
    if s != [] {
      var rest := Split(s[1..], sep);
      JoinSplit(s[1..], sep);
      if s[0] == sep {
        assert Split(s, sep) == [""] + rest;
        assert ([""] + rest)[1..] == rest;
      } else {
        var pieces := Split(s, sep);
        assert pieces == [[s[0]] + rest[0]] + rest[1..];
        if |rest| == 1 {
          assert rest == [s[1..]];
          assert [s[0]] + s[1..] == s;
        } else {
          assert pieces[1..] == rest[1..];
          assert Join(rest, sep) == rest[0] + [sep] + Join(rest[1..], sep);
          assert s == [s[0]] + s[1..];
        }
      }
    }
  }

  /** Splitting a separator-free prefix followed by `t` glues the prefix onto
      the first piece of `t`. */
  lemma {:induction false} SplitFreePrefix(p: string, t: string, sep: char)
    requires sep !in p
    ensures Split(p + t, sep) == [p + Split(t, sep)[0]] + Split(t, sep)[1..]
  {
    var pieces := Split(t, sep);
    if p == [] {
      assert p + t == t;
      assert p + pieces[0] == pieces[0];
    } else {
      var q := p[1..];
      assert (p + t)[0] == p[0] && (p + t)[1..] == q + t;
      SplitFreePrefix(q, t, sep);
      var rest := Split(q + t, sep);
      assert rest == [q + pieces[0]] + pieces[1..];
      assert Split(p + t, sep) == [[p[0]] + rest[0]] + rest[1..];
      assert [p[0]] + (q + pieces[0]) == p + pieces[0];
    }
  }

  /** Splitting the join of separator-free pieces gives those pieces back. */
  lemma {:induction false} SplitJoin(pieces: seq<string>, sep: char)
    requires |pieces| >= 1
    requires SeparatorFree(pieces, sep)
    ensures Split(Join(pieces, sep), sep) == pieces
  {
    if |pieces| == 1 {
      SplitFreePrefix(pieces[0], [], sep);
      assert pieces[0] + [] == pieces[0];
    } else {
      var tail := Join(pieces[1..], sep);
      SplitJoin(pieces[1..], sep);
      assert Split([sep] + tail, sep) == [""] + pieces[1..] by {
        assert ([sep] + tail)[1..] == tail;
      }
      assert pieces[0] + [sep] + tail == pieces[0] + ([sep] + tail);
      SplitFreePrefix(pieces[0], [sep] + tail, sep);
      assert pieces[0] + "" == pieces[0];
    }
  }

  /** A path with exactly three pieces is `p0 + sep + p1 + sep + p2` for its
      pieces. */
  lemma ThreePieces(s: string, sep: char)
    requires |Split(s, sep)| == 3
    ensures var pieces := Split(s, sep);
      s == pieces[0] + [sep] + pieces[1] + [sep] + pieces[2]
  {
    var pieces := Split(s, sep);
    JoinSplit(s, sep);
    assert pieces[1..][1..] == [pieces[2]];
    assert Join(pieces[1..], sep) == pieces[1] + [sep] + pieces[2];
    assert s == pieces[0] + [sep] + (pieces[1] + [sep] + pieces[2]);
  }

  /** Three separator-free parts joined by `sep` split into exactly those parts. */
  lemma SplitThree(p0: string, p1: string, p2: string, sep: char)
    requires sep !in p0 && sep !in p1 && sep !in p2
    ensures Split(p0 + [sep] + p1 + [sep] + p2, sep) == [p0, p1, p2]
  {
    var pieces := [p0, p1, p2];
    assert pieces[1..] == [p1, p2] && pieces[1..][1..] == [p2];
    assert Join(pieces[1..], sep) == p1 + [sep] + p2;
    assert Join(pieces, sep) == p0 + [sep] + p1 + [sep] + p2 by {
      assert p0 + [sep] + (p1 + [sep] + p2) == p0 + [sep] + p1 + [sep] + p2;
    }
    assert SeparatorFree(pieces, sep);
    SplitJoin(pieces, sep);
  }
}
