/** Python's ordering of `str` values and the `sep.join` / `str.split` pair. */
module Strings {

  /** Python's `a < b` on `str`: code points compared left to right, and a
      proper prefix sorts before the longer string. */
  predicate Less(a: string, b: string)
    decreases |a|
  {
    if |a| == 0 then |b| > 0
    else if |b| == 0 then false
    else if a[0] != b[0] then a[0] < b[0]
    else Less(a[1..], b[1..])
  }

  /** The textbook form of the same order: `b` extends `a`, or the two agree
      up to some position where `a` has the smaller code point. */
  ghost predicate LessByFirstDifference(a: string, b: string)
  {
    (|a| < |b| && a == b[..|a|]) ||
    (exists k :: 0 <= k < |a| && k < |b| && a[..k] == b[..k] && a[k] < b[k])
  }

  lemma {:induction false} LessIffFirstDifference(a: string, b: string)
    ensures Less(a, b) <==> LessByFirstDifference(a, b)
    decreases |a|
  {
    if |a| == 0 || |b| == 0 {
    } else if a[0] != b[0] {
      FirstDifferenceAtHead(a, b);
    } else {
      LessIffFirstDifference(a[1..], b[1..]);
      FirstDifferenceShift(a, b);
    }
  }

  lemma FirstDifferenceAtHead(a: string, b: string)
    requires |a| > 0 && |b| > 0 && a[0] != b[0]
    ensures LessByFirstDifference(a, b) <==> a[0] < b[0]
  {
    if |a| < |b| { assert b[..|a|][0] == b[0]; }
    forall k | 0 < k <= |a| && k <= |b|
      ensures a[..k][0] == a[0] && b[..k][0] == b[0]
    {
    }
    if a[0] < b[0] { assert a[..0] == b[..0]; }
  }

  lemma FirstDifferenceShift(a: string, b: string)
    requires |a| > 0 && |b| > 0 && a[0] == b[0]
    ensures LessByFirstDifference(a, b) <==> LessByFirstDifference(a[1..], b[1..])
  {
    var a', b' := a[1..], b[1..];
    if LessByFirstDifference(a', b') {
      if |a'| < |b'| && a' == b'[..|a'|] {
        assert a == [a[0]] + a' && b[..|a|] == [b[0]] + b'[..|a'|];
      } else {
        var k :| 0 <= k < |a'| && k < |b'| && a'[..k] == b'[..k] && a'[k] < b'[k];
        assert a[..k + 1] == [a[0]] + a'[..k] && b[..k + 1] == [b[0]] + b'[..k];
        assert a[k + 1] == a'[k] && b[k + 1] == b'[k];
      }
    }
    if LessByFirstDifference(a, b) {
      if |a| < |b| && a == b[..|a|] {
        assert a' == b'[..|a'|];
      } else {
        var k :| 0 <= k < |a| && k < |b| && a[..k] == b[..k] && a[k] < b[k];
        assert k > 0;
        assert a'[..k - 1] == a[..k][1..] && b'[..k - 1] == b[..k][1..];
        assert a'[k - 1] == a[k] && b'[k - 1] == b[k];
      }
    }
  }

  lemma {:induction false} LessIrreflexive(a: string)
    ensures !Less(a, a)
    decreases |a|
  {
    if |a| > 0 { LessIrreflexive(a[1..]); }
  }

  lemma {:induction false} LessTransitive(a: string, b: string, c: string)
    requires Less(a, b) && Less(b, c)
    ensures Less(a, c)
    decreases |a|
  {
    if |a| > 0 && a[0] == b[0] && b[0] == c[0] {
      LessTransitive(a[1..], b[1..], c[1..]);
    }
  }

  lemma {:induction false} LessTrichotomous(a: string, b: string)
    ensures a == b || Less(a, b) || Less(b, a)
    decreases |a|
  {
    if |a| > 0 && |b| > 0 && a[0] == b[0] {
      LessTrichotomous(a[1..], b[1..]);
      if a[1..] == b[1..] {
        assert a == [a[0]] + a[1..] && b == [b[0]] + b[1..];
      }
    }
  }

  lemma LessAsymmetric(a: string, b: string)
    requires Less(a, b)
    ensures !Less(b, a)
  {
    if Less(b, a) {
      LessTransitive(a, b, a);
      LessIrreflexive(a);
    }
  }

  /** What `sorted(set(...))` yields: strictly increasing under `Less`. */
  ghost predicate StrictlyIncreasing(s: seq<string>)
  {
    forall i, j :: 0 <= i < j < |s| ==> Less(s[i], s[j])
  }

  /** Python's `sep.join(parts)`. */
  function Join(sep: string, parts: seq<string>): string
  {
    if |parts| == 0 then ""
    else if |parts| == 1 then parts[0]
    else parts[0] + sep + Join(sep, parts[1..])
  }

  /** Python's `s.split(c)` for a one-character separator `c`. */
  function Split(s: string, c: char): (r: seq<string>)
    ensures |r| > 0
  {
    if |s| == 0 then [""]
    else if s[0] == c then [""] + Split(s[1..], c)
    else var rest := Split(s[1..], c); [[s[0]] + rest[0]] + rest[1..]
  }

  /** Splitting a piece that holds no separator, followed by more text. */
  lemma {:induction false} SplitPiece(p: string, c: char, tail: string, withSep: bool)
    requires c !in p
    ensures withSep ==> Split(p + [c] + tail, c) == [p] + Split(tail, c)
    ensures !withSep ==> Split(p, c) == [p]
    decreases |p|
  {
    if |p| == 0 {
      if withSep { assert p + [c] + tail == [c] + tail; }
    } else {
      SplitPiece(p[1..], c, tail, withSep);
      if withSep {
        assert (p + [c] + tail)[1..] == p[1..] + [c] + tail;
      }
      assert [p[0]] + p[1..] == p;
    }
  }

  /** `split` undoes `join` when no part holds the separator. */
  lemma {:induction false} SplitJoin(parts: seq<string>, c: char)
    requires |parts| > 0
    requires forall i :: 0 <= i < |parts| ==> c !in parts[i]
    ensures Split(Join([c], parts), c) == parts
    decreases |parts|
  {
    if |parts| == 1 {
      SplitPiece(parts[0], c, "", false);
    } else {
      SplitJoin(parts[1..], c);
      SplitPiece(parts[0], c, Join([c], parts[1..]), true);
      assert [parts[0]] + parts[1..] == parts;
    }
  }

  /** The pieces of `xs`, rendered by `piece` and concatenated in order: the
      string a loop `ret = ret + piece(x)` accumulates. */
  function Concat<T>(xs: seq<T>, piece: T --> string): string
    requires forall x :: x in xs ==> piece.requires(x)
    decreases |xs|
  {
    if xs == [] then "" else Concat(xs[..|xs| - 1], piece) + piece(xs[|xs| - 1])
  }

  lemma {:induction false} ConcatAppend<T>(a: seq<T>, b: seq<T>, piece: T --> string)
    requires forall x :: x in a ==> piece.requires(x)
    requires forall x :: x in b ==> piece.requires(x)
    ensures forall x :: x in a + b ==> piece.requires(x)
    ensures Concat(a + b, piece) == Concat(a, piece) + Concat(b, piece)
    decreases |b|
  {
    if b == [] {
      assert a + b == a;
    } else {
      var b' := b[..|b| - 1];
      ConcatAppend(a, b', piece);
      assert (a + b)[..|a + b| - 1] == a + b';
      assert (a + b)[|a + b| - 1] == b[|b| - 1];
    }
  }

  /** One more piece at the end. */
  lemma ConcatSnoc<T>(xs: seq<T>, i: nat, piece: T --> string)
    requires i < |xs|
    requires forall x :: x in xs ==> piece.requires(x)
    ensures forall x :: x in xs[..i + 1] ==> piece.requires(x)
    ensures Concat(xs[..i + 1], piece) == Concat(xs[..i], piece) + piece(xs[i])
  {
    assert xs[..i + 1][..i] == xs[..i];
  }

  /** `xs[..|xs|] == xs` for Concat, stated once so loops need not prove it. */
  lemma ConcatAll<T>(xs: seq<T>, piece: T --> string)
    requires forall x :: x in xs ==> piece.requires(x)
    ensures Concat(xs[..|xs|], piece) == Concat(xs, piece)
  {
    assert xs[..|xs|] == xs;
  }

  /** Piece `i` sits between the pieces before it and the pieces after it. */
  lemma ConcatSplit<T>(xs: seq<T>, i: nat, piece: T --> string)
    requires i < |xs|
    requires forall x :: x in xs ==> piece.requires(x)
    ensures Concat(xs, piece) == Concat(xs[..i], piece) + piece(xs[i]) + Concat(xs[i + 1..], piece)
  {
    assert xs == xs[..i + 1] + xs[i + 1..];
    ConcatSnoc(xs, i, piece);
    ConcatAppend(xs[..i + 1], xs[i + 1..], piece);
  }

  /** The first piece, then the rest. */
  lemma ConcatFront<T>(xs: seq<T>, piece: T --> string)
    requires xs != []
    requires forall x :: x in xs ==> piece.requires(x)
    ensures Concat(xs, piece) == piece(xs[0]) + Concat(xs[1..], piece)
  {
    assert xs == [xs[0]] + xs[1..];
    ConcatAppend([xs[0]], xs[1..], piece);
    ConcatSingle(xs[0], piece);
  }

  /** With one piece. */
  lemma ConcatSingle<T>(x: T, piece: T --> string)
    requires piece.requires(x)
    ensures Concat([x], piece) == piece(x)
  {
    assert [x][..0] == [];
  }

  /** `t` occurs in `s` at position `k`. */
  predicate OccursAt(t: string, s: string, k: int)
  {
    0 <= k <= |s| - |t| && s[k..k + |t|] == t
  }

  /** `t` occurs in `s`. */
  ghost predicate Occurs(t: string, s: string)
  {
    exists k :: OccursAt(t, s, k)
  }

  lemma OccursInMiddle(p: string, t: string, q: string)
    ensures Occurs(t, p + t + q)
  {
    assert (p + t + q)[|p|..|p| + |t|] == t;
    assert OccursAt(t, p + t + q, |p|);
  }

  lemma OccursPrefix(t: string, q: string)
    ensures Occurs(t, t + q)
  {
    assert (t + q)[..|t|] == t;
    assert OccursAt(t, t + q, 0);
  }

  lemma OccursSuffix(p: string, t: string)
    ensures Occurs(t, p + t)
  {
    assert (p + t)[|p|..] == t;
    assert OccursAt(t, p + t, |p|);
  }

  lemma OccursTransitive(t: string, u: string, v: string)
    requires Occurs(t, u) && Occurs(u, v)
    ensures Occurs(t, v)
  {
    var k1 :| OccursAt(t, u, k1);
    var k2 :| OccursAt(u, v, k2);
    forall n | 0 <= n < |t|
      ensures v[k2 + k1..k2 + k1 + |t|][n] == t[n]
    {
      assert u[k1 + n] == t[n];
      assert v[k2 + k1 + n] == u[k1 + n];
    }
    assert OccursAt(t, v, k2 + k1);
  }

  /** Each piece occurs in the concatenation. */
  lemma ConcatOccurs<T>(xs: seq<T>, i: nat, piece: T --> string)
    requires i < |xs|
    requires forall x :: x in xs ==> piece.requires(x)
    ensures Occurs(piece(xs[i]), Concat(xs, piece))
  {
    ConcatSplit(xs, i, piece);
    OccursInMiddle(Concat(xs[..i], piece), piece(xs[i]), Concat(xs[i + 1..], piece));
  }
}
