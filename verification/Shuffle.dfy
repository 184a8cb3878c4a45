/** Interleavings: a sequence made of two others, each in its own order; and the
    subsequences that leave some of it out. */
module Shuffle {

  ghost predicate Shuffles<T>(all: seq<T>, a: seq<T>, b: seq<T>) {
    if all == [] then a == [] && b == []
    else
      || (a != [] && all[0] == a[0] && Shuffles(all[1..], a[1..], b))
      || (b != [] && all[0] == b[0] && Shuffles(all[1..], a, b[1..]))
  }

  /** `part` is `all` with some elements left out. */
  ghost predicate Sub<T>(part: seq<T>, all: seq<T>) {
    || part == []
    || (all != [] && part[0] == all[0] && Sub(part[1..], all[1..]))
    || (all != [] && Sub(part, all[1..]))
  }

  lemma {:induction false} ShuffleTurns<T>(all: seq<T>, a: seq<T>, b: seq<T>)
    requires Shuffles(all, a, b)
    ensures Shuffles(all, b, a)
  {
    if all != [] {
      if a != [] && all[0] == a[0] && Shuffles(all[1..], a[1..], b) {
        ShuffleTurns(all[1..], a[1..], b);
      } else {
        ShuffleTurns(all[1..], a, b[1..]);
      }
    }
  }

  /** An interleaving with nothing. */
  lemma {:induction false} ShuffleAlone<T>(all: seq<T>, a: seq<T>)
    ensures Shuffles(all, a, []) <==> all == a
  {
    if all != [] && a != [] {
      ShuffleAlone(all[1..], a[1..]);
      assert all == [all[0]] + all[1..] && a == [a[0]] + a[1..];
    }
  }

  lemma {:induction false} ShuffleHolds<T>(all: seq<T>, a: seq<T>, b: seq<T>)
    requires Shuffles(all, a, b)
    ensures |all| == |a| + |b|
    ensures forall x :: x in all <==> x in a || x in b
  {
    if all != [] {
      assert all == [all[0]] + all[1..];
      if a != [] && all[0] == a[0] && Shuffles(all[1..], a[1..], b) {
        ShuffleHolds(all[1..], a[1..], b);
        assert a == [a[0]] + a[1..];
      } else {
        ShuffleHolds(all[1..], a, b[1..]);
        assert b == [b[0]] + b[1..];
      }
    }
  }

  lemma PrependedTail<T>(head: seq<T>, rest: seq<T>)
    requires head != []
    ensures (head + rest)[0] == head[0] && (head + rest)[1..] == head[1..] + rest
  {
  }

  /** The same beginning can be put before the whole and before one part. */
  lemma {:induction false} ShufflePrepends<T>(head: seq<T>, all: seq<T>, a: seq<T>, b: seq<T>)
    requires Shuffles(all, a, b)
    ensures Shuffles(head + all, head + a, b)
  {
    if head == [] {
      assert head + all == all && head + a == a;
    } else {
      ShufflePrepends(head[1..], all, a, b);
      PrependedTail(head, all);
      PrependedTail(head, a);
    }
  }

  lemma {:induction false} ShuffleIsSub<T>(all: seq<T>, a: seq<T>, b: seq<T>)
    requires Shuffles(all, a, b)
    ensures Sub(a, all)
  {
    if all != [] {
      if a != [] && all[0] == a[0] && Shuffles(all[1..], a[1..], b) {
        ShuffleIsSub(all[1..], a[1..], b);
      } else {
        ShuffleIsSub(all[1..], a, b[1..]);
      }
    }
  }

  lemma {:induction false} SubOfSame<T>(all: seq<T>)
    ensures Sub(all, all)
  {
    if all != [] { SubOfSame(all[1..]); }
  }

  lemma {:induction false} SubHolds<T>(part: seq<T>, all: seq<T>)
    requires Sub(part, all)
    ensures |part| <= |all| && (|part| == |all| ==> part == all)
    ensures forall x :: x in part ==> x in all
  {
    if part != [] {
      assert part == [part[0]] + part[1..] && all == [all[0]] + all[1..];
      if part[0] == all[0] && Sub(part[1..], all[1..]) {
        SubHolds(part[1..], all[1..]);
      } else {
        SubHolds(part, all[1..]);
      }
    }
  }

  lemma {:induction false} SubOfSub<T>(a: seq<T>, b: seq<T>, c: seq<T>)
    requires Sub(a, b) && Sub(b, c)
    ensures Sub(a, c)
    decreases |c|, |b|
  {
    if a != [] {
      if b[0] == c[0] && Sub(b[1..], c[1..]) {
        if a[0] == b[0] && Sub(a[1..], b[1..]) {
          SubOfSub(a[1..], b[1..], c[1..]);
        } else {
          SubOfSub(a, b[1..], c[1..]);
        }
      } else {
        SubOfSub(a, b, c[1..]);
      }
    }
  }

  lemma {:induction false} SubPrepends<T>(head: seq<T>, part: seq<T>, all: seq<T>)
    requires Sub(part, all)
    ensures Sub(part, head + all)
  {
    if head == [] {
      assert head + all == all;
    } else {
      SubPrepends(head[1..], part, all);
      PrependedTail(head, all);
    }
  }

  lemma {:induction false} SubBehind<T>(head: seq<T>, part: seq<T>, all: seq<T>)
    requires Sub(part, all)
    ensures Sub(head + part, head + all)
  {
    if head == [] {
      assert head + all == all && head + part == part;
    } else {
      SubBehind(head[1..], part, all);
      PrependedTail(head, all);
      PrependedTail(head, part);
    }
  }

  /** The same end can be put after both. */
  lemma {:induction false} SubAppends<T>(part: seq<T>, all: seq<T>, more: seq<T>)
    requires Sub(part, all)
    ensures Sub(part + more, all + more)
  {
    if part == [] {
      assert part + more == more;
      SubOfSame(more);
      SubPrepends(all, more, more);
    } else {
      PrependedTail(all, more);
      PrependedTail(part, more);
      if part[0] == all[0] && Sub(part[1..], all[1..]) {
        SubAppends(part[1..], all[1..], more);
      } else {
        SubAppends(part, all[1..], more);
      }
    }
  }
}
