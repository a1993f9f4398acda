/**
 * What the two chat panels share: who wrote a message, and the removal of
 * the first pending ("thinking") entry, which is how both panels take down
 * their indicator when an answer arrives. Only the first entry is taken,
 * and nothing happens when there is none.
 */
module Transcript {
  datatype Role = User | Ai

  /** The position of the first `x` in `s`, or `|s|` when there is none. */
  function IndexOf<T(==)>(s: seq<T>, x: T): (i: nat)
    ensures i <= |s|
    ensures i < |s| <==> x in s
    ensures i < |s| ==> s[i] == x
    ensures forall j | 0 <= j < i :: s[j] != x
  {
    if s == [] || s[0] == x then 0 else 1 + IndexOf(s[1..], x)
  }

  /** `s` without its first `x`; `s` itself when it holds none. */
  function RemoveFirst<T(==)>(s: seq<T>, x: T): (r: seq<T>)
    ensures x !in s ==> r == s
    ensures x in s ==> |r| == |s| - 1
  {
    if s == [] then []
    else if s[0] == x then s[1..]
    else [s[0]] + RemoveFirst(s[1..], x)
  }

  /** Exactly one `x` is taken, when there is one, and nothing else. */
  lemma {:induction false} RemoveFirstMultiset<T>(s: seq<T>, x: T)
    ensures multiset(RemoveFirst(s, x)) == multiset(s) - multiset{x}
  {
    if s != [] {
      assert s == [s[0]] + s[1..];
      RemoveFirstMultiset(s[1..], x);
    }
  }

  /** The removal cuts out exactly the entry at the first position of `x`; the others keep their order. */
  lemma {:induction false} RemoveFirstCutsFirst<T>(s: seq<T>, x: T)
    requires x in s
    ensures RemoveFirst(s, x) == s[..IndexOf(s, x)] + s[IndexOf(s, x) + 1..]
  {
    if s[0] != x {
      var t := s[1..];
      assert x in t;
      RemoveFirstCutsFirst(t, x);
      var i := IndexOf(t, x);
      assert IndexOf(s, x) == i + 1;
      calc {
        RemoveFirst(s, x);
        [s[0]] + RemoveFirst(t, x);
        [s[0]] + (t[..i] + t[i + 1..]);
        { assert s[..i + 1] == [s[0]] + t[..i]; assert s[i + 2..] == t[i + 1..]; }
        s[..i + 1] + s[i + 2..];
      }
    }
  }

  /** Entries appended after the first `x` do not move it: the removal works on the older part. */
  lemma {:induction false} RemoveFirstAppend<T>(a: seq<T>, b: seq<T>, x: T)
    requires x in a
    ensures RemoveFirst(a + b, x) == RemoveFirst(a, x) + b
  {
    if a[0] != x {
      assert (a + b)[1..] == a[1..] + b;
      RemoveFirstAppend(a[1..], b, x);
    } else {
      assert (a + b)[1..] == a[1..] + b;
    }
  }

  /** With no `x` before it, the removal takes the `x` that ends the prefix `a + [x]`. */
  lemma RemoveFirstAfterAbsent<T>(a: seq<T>, b: seq<T>, x: T)
    requires x !in a
    ensures RemoveFirst(a + [x] + b, x) == a + b
  {
    var s := a + [x] + b;
    assert IndexOf(s, x) == |a| by {
      var i := IndexOf(s, x);
      assert s[|a|] == x;
    }
    RemoveFirstCutsFirst(s, x);
    assert s[..|a|] == a;
    assert s[|a| + 1..] == b;
  }

  /** A prefix without `x` is kept whole: the removal happens in what follows it. */
  lemma {:induction false} RemoveFirstSkips<T>(a: seq<T>, t: seq<T>, x: T)
    requires x !in a
    ensures RemoveFirst(a + t, x) == a + RemoveFirst(t, x)
  {
    if a != [] {
      assert (a + t)[0] == a[0] != x;
      assert (a + t)[1..] == a[1..] + t;
      assert x !in a[1..];
      RemoveFirstSkips(a[1..], t, x);
      calc {
        RemoveFirst(a + t, x);
        [a[0]] + RemoveFirst(a[1..] + t, x);
        [a[0]] + (a[1..] + RemoveFirst(t, x));
        { assert a == [a[0]] + a[1..]; }
        a + RemoveFirst(t, x);
      }
    } else {
      assert a + t == t;
    }
  }

  /** Two removals in a row take two entries even when they were added for different purposes. */
  lemma RemoveTwiceTakesBoth<T>(a: seq<T>, y: T, z: T, x: T)
    requires x !in a && y != x && z != x
    ensures RemoveFirst(RemoveFirst(a + [y, x, z, x], x), x) == a + [y, z]
  {
    assert RemoveFirst([y, x, z, x], x) == [y, z, x] by {
      assert [y, x, z, x][1..] == [x, z, x];
      assert [x, z, x][1..] == [z, x];
    }
    RemoveFirstSkips(a, [y, x, z, x], x);
    assert RemoveFirst([y, z, x], x) == [y, z] by {
      assert [y, z, x][1..] == [z, x];
      assert [z, x][1..] == [x];
    }
    RemoveFirstSkips(a, [y, z, x], x);
  }
}
