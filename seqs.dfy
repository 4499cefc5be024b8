/** Identities about sequence prefixes and slices, stated once for any
    element type so that the proofs using them need not rediscover them in
    a context full of other definitions. */
module Seqs {

  lemma PrefixOfAppend<T>(a: seq<T>, b: seq<T>)
    ensures |a| <= |a + b| && (a + b)[..|a|] == a
  {
  }

  lemma ConsOfAppend<T>(a: seq<T>, b: seq<T>)
    requires a != []
    ensures (a + b)[0] == a[0] && (a + b)[1..] == a[1..] + b
  {
  }

  lemma PrefixTrans<T>(x: seq<T>, y: seq<T>, z: seq<T>)
    requires |x| <= |y| <= |z| && y[..|x|] == x && z[..|y|] == y
    ensures z[..|x|] == x
  {
    assert z[..|y|][..|x|] == z[..|x|];
  }

  lemma SplitAt<T>(s: seq<T>, i: nat)
    requires i < |s|
    ensures s == s[..i] + ([s[i]] + s[i + 1..])
  {
  }

  lemma PrefixSplit<T>(x: seq<T>, t: seq<T>, rest: seq<T>, j: nat)
    requires j <= |t|
    ensures var p := x + t[..j]; var all := x + (t + rest);
      |p| <= |all| && all == p + all[|p|..]
  {
    var p := x + t[..j];
    var all := x + (t + rest);
    assert all[..|p|] == p;
  }

  lemma SnocSlice<T>(x: seq<T>, t: seq<T>, j: nat)
    requires j < |t|
    ensures x + t[..j + 1] == (x + t[..j]) + [t[j]]
  {
  }

  lemma SnocPrefix<T>(s: seq<T>, i: nat)
    requires i < |s|
    ensures s[..i + 1] == s[..i] + [s[i]]
  {
  }

  lemma EmptyPrefix<T>(x: seq<T>, t: seq<T>)
    ensures x + t[..0] == x
  {
  }

  lemma WholePrefix<T>(s: seq<T>)
    ensures s[..|s|] == s
  {
  }

  /** The concatenation of `f` over the elements, in order. */
  function Flat<T, U>(f: T -> seq<U>, s: seq<T>): seq<U>
    decreases |s|
  {
    if s == [] then [] else f(s[0]) + Flat(f, s[1..])
  }

  lemma {:induction false} FlatAppend<T, U>(f: T -> seq<U>, a: seq<T>, b: seq<T>)
    ensures Flat(f, a + b) == Flat(f, a) + Flat(f, b)
    decreases |a|
  {
    if a == [] {
      assert a + b == b;
    } else {
      assert (a + b)[0] == a[0];
      assert (a + b)[1..] == a[1..] + b;
      FlatAppend(f, a[1..], b);
    }
  }

  lemma FlatOne<T, U>(f: T -> seq<U>, x: T)
    ensures Flat(f, [x]) == f(x)
  {
    assert [x][1..] == [];
  }
}
