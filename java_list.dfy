/** Positional insertion and removal on a java.util.List, stated on sequences. */
module JavaList {

  /** `list.add(i, x)`: x lands at index i and the elements from i on shift one place right. */
  function InsertAt<T>(s: seq<T>, i: nat, x: T): (r: seq<T>)
    requires i <= |s|
    ensures |r| == |s| + 1
    ensures r[..i] == s[..i] && r[i] == x && r[i + 1..] == s[i..]
  {
    s[..i] + [x] + s[i..]
  }

  /** `list.remove(i)`: the element at index i goes and the ones after it shift one place left. */
  function RemoveAt<T>(s: seq<T>, i: nat): (r: seq<T>)
    requires i < |s|
    ensures |r| == |s| - 1
    ensures r[..i] == s[..i] && r[i..] == s[i + 1..]
  {
    s[..i] + s[i + 1..]
  }

  /** Removing what was just inserted gives the list back. */
  lemma RemoveAfterInsert<T>(s: seq<T>, i: nat, x: T)
    requires i <= |s|
    ensures RemoveAt(InsertAt(s, i, x), i) == s
  {
    var t := InsertAt(s, i, x);
    assert RemoveAt(t, i) == t[..i] + t[i + 1..];
    assert s == s[..i] + s[i..];
  }

  /** Putting a removed element back where it was gives the list back. */
  lemma InsertAfterRemove<T>(s: seq<T>, i: nat)
    requires i < |s|
    ensures InsertAt(RemoveAt(s, i), i, s[i]) == s
  {
    var t := RemoveAt(s, i);
    assert t[..i] == s[..i] && t[i..] == s[i + 1..];
    assert s == s[..i] + [s[i]] + s[i + 1..];
  }

  /** Insertion adds exactly one occurrence of the new element. */
  lemma InsertMultiset<T>(s: seq<T>, i: nat, x: T)
    requires i <= |s|
    ensures multiset(InsertAt(s, i, x)) == multiset(s) + multiset{x}
  {
    assert s == s[..i] + s[i..];
    calc {
      multiset(InsertAt(s, i, x));
      multiset(s[..i]) + multiset{x} + multiset(s[i..]);
      multiset(s[..i] + s[i..]) + multiset{x};
    }
  }

  /** Removal takes away exactly one occurrence of the removed element. */
  lemma RemoveMultiset<T>(s: seq<T>, i: nat)
    requires i < |s|
    ensures multiset(RemoveAt(s, i)) == multiset(s) - multiset{s[i]}
  {
    InsertAfterRemove(s, i);
    InsertMultiset(RemoveAt(s, i), i, s[i]);
  }

  /**
   * Removing the element at p and inserting y at k <= p: the prefix before k stays, y sits at k,
   * the elements from k up to p move one place right, and everything after p stays put.
   */
  lemma MoveUp<T>(s: seq<T>, p: nat, k: nat, y: T)
    requires k <= p < |s|
    ensures var t := InsertAt(RemoveAt(s, p), k, y);
      |t| == |s| && t[..k] == s[..k] && t[k] == y &&
      t[k + 1..p + 1] == s[k..p] && t[p + 1..] == s[p + 1..]
  {
    var u := RemoveAt(s, p);
    var t := InsertAt(u, k, y);
    assert t[k + 1..] == u[k..];
    assert u[..p] == s[..p] && u[p..] == s[p + 1..];
    assert t[k + 1..p + 1] == u[k..p] by {
      assert t[k + 1..p + 1] == t[k + 1..][..p - k];
      assert u[k..p] == u[k..][..p - k];
    }
    assert u[k..p] == s[k..p] by {
      assert u[k..p] == u[..p][k..];
      assert s[k..p] == s[..p][k..];
    }
    assert t[p + 1..] == u[p..] by {
      assert t[p + 1..] == t[k + 1..][p - k..];
      assert u[p..] == u[k..][p - k..];
    }
    assert t[..k] == u[..k] == s[..k] by {
      assert u[..k] == u[..p][..k];
      assert s[..k] == s[..p][..k];
    }
  }
}
