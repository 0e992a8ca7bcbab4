/**
 * Operations on the Python lists the marketplace keeps: membership search,
 * `list.remove` (delete the first equal element) and the multiset of all
 * elements of a list of lists.
 */
module Lists {

  /** Position of the first element of `s` equal to `x`, or `|s|` when there is none. */
  function IndexOf<T(==)>(s: seq<T>, x: T): (i: nat)
    ensures i <= |s|
    ensures i < |s| <==> x in s
    ensures i < |s| ==> s[i] == x
    ensures forall j :: 0 <= j < i ==> s[j] != x
  {
    if s == [] then 0
    else if s[0] == x then 0
    else 1 + IndexOf(s[1..], x)
  }

  /**
   * Python's `list.remove(x)`: the list without its first element equal to
   * `x`. Python raises ValueError when `x` is absent, hence the precondition.
   */
  function RemoveFirst<T(==)>(s: seq<T>, x: T): (r: seq<T>)
    requires x in s
    ensures |r| == |s| - 1
    ensures var i := IndexOf(s, x); r == s[..i] + s[i + 1..]
  {
    if s[0] == x then
      s[1..]
    else
      assert x in s[1..];
      var j := IndexOf(s[1..], x);
      assert s[..j + 1] == [s[0]] + s[1..][..j];
      assert s[j + 2..] == s[1..][j + 1..];
      [s[0]] + RemoveFirst(s[1..], x)
  }

  /** `list.remove(x)` takes away exactly one copy of `x` and nothing else. */
  lemma {:induction false} RemoveFirstMultiset<T>(s: seq<T>, x: T)
    requires x in s
    ensures multiset(RemoveFirst(s, x)) + multiset{x} == multiset(s)
  {
    assert s == [s[0]] + s[1..];
    if s[0] != x {
      assert x in s[1..];
      RemoveFirstMultiset(s[1..], x);
    }
  }

  /** Every element of every list in `ss`, with multiplicity. */
  function Total<T>(ss: seq<seq<T>>): multiset<T>
  {
    if ss == [] then multiset{} else multiset(ss[0]) + Total(ss[1..])
  }

  /** Appending a list adds exactly its elements to the total. */
  lemma {:induction false} TotalAppend<T>(ss: seq<seq<T>>, t: seq<T>)
    ensures Total(ss + [t]) == Total(ss) + multiset(t)
  {
    if ss == [] {
      assert ss + [t] == [t];
      assert Total([t][1..]) == multiset{};
    } else {
      assert (ss + [t])[1..] == ss[1..] + [t];
      TotalAppend(ss[1..], t);
    }
  }

  /** Replacing the list at `i` trades its elements for those of the new list. */
  lemma {:induction false} TotalUpdate<T>(ss: seq<seq<T>>, i: nat, t: seq<T>)
    requires i < |ss|
    ensures Total(ss[i := t]) + multiset(ss[i]) == Total(ss) + multiset(t)
  {
    if i == 0 {
      assert ss[i := t][1..] == ss[1..];
    } else {
      assert ss[i := t][0] == ss[0];
      assert ss[i := t][1..] == ss[1..][i - 1 := t];
      assert ss[1..][i - 1] == ss[i];
      TotalUpdate(ss[1..], i - 1, t);
      calc {
        Total(ss[i := t]) + multiset(ss[i]);
        multiset(ss[0]) + Total(ss[1..][i - 1 := t]) + multiset(ss[1..][i - 1]);
        multiset(ss[0]) + (Total(ss[1..][i - 1 := t]) + multiset(ss[1..][i - 1]));
        multiset(ss[0]) + (Total(ss[1..]) + multiset(t));
        Total(ss) + multiset(t);
      }
    }
  }

  /** Multiset union cancels on the right. */
  lemma Cancel<T>(a: multiset<T>, b: multiset<T>, c: multiset<T>)
    requires a + c == b + c
    ensures a == b
  {
    forall y ensures a[y] == b[y] {
      assert (a + c)[y] == (b + c)[y];
    }
  }

  /** Appending `x` to the list at `i` adds one copy of `x` to the total. */
  lemma TotalAppendAt<T>(ss: seq<seq<T>>, i: nat, x: T)
    requires i < |ss|
    ensures Total(ss[i := ss[i] + [x]]) == Total(ss) + multiset{x}
  {
    var t := ss[i] + [x];
    TotalUpdate(ss, i, t);
    var after, before, m := Total(ss[i := t]), Total(ss), multiset(ss[i]);
    assert multiset(t) == m + multiset{x};
    assert after + m == (before + multiset{x}) + m;
    Cancel(after, before + multiset{x}, m);
  }

  /** Removing the first `x` from the list at `i` takes one copy of `x` from the total. */
  lemma TotalRemoveAt<T>(ss: seq<seq<T>>, i: nat, x: T)
    requires i < |ss| && x in ss[i]
    ensures Total(ss[i := RemoveFirst(ss[i], x)]) + multiset{x} == Total(ss)
  {
    var t := RemoveFirst(ss[i], x);
    RemoveFirstMultiset(ss[i], x);
    TotalUpdate(ss, i, t);
    var after, before, n := Total(ss[i := t]), Total(ss), multiset(t);
    assert (after + multiset{x}) + n == before + n;
    Cancel(after + multiset{x}, before, n);
  }

  /** An element occurs in the total exactly when some list holds it. */
  lemma {:induction false} InTotal<T>(ss: seq<seq<T>>, x: T)
    ensures x in Total(ss) <==> exists k :: 0 <= k < |ss| && x in ss[k]
  {
    if ss != [] {
      InTotal(ss[1..], x);
      if x in Total(ss[1..]) {
        var k :| 0 <= k < |ss[1..]| && x in ss[1..][k];
        assert x in ss[k + 1];
      }
      if exists k :: 0 <= k < |ss| && x in ss[k] {
        var k :| 0 <= k < |ss| && x in ss[k];
        if k > 0 {
          assert x in ss[1..][k - 1];
        }
      }
    }
  }
}
