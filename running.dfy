/**
 * The list of running item ids kept by `Store.addRunning` and
 * `Store.removeRunning`, and Python's `list.remove` on it: remove the first
 * occurrence, or raise when there is none.
 */
module RunningList {

  /** The position of the first occurrence of `x` in `s`. */
  function FirstIndex(s: seq<string>, x: string): (i: nat)
    requires x in s
    ensures i < |s| && s[i] == x
    ensures x !in s[..i]
  {
    if s[0] == x then 0 else
      var i := 1 + FirstIndex(s[1..], x);
      assert s[..i] == [s[0]] + s[1..][..i - 1];
      i
  }

  /** `s` with its first occurrence of `x` taken out, as `list.remove(x)` leaves it. */
  function RemoveFirst(s: seq<string>, x: string): (r: seq<string>)
    requires x in s
    ensures |r| == |s| - 1
    ensures multiset(r) == multiset(s) - multiset{x}
    ensures var i := FirstIndex(s, x); r[..i] == s[..i] && r[i..] == s[i + 1..]
  {
    var i := FirstIndex(s, x);
    assert s == s[..i] + [x] + s[i + 1..];
    s[..i] + s[i + 1..]
  }

  /** Appending `x` and then removing `x` keeps the multiset of ids. */
  lemma AddThenRemove(s: seq<string>, x: string)
    ensures x in s + [x]
    ensures multiset(RemoveFirst(s + [x], x)) == multiset(s)
  {
  }

  /** When `x` was not running before, appending and removing it restores the list exactly. */
  lemma AddThenRemoveFresh(s: seq<string>, x: string)
    requires x !in s
    ensures RemoveFirst(s + [x], x) == s
  {
  }
}
