/**
 Bookkeeping of the cards a deck change takes out and puts in: a new
 entry on one side cancels an equal pending entry on the other side
 instead of being recorded twice.
 */
module Diff {

  /** Index of the first occurrence of `v` in `s`. */
  function FirstIndex<T(==)>(s: seq<T>, v: T): (r: nat)
    requires v in s
    ensures r < |s| && s[r] == v && v !in s[..r]
  {
    if s[0] == v then 0
    else
      var r := 1 + FirstIndex(s[1..], v);
      assert s[..r] == [s[0]] + s[1..][..r - 1];
      r
  }

  /** `s` with its element at index `i` erased. */
  function EraseAt<T>(s: seq<T>, i: nat): (r: seq<T>)
    requires i < |s|
    ensures |r| == |s| - 1
    ensures multiset(r) + multiset{s[i]} == multiset(s)
  {
    assert s == s[..i] + [s[i]] + s[i + 1..];
    s[..i] + s[i + 1..]
  }

  /**
   The pair (self, oppo) after recording `val` on the `self` side:
   the first occurrence of `val` in `oppo` is erased if there is one,
   otherwise `val` is appended to `self`.
   */
  function UnlessRemove<T(==)>(self: seq<T>, oppo: seq<T>, val: T): (seq<T>, seq<T>)
  {
    if val in oppo then (self, EraseAt(oppo, FirstIndex(oppo, val)))
    else (self + [val], oppo)
  }

  /**
   `append_unless_remove`: scans `oppo` for `val`; erases its first
   occurrence and stops, or else appends `val` to `self`.
   */
  method AppendUnlessRemove<T(==)>(self: seq<T>, oppo: seq<T>, val: T) returns (self': seq<T>, oppo': seq<T>)
    ensures val in oppo ==> self' == self && oppo' == oppo[..FirstIndex(oppo, val)] + oppo[FirstIndex(oppo, val) + 1..]
    ensures val !in oppo ==> self' == self + [val] && oppo' == oppo
    ensures (self', oppo') == UnlessRemove(self, oppo, val)
  {
    var i := 0;
    while i < |oppo|
      invariant 0 <= i <= |oppo|
      invariant val !in oppo[..i]
    {
      if oppo[i] == val {
        assert FirstIndex(oppo, val) == i;
        self', oppo' := self, oppo[..i] + oppo[i + 1..];
        return;
      }
      assert oppo[..i + 1] == oppo[..i] + [oppo[i]];
      i := i + 1;
    }
    assert oppo[..i] == oppo;
    self', oppo' := self + [val], oppo;
  }

  /**
   Recording `val` moves the net difference between the two sides by
   exactly `val`: what `self` holds beyond `oppo` grows by one `val`.
   */
  lemma NetChange<T>(self: seq<T>, oppo: seq<T>, val: T)
    ensures var (s', o') := UnlessRemove(self, oppo, val);
      multiset(s') + multiset(oppo) == multiset(self) + multiset(o') + multiset{val}
  {
  }

  /** The combined length of the two sides changes by exactly one. */
  lemma LengthChange<T>(self: seq<T>, oppo: seq<T>, val: T)
    ensures var (s', o') := UnlessRemove(self, oppo, val);
      |s'| + |o'| == if val in oppo then |self| + |oppo| - 1 else |self| + |oppo| + 1
  {
  }

  /** Nothing new appears on either side except `val` itself. */
  lemma NothingElseAppears<T>(self: seq<T>, oppo: seq<T>, val: T)
    ensures var (s', o') := UnlessRemove(self, oppo, val);
      (forall x :: x in s' ==> x in self || x == val) && (forall x :: x in o' ==> x in oppo)
  {
    if val in oppo {
      var i := FirstIndex(oppo, val);
      forall x | x in EraseAt(oppo, i) ensures x in oppo {
        assert x in multiset(EraseAt(oppo, i));
      }
    }
  }
}
