/**
 * The shuffle bag behind `getNextSpawnType`: ten slots, three of them "spawn a target",
 * shuffled by Fisher–Yates whenever the bag runs empty.
 */
module Bag {

  /** The bag before shuffling: three targets, seven distractors. */
  const FreshBag: seq<bool> := [true, true, true, false, false, false, false, false, false, false]

  /** Number of random draws one Fisher–Yates pass over ten slots needs. */
  const ShuffleDraws: nat := 9

  /**
   * A freshly shuffled bag. `picks[k]` is the random draw of the pass with `i == 9 - k`;
   * it is reduced to `0..i`, the range of a uniform whole-number draw up to and including `i`.
   */
  method ShuffledBag(picks: seq<nat>) returns (bag: seq<bool>)
    requires |picks| == ShuffleDraws
    ensures |bag| == |FreshBag|
    ensures multiset(bag) == multiset(FreshBag)
    ensures multiset(bag)[true] == 3 && multiset(bag)[false] == 7
  {
    var a := new bool[|FreshBag|](k requires 0 <= k < |FreshBag| => FreshBag[k]);
    assert a[..] == FreshBag;
    var i := a.Length - 1;
    while i > 0
      invariant 0 <= i < a.Length
      invariant multiset(a[..]) == multiset(FreshBag)
    {
      var j := picks[a.Length - 1 - i] % (i + 1);
      Swap(a, i, j);
      i := i - 1;
    }
    bag := a[..];
    FreshCounts();
  }

  /** One Fisher–Yates step: exchange two slots, which keeps the bag's contents. */
  method Swap(a: array<bool>, i: nat, j: nat)
    requires i < a.Length && j < a.Length
    modifies a
    ensures a[i] == old(a[j]) && a[j] == old(a[i])
    ensures forall k :: 0 <= k < a.Length && k != i && k != j ==> a[k] == old(a[k])
    ensures multiset(a[..]) == old(multiset(a[..]))
  {
    a[i], a[j] := a[j], a[i];
  }

  lemma FreshCounts()
    ensures multiset(FreshBag)[true] == 3 && multiset(FreshBag)[false] == 7
  {
  }

  /** Every slot is a target or a distractor. */
  lemma {:induction false} SizeIsCounts(s: seq<bool>)
    ensures |s| == multiset(s)[true] + multiset(s)[false]
  {
    if s != [] {
      var n := |s| - 1;
      assert s == s[..n] + [s[n]];
      assert multiset(s) == multiset(s[..n]) + multiset{s[n]};
      if s[n] {
        assert multiset{s[n]}[true] == 1 && multiset{s[n]}[false] == 0;
      } else {
        assert multiset{s[n]}[true] == 0 && multiset{s[n]}[false] == 1;
      }
      SizeIsCounts(s[..n]);
    }
  }

  /**
   * The bag's bookkeeping between refills: `cycle` holds the decisions drawn since the
   * last refill, and together with the slots still in the bag they make up one fresh
   * bag of three targets and seven distractors.
   */
  ghost predicate BagOk(bag: seq<bool>, cycle: seq<bool>) {
    (bag == [] && cycle == []) ||
    (multiset(cycle)[true] + multiset(bag)[true] == 3 &&
     multiset(cycle)[false] + multiset(bag)[false] == 7)
  }

  /** Ten decisions drawn from one shuffled bag hold exactly three targets, and the bag is then empty. */
  lemma CycleRatio(bag: seq<bool>, cycle: seq<bool>)
    requires BagOk(bag, cycle) && |cycle| == |FreshBag|
    ensures bag == [] && multiset(cycle)[true] == 3 && multiset(cycle)[false] == 7
  {
    SizeIsCounts(bag);
    SizeIsCounts(cycle);
  }

  /** Popping the last slot moves it from the bag to the cycle, keeping the bookkeeping. */
  lemma PopKeepsBag(bag: seq<bool>, cycle: seq<bool>)
    requires BagOk(bag, cycle) && bag != []
    ensures BagOk(bag[..|bag| - 1], cycle + [bag[|bag| - 1]])
  {
    var n := |bag| - 1;
    assert bag == bag[..n] + [bag[n]];
    assert multiset(bag) == multiset(bag[..n]) + multiset{bag[n]};
    assert multiset(cycle + [bag[n]]) == multiset(cycle) + multiset{bag[n]};
  }
}
