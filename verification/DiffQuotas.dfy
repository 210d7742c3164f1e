/**
 The fair-share split of a rule group's diff budget
 (allocateDiffQuotas in internal/agent/review_with_ocr.go).
 */
module DiffQuotas {

  // ----- what a fair share is -----

  function Min(a: nat, b: nat): nat { if a <= b then a else b }

  function Total(sizes: seq<nat>): nat {
    if sizes == [] then 0 else Total(sizes[..|sizes| - 1]) + sizes[|sizes| - 1]
  }

  /** Every section takes its own size or the level, whichever is smaller. */
  function Capped(sizes: seq<nat>, level: nat): (r: seq<nat>)
    ensures |r| == |sizes|
    ensures forall k | 0 <= k < |r| :: r[k] == Min(sizes[k], level)
  {
    seq(|sizes|, k requires 0 <= k < |sizes| => Min(sizes[k], level))
  }

  /** level is the highest one the budget affords. */
  ghost predicate FairLevel(sizes: seq<nat>, budget: int, level: nat) {
    Total(Capped(sizes, level)) <= budget < Total(Capped(sizes, level + 1))
  }

  /** The split the source promises. */
  ghost predicate FairShare(sizes: seq<nat>, budget: int, quotas: seq<nat>) {
    if Total(sizes) <= budget then quotas == sizes
    else if budget < 0 then quotas == Capped(sizes, 0)
    else exists level: nat :: FairLevel(sizes, budget, level) && quotas == Capped(sizes, level)
  }

  lemma TotalMeans(sizes: seq<nat>, size: nat)
    ensures Total([]) == 0 && Total(sizes + [size]) == Total(sizes) + size
  {
    assert (sizes + [size])[..|sizes|] == sizes;
  }

  /**
   A fair share in so many words: what fits is given in full; otherwise a section no larger than some level is, and
   every other gets the level, together within the budget, while one byte more for each would go over it.
   */
  lemma FairShareMeans(sizes: seq<nat>, budget: int, quotas: seq<nat>)
    requires FairShare(sizes, budget, quotas)
    ensures Total(sizes) <= budget ==> quotas == sizes
    ensures budget < 0 ==> |quotas| == |sizes| && forall k | 0 <= k < |quotas| :: quotas[k] == 0
    ensures 0 <= budget < Total(sizes) ==> exists level: nat :: EvenlyCut(sizes, budget, quotas, level)
  {
    if 0 <= budget < Total(sizes) {
      var level: nat :| FairLevel(sizes, budget, level) && quotas == Capped(sizes, level);
      assert OneAbove(sizes, level) == Capped(sizes, level + 1);
      assert EvenlyCut(sizes, budget, quotas, level);
    }
  }

  /** Every section cut one byte above the level. */
  function OneAbove(sizes: seq<nat>, level: nat): seq<nat> {
    seq(|sizes|, k requires 0 <= k < |sizes| => if sizes[k] <= level then sizes[k] else level + 1)
  }

  ghost predicate EvenlyCut(sizes: seq<nat>, budget: int, quotas: seq<nat>, level: nat) {
    && |quotas| == |sizes|
    && (forall k | 0 <= k < |sizes| :: quotas[k] == if sizes[k] <= level then sizes[k] else level)
    && Total(quotas) <= budget < Total(OneAbove(sizes, level))
  }

  lemma {:induction false} CappedMonotone(sizes: seq<nat>, low: nat, high: nat)
    requires low <= high
    ensures Total(Capped(sizes, low)) <= Total(Capped(sizes, high)) <= Total(sizes)
  {
    if sizes != [] {
      var n := |sizes| - 1;
      assert Capped(sizes, low)[..n] == Capped(sizes[..n], low);
      assert Capped(sizes, high)[..n] == Capped(sizes[..n], high);
      CappedMonotone(sizes[..n], low, high);
    }
  }

  /** "The largest level" in so many words: a level is affordable exactly up to the fair one. */
  lemma FairLevelIsLargest(sizes: seq<nat>, budget: int, level: nat, other: nat)
    requires FairLevel(sizes, budget, level)
    ensures Total(Capped(sizes, other)) <= budget <==> other <= level
  {
    if other <= level {
      CappedMonotone(sizes, other, level);
    } else {
      CappedMonotone(sizes, level + 1, other);
    }
  }

  lemma FairLevelUnique(sizes: seq<nat>, budget: int, a: nat, b: nat)
    requires FairLevel(sizes, budget, a) && FairLevel(sizes, budget, b)
    ensures a == b
  {
    FairLevelIsLargest(sizes, budget, a, b);
    FairLevelIsLargest(sizes, budget, b, a);
  }

  /** The promise determines the quotas. */
  lemma FairShareUnique(sizes: seq<nat>, budget: int, a: seq<nat>, b: seq<nat>)
    requires FairShare(sizes, budget, a) && FairShare(sizes, budget, b)
    ensures a == b
  {
    if Total(sizes) > budget >= 0 {
      var la: nat :| FairLevel(sizes, budget, la) && a == Capped(sizes, la);
      var lb: nat :| FairLevel(sizes, budget, lb) && b == Capped(sizes, lb);
      FairLevelUnique(sizes, budget, la, lb);
    }
  }

  /** No quota exceeds its section, and together they stay in a non-negative budget. */
  lemma FairShareFits(sizes: seq<nat>, budget: int, quotas: seq<nat>)
    requires FairShare(sizes, budget, quotas)
    ensures |quotas| == |sizes|
    ensures forall k | 0 <= k < |sizes| :: quotas[k] <= sizes[k]
    ensures budget >= 0 ==> Total(quotas) <= budget
  {
  }

  /** When the sections do not all fit, some section is cut. */
  lemma FairShareCuts(sizes: seq<nat>, budget: int, quotas: seq<nat>)
    requires FairShare(sizes, budget, quotas) && Total(sizes) > budget >= 0
    ensures exists k :: 0 <= k < |sizes| && quotas[k] < sizes[k]
  {
    FairShareFits(sizes, budget, quotas);
    SomeSmaller(quotas, sizes);
  }

  lemma {:induction false} SomeSmaller(a: seq<nat>, b: seq<nat>)
    requires |a| == |b| && Total(a) < Total(b)
    ensures exists k :: 0 <= k < |a| && a[k] < b[k]
  {
    var n := |a| - 1;
    if a[n] >= b[n] {
      SomeSmaller(a[..n], b[..n]);
      var k :| 0 <= k < n && a[..n][k] < b[..n][k];
      assert a[k] < b[k];
    }
  }

  // ----- the allocator's rounds -----

  /** The positions of the sections above a share, in order. */
  function Above(sizes: seq<nat>, share: nat): seq<nat> {
    if sizes == [] then []
    else
      var n := |sizes| - 1;
      Above(sizes[..n], share) + if sizes[n] > share then [n] else []
  }

  /** The bytes the sections at or below a share take. */
  function Settled(sizes: seq<nat>, share: nat): nat {
    if sizes == [] then 0
    else
      var n := |sizes| - 1;
      Settled(sizes[..n], share) + if sizes[n] <= share then sizes[n] else 0
  }

  lemma {:induction false} AboveMembers(sizes: seq<nat>, share: nat)
    ensures forall i | i in Above(sizes, share) :: i < |sizes| && sizes[i] > share
    ensures forall i: nat | i < |sizes| && sizes[i] > share :: i in Above(sizes, share)
  {
    if sizes != [] {
      AboveMembers(sizes[..|sizes| - 1], share);
    }
  }

  lemma OneMore(level: nat, n: nat, m: nat)
    requires m == n + 1
    ensures level * m == level * n + level
  {
  }

  /** Total of the capped sizes: what settles below the level plus the level for everyone above. */
  lemma {:induction false} CappedTotal(sizes: seq<nat>, level: nat)
    ensures Total(Capped(sizes, level)) == Settled(sizes, level) + level * |Above(sizes, level)|
  {
    if sizes != [] {
      var n := |sizes| - 1;
      CappedTotal(sizes[..n], level);
      assert Capped(sizes, level)[..n] == Capped(sizes[..n], level);
      OneMore(level, |Above(sizes[..n], level)|, |Above(sizes[..n], level)| + 1);
    }
  }

  /** One level higher costs one byte more for everyone above. */
  lemma {:induction false} NextLevel(sizes: seq<nat>, level: nat)
    ensures Total(Capped(sizes, level + 1)) == Total(Capped(sizes, level)) + |Above(sizes, level)|
  {
    if sizes != [] {
      var n := |sizes| - 1;
      NextLevel(sizes[..n], level);
      assert Capped(sizes, level)[..n] == Capped(sizes[..n], level);
      assert Capped(sizes, level + 1)[..n] == Capped(sizes[..n], level + 1);
    }
  }

  function SizeAt(sizes: seq<nat>, i: nat): nat { if i < |sizes| then sizes[i] else 0 }

  /** Sum of the sizes at the listed positions. */
  function SumAt(sizes: seq<nat>, at: seq<nat>): nat {
    if at == [] then 0 else SumAt(sizes, at[..|at| - 1]) + SizeAt(sizes, at[|at| - 1])
  }

  function KeepAbove(sizes: seq<nat>, at: seq<nat>, share: nat): seq<nat> {
    if at == [] then []
    else
      var rest := KeepAbove(sizes, at[..|at| - 1], share);
      if SizeAt(sizes, at[|at| - 1]) > share then rest + [at[|at| - 1]] else rest
  }

  /** Sum of those sizes at the listed positions that fit the share. */
  function FitAt(sizes: seq<nat>, at: seq<nat>, share: nat): nat {
    if at == [] then 0
    else
      var last := SizeAt(sizes, at[|at| - 1]);
      FitAt(sizes, at[..|at| - 1], share) + if last <= share then last else 0
  }

  ghost predicate Within(at: seq<nat>, n: nat) { forall k | 0 <= k < |at| :: at[k] < n }

  lemma {:induction false} AboveWithin(sizes: seq<nat>, share: nat)
    ensures Within(Above(sizes, share), |sizes|)
  {
    if sizes != [] {
      AboveWithin(sizes[..|sizes| - 1], share);
    }
  }

  /** These only look at the sizes of the listed positions. */
  lemma {:induction false} Extend(sizes: seq<nat>, more: seq<nat>, at: seq<nat>, share: nat)
    requires Within(at, |sizes|)
    ensures SumAt(sizes + more, at) == SumAt(sizes, at)
    ensures KeepAbove(sizes + more, at, share) == KeepAbove(sizes, at, share)
    ensures FitAt(sizes + more, at, share) == FitAt(sizes, at, share)
  {
    if at != [] {
      Extend(sizes, more, at[..|at| - 1], share);
    }
  }

  lemma Snoc(sizes: seq<nat>, at: seq<nat>, i: nat, share: nat)
    ensures SumAt(sizes, at + [i]) == SumAt(sizes, at) + SizeAt(sizes, i)
    ensures KeepAbove(sizes, at + [i], share)
         == KeepAbove(sizes, at, share) + if SizeAt(sizes, i) > share then [i] else []
    ensures FitAt(sizes, at + [i], share)
         == FitAt(sizes, at, share) + if SizeAt(sizes, i) <= share then SizeAt(sizes, i) else 0
  {
    assert (at + [i])[..|at|] == at;
  }

  /** The pending sections and the settled ones make up the whole. */
  lemma {:induction false} PendingTotal(sizes: seq<nat>, low: nat)
    ensures SumAt(sizes, Above(sizes, low)) + Settled(sizes, low) == Total(sizes)
  {
    if sizes != [] {
      var n := |sizes| - 1;
      var init := sizes[..n];
      PendingTotal(init, low);
      AboveWithin(init, low);
      assert sizes == init + [sizes[n]];
      Extend(init, [sizes[n]], Above(init, low), low);
      Snoc(sizes, Above(init, low), n, low);
      assert Above(sizes, low) == Above(init, low) + if sizes[n] > low then [n] else [];
      assert Above(init, low) + [] == Above(init, low);
    }
  }

  /** One round in closed form: raising the share from low to high. */
  lemma {:induction false} Round(sizes: seq<nat>, low: nat, high: nat)
    requires low <= high
    ensures KeepAbove(sizes, Above(sizes, low), high) == Above(sizes, high)
    ensures FitAt(sizes, Above(sizes, low), high) + Settled(sizes, low) == Settled(sizes, high)
  {
    if sizes != [] {
      var n := |sizes| - 1;
      var init, before, after := sizes[..n], Above(sizes[..n], low), Above(sizes[..n], high);
      Round(init, low, high);
      AboveWithin(init, low);
      assert sizes == init + [sizes[n]];
      Extend(init, [sizes[n]], before, high);
      Snoc(sizes, before, n, high);
      if sizes[n] > high {
        assert Above(sizes, low) == before + [n] && Above(sizes, high) == after + [n];
      } else if sizes[n] > low {
        assert Above(sizes, low) == before + [n] && Above(sizes, high) == after;
      } else {
        assert Above(sizes, low) == before && Above(sizes, high) == after;
      }
    }
  }

  /** The sections that fit in a share use at most the share each. */
  lemma {:induction false} FitBound(sizes: seq<nat>, at: seq<nat>, share: nat)
    ensures |KeepAbove(sizes, at, share)| <= |at|
    ensures FitAt(sizes, at, share) <= share * (|at| - |KeepAbove(sizes, at, share)|)
  {
    if at != [] {
      var init := at[..|at| - 1];
      FitBound(sizes, init, share);
      var gap := |init| - |KeepAbove(sizes, init, share)|;
      assert share * (gap + 1) == share * gap + share;
    }
  }

  /** Go's integer division truncates toward zero. */
  function GoDiv(a: int, b: nat): int
    requires b > 0
  {
    if a >= 0 then a / b else -((-a) / b)
  }

  lemma MulMonotone(a: nat, b: nat, c: nat)
    requires a <= b
    ensures a * c <= b * c
  {
  }

  lemma DivBounds(a: int, b: nat, t: nat)
    requires b > 0
    ensures a >= 0 ==> GoDiv(a, b) * b <= a < (GoDiv(a, b) + 1) * b
    ensures GoDiv(a, b) <= 0 ==> a < b
    ensures a >= t * b ==> GoDiv(a, b) >= t
    ensures GoDiv(a, b) > 0 ==> a >= 0
  {
    if a >= 0 {
      var q := a / b;
      assert a == q * b + a % b;
      assert (q + 1) * b == q * b + b;
      if q < t {
        MulMonotone(q + 1, t, b);
      }
    } else {
      assert (-a) / b >= 0;
      MulMonotone(0, t, b);
    }
  }

  // ----- what one return of the allocator amounts to -----

  /** All quotas settled up to a share. */
  ghost predicate SettledQuotas(sizes: seq<nat>, share: nat, quotas: seq<nat>) {
    |quotas| == |sizes| && forall i | 0 <= i < |sizes| :: quotas[i] == if sizes[i] <= share then sizes[i] else 0
  }

  lemma SettledSame(sizes: seq<nat>, low: nat, share: nat)
    requires low <= share && Above(sizes, low) == Above(sizes, share)
    ensures Settled(sizes, low) == Settled(sizes, share)
  {
    Round(sizes, low, share);
    KeptFit(sizes, Above(sizes, low), share);
  }

  /** A share nobody above it can raise any further is the fair level. */
  lemma LevelReached(sizes: seq<nat>, budget: int, low: nat, share: nat, remaining: int)
    requires low <= share && Above(sizes, low) == Above(sizes, share)
    requires remaining == budget - Settled(sizes, low)
    requires share * |Above(sizes, low)| <= remaining < (share + 1) * |Above(sizes, low)|
    ensures FairLevel(sizes, budget, share)
  {
    SettledSame(sizes, low, share);
    CappedTotal(sizes, share);
    NextLevel(sizes, share);
    Successor(share, |Above(sizes, share)|);
  }

  lemma Successor(a: nat, n: nat)
    ensures (a + 1) * n == a * n + n
  {
  }

  /** There is a fair level only for a non-negative budget the sizes exceed. */
  lemma FairLevelCuts(sizes: seq<nat>, budget: int, level: nat)
    requires FairLevel(sizes, budget, level)
    ensures Total(sizes) > budget >= 0
  {
    CappedMonotone(sizes, level + 1, level + 1);
  }

  lemma {:induction false} KeptFit(sizes: seq<nat>, at: seq<nat>, share: nat)
    ensures |KeepAbove(sizes, at, share)| <= |at|
    ensures KeepAbove(sizes, at, share) == at ==> FitAt(sizes, at, share) == 0
    ensures |KeepAbove(sizes, at, share)| == |at| ==> KeepAbove(sizes, at, share) == at
  {
    if at != [] {
      var init := at[..|at| - 1];
      assert at == init + [at[|at| - 1]];
      KeptFit(sizes, init, share);
      Snoc(sizes, init, at[|at| - 1], share);
    }
  }

  /** Where the allocator stands at the head of its loop. */
  ghost predicate Standing(sizes: seq<nat>, budget: int, share: nat, pending: seq<nat>, remaining: int,
                           quotas: seq<nat>) {
    && pending == Above(sizes, share) && Within(pending, |sizes|)
    && remaining == budget - Settled(sizes, share)
    && SettledQuotas(sizes, share, quotas)
    && (share > 0 ==> remaining >= share * |pending|)
  }

  method AllocateDiffQuotas(sizes: seq<nat>, budget: int) returns (quotas: seq<nat>)
    ensures FairShare(sizes, budget, quotas)
  {
    quotas := seq(|sizes|, _ => 0);
    var pending: seq<nat> := PositiveSizes(sizes);
    var remaining := budget;
    ghost var last: nat := 0;  // the previous round's share
    AboveWithin(sizes, 0);
    SettledZero(sizes);
    while |pending| > 0
      invariant Standing(sizes, budget, last, pending, remaining, quotas)
      decreases |pending|
    {
      var total := SumPending(sizes, pending);
      if total <= remaining {
        ghost var settled := quotas;
        quotas := FillQuotas(sizes, pending, quotas);
        EverythingFits(sizes, budget, last, pending, remaining, settled, quotas);
        return;
      }
      var share := GoDiv(remaining, |pending|);
      ShareOfRound(sizes, budget, last, share, pending, remaining, quotas);
      if share <= 0 {
        return;
      }
      var short, used;
      quotas, short, used := SettleFitting(sizes, pending, share, quotas, last);
      NextRound(sizes, budget, last, share, pending, remaining, short, used, quotas);
      if |short| == |pending| {
        ghost var settled := quotas;
        quotas := LevelQuotas(sizes, short, share, quotas);
        AtLevel(sizes, budget, share, short, settled, quotas);
        return;
      }
      remaining := remaining - used;
      pending := short;
      last := share;
    }
    NobodyShort(sizes, budget, last, remaining, quotas);
  }

  lemma EverythingFits(sizes: seq<nat>, budget: int, last: nat, pending: seq<nat>, remaining: int,
                       settled: seq<nat>, quotas: seq<nat>)
    requires Standing(sizes, budget, last, pending, remaining, settled)
    requires SumAt(sizes, pending) <= remaining
    requires |quotas| == |sizes|
    requires forall i | 0 <= i < |sizes| :: quotas[i] == if i in pending then sizes[i] else settled[i]
    ensures FairShare(sizes, budget, quotas)
  {
    AboveMembers(sizes, last);
    PendingTotal(sizes, last);
    assert quotas == sizes;
  }

  /** A round's share never falls below the last one; none at all means nobody can take a byte. */
  lemma ShareOfRound(sizes: seq<nat>, budget: int, last: nat, share: int, pending: seq<nat>, remaining: int,
                     quotas: seq<nat>)
    requires Standing(sizes, budget, last, pending, remaining, quotas)
    requires pending != [] && SumAt(sizes, pending) > remaining && share == GoDiv(remaining, |pending|)
    ensures share > 0 ==> last <= share && share * |pending| <= remaining < (share + 1) * |pending|
    ensures share <= 0 ==> FairShare(sizes, budget, quotas)
  {
    DivBounds(remaining, |pending|, last);
    if share <= 0 {
      PendingTotal(sizes, last);
      SettledZero(sizes);
      NothingAffordable(sizes, budget, quotas);
    }
  }

  /** After a round the allocator stands at its share, or nobody fitted and the share is the fair level. */
  lemma NextRound(sizes: seq<nat>, budget: int, last: nat, share: nat, pending: seq<nat>, remaining: int,
                  short: seq<nat>, used: nat, quotas: seq<nat>)
    requires pending == Above(sizes, last) && last <= share
    requires remaining == budget - Settled(sizes, last)
    requires share * |pending| <= remaining < (share + 1) * |pending|
    requires short == KeepAbove(sizes, pending, share) && used == FitAt(sizes, pending, share)
    requires SettledQuotas(sizes, share, quotas)
    ensures |short| <= |pending| && Within(short, |sizes|)
    ensures |short| < |pending| ==> Standing(sizes, budget, share, short, remaining - used, quotas)
    ensures |short| == |pending| ==> short == Above(sizes, share) && FairLevel(sizes, budget, share)
  {
    ShortOfRound(sizes, last, share, pending);
    if |short| == |pending| {
      LevelReached(sizes, budget, last, share, remaining);
    } else {
      FitBound(sizes, pending, share);
      StillAffordable(remaining, used, share, |pending|, |short|);
      assert remaining - used == budget - Settled(sizes, share);
    }
  }

  lemma ShortOfRound(sizes: seq<nat>, last: nat, share: nat, pending: seq<nat>)
    requires pending == Above(sizes, last) && last <= share
    ensures KeepAbove(sizes, pending, share) == Above(sizes, share)
    ensures FitAt(sizes, pending, share) + Settled(sizes, last) == Settled(sizes, share)
    ensures |Above(sizes, share)| <= |pending| && Within(Above(sizes, share), |sizes|)
    ensures |Above(sizes, share)| == |pending| ==> Above(sizes, share) == pending
  {
    Round(sizes, last, share);
    KeptFit(sizes, pending, share);
    AboveWithin(sizes, share);
  }

  lemma AtLevel(sizes: seq<nat>, budget: int, share: nat, short: seq<nat>, settled: seq<nat>, quotas: seq<nat>)
    requires FairLevel(sizes, budget, share)
    requires short == Above(sizes, share) && SettledQuotas(sizes, share, settled)
    requires |quotas| == |sizes|
    requires forall i | 0 <= i < |sizes| :: quotas[i] == if i in short then share else settled[i]
    ensures FairShare(sizes, budget, quotas)
  {
    AboveMembers(sizes, share);
    FairLevelCuts(sizes, budget, share);
    assert quotas == Capped(sizes, share);
  }

  lemma StillAffordable(remaining: int, used: nat, share: nat, before: nat, after: nat)
    requires share * before <= remaining && used <= share * (before - after) && after <= before
    ensures remaining - used >= share * after
  {
    assert share * (before - after) == share * before - share * after;
  }

  lemma {:induction false} SettledZero(sizes: seq<nat>)
    ensures Settled(sizes, 0) == 0
  {
    if sizes != [] {
      SettledZero(sizes[..|sizes| - 1]);
    }
  }

  lemma NothingAffordable(sizes: seq<nat>, budget: int, quotas: seq<nat>)
    requires budget < |Above(sizes, 0)| && Total(sizes) > budget
    requires SettledQuotas(sizes, 0, quotas)
    ensures FairShare(sizes, budget, quotas)
  {
    assert quotas == Capped(sizes, 0);
    if budget >= 0 {
      SettledZero(sizes);
      LevelReached(sizes, budget, 0, 0, budget);
    }
  }

  lemma NobodyShort(sizes: seq<nat>, budget: int, share: nat, remaining: int, quotas: seq<nat>)
    requires Above(sizes, share) == [] && SettledQuotas(sizes, share, quotas)
    requires remaining == budget - Settled(sizes, share)
    requires share > 0 ==> remaining >= 0
    ensures FairShare(sizes, budget, quotas)
  {
    AboveMembers(sizes, share);
    PendingTotal(sizes, share);
    assert quotas == sizes;
    if share == 0 {
      SettledZero(sizes);
      assert sizes == Capped(sizes, 0);
    }
  }

  // ----- the loops of one round -----

  method PositiveSizes(sizes: seq<nat>) returns (pending: seq<nat>)
    ensures pending == Above(sizes, 0)
  {
    pending := [];
    for i := 0 to |sizes|
      invariant pending == Above(sizes[..i], 0)
    {
      assert sizes[..i + 1][..i] == sizes[..i];
      if sizes[i] > 0 {
        pending := pending + [i];
      }
    }
    assert sizes[..|sizes|] == sizes;
  }

  method SumPending(sizes: seq<nat>, pending: seq<nat>) returns (total: nat)
    requires Within(pending, |sizes|)
    ensures total == SumAt(sizes, pending)
  {
    total := 0;
    for k := 0 to |pending|
      invariant total == SumAt(sizes, pending[..k])
    {
      assert pending[..k + 1] == pending[..k] + [pending[k]];
      Snoc(sizes, pending[..k], pending[k], 0);
      total := total + sizes[pending[k]];
    }
    assert pending[..|pending|] == pending;
  }

  method FillQuotas(sizes: seq<nat>, pending: seq<nat>, given: seq<nat>) returns (quotas: seq<nat>)
    requires |given| == |sizes| && Within(pending, |sizes|)
    ensures |quotas| == |sizes|
    ensures forall i | 0 <= i < |sizes| :: quotas[i] == if i in pending then sizes[i] else given[i]
  {
    quotas := given;
    for k := 0 to |pending|
      invariant |quotas| == |sizes|
      invariant forall i | 0 <= i < |sizes| :: quotas[i] == if i in pending[..k] then sizes[i] else given[i]
    {
      assert pending[..k + 1] == pending[..k] + [pending[k]];
      quotas := quotas[pending[k] := sizes[pending[k]]];
    }
    assert pending[..|pending|] == pending;
  }

  method LevelQuotas(sizes: seq<nat>, short: seq<nat>, share: nat, given: seq<nat>) returns (quotas: seq<nat>)
    requires |given| == |sizes| && Within(short, |sizes|)
    ensures |quotas| == |sizes|
    ensures forall i | 0 <= i < |sizes| :: quotas[i] == if i in short then share else given[i]
  {
    quotas := given;
    for k := 0 to |short|
      invariant |quotas| == |sizes|
      invariant forall i | 0 <= i < |sizes| :: quotas[i] == if i in short[..k] then share else given[i]
    {
      assert short[..k + 1] == short[..k] + [short[k]];
      quotas := quotas[short[k] := share];
    }
    assert short[..|short|] == short;
  }

  /** The positions done so far take their full size if it fits the share. */
  ghost predicate Settling(sizes: seq<nat>, share: nat, done: seq<nat>, given: seq<nat>, quotas: seq<nat>) {
    && |given| == |quotas| == |sizes|
    && forall i | 0 <= i < |sizes| :: quotas[i] == if i in done && sizes[i] <= share then sizes[i] else given[i]
  }

  lemma SettleOne(sizes: seq<nat>, share: nat, done: seq<nat>, given: seq<nat>, quotas: seq<nat>, i: nat)
    requires Settling(sizes, share, done, given, quotas) && i < |sizes|
    ensures Settling(sizes, share, done + [i], given, if sizes[i] <= share then quotas[i := sizes[i]] else quotas)
  {
  }

  lemma AllSettled(sizes: seq<nat>, low: nat, share: nat, given: seq<nat>, quotas: seq<nat>)
    requires Settling(sizes, share, Above(sizes, low), given, quotas)
    requires SettledQuotas(sizes, low, given) && low <= share
    ensures SettledQuotas(sizes, share, quotas)
  {
    AboveMembers(sizes, low);
  }

  /** Sections that fit the share take their full size; the others stay short. */
  method SettleFitting(sizes: seq<nat>, pending: seq<nat>, share: nat, given: seq<nat>, ghost low: nat)
    returns (quotas: seq<nat>, short: seq<nat>, used: nat)
    requires pending == Above(sizes, low) && low <= share && SettledQuotas(sizes, low, given)
    requires Within(pending, |sizes|)
    ensures SettledQuotas(sizes, share, quotas)
    ensures short == KeepAbove(sizes, pending, share)
    ensures used == FitAt(sizes, pending, share)
  {
    quotas, short, used := given, [], 0;
    for k := 0 to |pending|
      invariant Settling(sizes, share, pending[..k], given, quotas)
      invariant short == KeepAbove(sizes, pending[..k], share)
      invariant used == FitAt(sizes, pending[..k], share)
    {
      var i := pending[k];
      assert pending[..k + 1] == pending[..k] + [i];
      Snoc(sizes, pending[..k], i, share);
      SettleOne(sizes, share, pending[..k], given, quotas, i);
      if sizes[i] <= share {
        quotas := quotas[i := sizes[i]];
        used := used + sizes[i];
      } else {
        short := short + [i];
      }
    }
    assert pending[..|pending|] == pending;
    AllSettled(sizes, low, share, given, quotas);
  }
}
