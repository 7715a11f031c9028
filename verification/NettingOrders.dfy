/** When every order of the flows of a batch can be accumulated without overflow. */
module NettingOrders {
  import opened Common
  import opened Types
  import opened Sums
  import opened Netting
  import opened NettingLaws

  predicate IsForward(f: Flow) {
    NormalizePair(f.from, f.to).1 == 1
  }

  function ForwardWeight(k: Pair): Flow -> int {
    (f: Flow) => if PairOf(f) == k && IsForward(f) then f.amount else 0
  }

  function BackwardWeight(k: Pair): Flow -> int {
    (f: Flow) => if PairOf(f) == k && !IsForward(f) then f.amount else 0
  }

  /** What flows from the first party of `k` to the second. */
  function Forward(fs: seq<Flow>, k: Pair): int {
    SumBy(fs, ForwardWeight(k))
  }

  /** What flows from the second party of `k` to the first. */
  function Backward(fs: seq<Flow>, k: Pair): int {
    SumBy(fs, BackwardWeight(k))
  }

  /** The two one-way sums, with the sign the accumulation gives them, and the fees of `k` fit an i128. */
  predicate PairFits(fs: seq<Flow>, k: Pair) {
    InI128(Forward(fs, k)) && InI128(-Backward(fs, k)) && InI128(Fees(fs, k))
  }

  predicate NonNegativeFlows(fs: seq<Flow>) {
    forall f | f in fs :: f.amount >= 0 && f.fee >= 0
  }

  /** No order of these flows overflows on the way. */
  ghost predicate AllOrdersFit(fs: seq<Flow>) {
    forall gs | multiset(gs) == multiset(fs) :: AccumulationFits(gs)
  }

  lemma {:induction false} NetIs(fs: seq<Flow>, k: Pair)
    ensures Net(fs, k) == Forward(fs, k) - Backward(fs, k)
  {
    if fs != [] {
      NetIs(fs[..|fs| - 1], k);
    }
  }

  // ----- sums that fit are enough -----

  lemma PrefixSum<T>(xs: seq<T>, i: nat, w: T -> int)
    requires i <= |xs| && forall x | x in xs :: w(x) >= 0
    ensures 0 <= SumBy(xs[..i], w) <= SumBy(xs, w)
  {
    assert xs == xs[..i] + xs[i..];
    SumByConcat(xs[..i], xs[i..], w);
    SumByNonNegative(xs[..i], w);
    SumByNonNegative(xs[i..], w);
  }

  lemma LastOfPrefix<T>(xs: seq<T>, i: nat, w: T -> int)
    requires i < |xs| && forall x | x in xs :: w(x) >= 0
    ensures w(xs[i]) <= SumBy(xs[..i + 1], w)
  {
    var prefix := xs[..i + 1];
    assert prefix[..|prefix| - 1] == xs[..i];
    PrefixSum(xs, i, w);
  }

  lemma StepFitsInPair(fs: seq<Flow>, i: nat)
    requires NonNegativeFlows(fs) && i < |fs| && PairFits(fs, PairOf(fs[i]))
    ensures StepFits(fs, i)
  {
    var k, f := PairOf(fs[i]), fs[i];
    PrefixSum(fs, i + 1, ForwardWeight(k));
    PrefixSum(fs, i + 1, BackwardWeight(k));
    PrefixSum(fs, i + 1, Within(FeeWeight(), k));
    LastOfPrefix(fs, i, if IsForward(f) then ForwardWeight(k) else BackwardWeight(k));
    NetIs(fs[..i + 1], k);
  }

  lemma PairsFit(fs: seq<Flow>)
    requires NonNegativeFlows(fs) && forall k | k in Pairs(fs) :: PairFits(fs, k)
    ensures AccumulationFits(fs)
  {
    forall i | 0 <= i < |fs|
      ensures StepFits(fs, i)
    {
      assert fs[i] in fs && PairOf(fs[i]) in Pairs(fs);
      StepFitsInPair(fs, i);
    }
  }

  lemma SameInAnyOrder(fs: seq<Flow>, gs: seq<Flow>, k: Pair)
    requires multiset(fs) == multiset(gs)
    ensures PairFits(fs, k) <==> PairFits(gs, k)
  {
    SumByPermutation(fs, gs, ForwardWeight(k));
    SumByPermutation(fs, gs, BackwardWeight(k));
    SumByPermutation(fs, gs, Within(FeeWeight(), k));
  }

  lemma SameMembers<T>(xs: seq<T>, ys: seq<T>, x: T)
    requires multiset(xs) == multiset(ys)
    ensures x in xs <==> x in ys
  {
    assert x in xs <==> x in multiset(xs);
    assert x in ys <==> x in multiset(ys);
  }

  lemma PairsFitInAnyOrder(fs: seq<Flow>, gs: seq<Flow>)
    requires NonNegativeFlows(fs) && (forall k | k in Pairs(fs) :: PairFits(fs, k)) && multiset(gs) == multiset(fs)
    ensures AccumulationFits(gs)
  {
    forall f | f in gs
      ensures f in fs
    {
      SameMembers(fs, gs, f);
    }
    forall k | k in Pairs(gs)
      ensures PairFits(gs, k)
    {
      SameInAnyOrder(fs, gs, k);
    }
    PairsFit(gs);
  }

  // ----- and necessary: some order reaches each of them -----

  function Chosen(fs: seq<Flow>, p: Flow -> bool): seq<Flow> {
    if fs == [] then [] else
      Chosen(fs[..|fs| - 1], p) + if p(fs[|fs| - 1]) then [fs[|fs| - 1]] else []
  }

  function Rest(fs: seq<Flow>, p: Flow -> bool): seq<Flow> {
    if fs == [] then [] else
      Rest(fs[..|fs| - 1], p) + if p(fs[|fs| - 1]) then [] else [fs[|fs| - 1]]
  }

  lemma {:induction false} ChosenFirst(fs: seq<Flow>, p: Flow -> bool)
    ensures multiset(Chosen(fs, p) + Rest(fs, p)) == multiset(fs)
    ensures forall f | f in Chosen(fs, p) :: p(f)
  {
    if fs != [] {
      var front, f := fs[..|fs| - 1], fs[|fs| - 1];
      ChosenFirst(front, p);
      assert fs == front + [f];
    }
  }

  /** A weight that is zero for the others is summed completely by the chosen. */
  lemma {:induction false} ChosenSum(fs: seq<Flow>, p: Flow -> bool, w: Flow -> int)
    requires forall f :: !p(f) ==> w(f) == 0
    ensures SumBy(Chosen(fs, p), w) == SumBy(fs, w)
  {
    if fs != [] {
      var front, f := fs[..|fs| - 1], fs[|fs| - 1];
      ChosenSum(front, p, w);
      if p(f) {
        assert (Chosen(front, p) + [f])[..|Chosen(front, p)|] == Chosen(front, p);
      } else {
        assert Chosen(fs, p) == Chosen(front, p);
      }
    }
  }

  /** With the chosen flows of `k` read first, the accumulation passes through their totals. */
  lemma ReachesChosen(fs: seq<Flow>, k: Pair, p: Flow -> bool)
    requires AllOrdersFit(fs) && forall f :: p(f) ==> PairOf(f) == k
    ensures InI128(Net(Chosen(fs, p), k)) && InI128(Fees(Chosen(fs, p), k))
  {
    var chosen := Chosen(fs, p);
    var gs := chosen + Rest(fs, p);
    ChosenFirst(fs, p);
    if chosen != [] {
      assert AccumulationFits(gs);
      assert StepFits(gs, |chosen| - 1);
      assert gs[..|chosen|] == chosen && gs[|chosen| - 1] in chosen;
    }
  }

  lemma FitsForward(fs: seq<Flow>, k: Pair)
    requires AllOrdersFit(fs)
    ensures InI128(Forward(fs, k))
  {
    var p := (f: Flow) => PairOf(f) == k && IsForward(f);
    ReachesChosen(fs, k, p);
    ChosenFirst(fs, p);
    ChosenSum(fs, p, ForwardWeight(k));
    NetIs(Chosen(fs, p), k);
    SumByZero(Chosen(fs, p), BackwardWeight(k));
  }

  lemma FitsBackward(fs: seq<Flow>, k: Pair)
    requires AllOrdersFit(fs)
    ensures InI128(-Backward(fs, k))
  {
    var p := (f: Flow) => PairOf(f) == k && !IsForward(f);
    ReachesChosen(fs, k, p);
    ChosenFirst(fs, p);
    ChosenSum(fs, p, BackwardWeight(k));
    NetIs(Chosen(fs, p), k);
    SumByZero(Chosen(fs, p), ForwardWeight(k));
  }

  lemma FitsFees(fs: seq<Flow>, k: Pair)
    requires AllOrdersFit(fs)
    ensures InI128(Fees(fs, k))
  {
    var p := (f: Flow) => PairOf(f) == k;
    ReachesChosen(fs, k, p);
    ChosenSum(fs, p, Within(FeeWeight(), k));
  }

  /**
   Every order of a batch of non-negative flows can be accumulated exactly when, pair by pair, the sum
   in either direction and the fees fit an i128.
   */
  lemma AllOrdersFitIff(fs: seq<Flow>)
    requires NonNegativeFlows(fs)
    ensures AllOrdersFit(fs) <==> forall k | k in Pairs(fs) :: PairFits(fs, k)
  {
    if AllOrdersFit(fs) {
      forall k | k in Pairs(fs)
        ensures PairFits(fs, k)
      {
        FitsForward(fs, k);
        FitsBackward(fs, k);
        FitsFees(fs, k);
      }
    }
    if forall k | k in Pairs(fs) :: PairFits(fs, k) {
      forall gs | multiset(gs) == multiset(fs)
        ensures AccumulationFits(gs)
      {
        PairsFitInAnyOrder(fs, gs);
      }
    }
  }

  // ----- orders of the remittances -----

  function IsFlow(f: Flow): Flow -> int {
    (g: Flow) => if g == f then 1 else 0
  }

  lemma {:induction false} Occurrences(fs: seq<Flow>, f: Flow)
    ensures multiset(fs)[f] == SumBy(fs, IsFlow(f))
  {
    if fs != [] {
      var front, last := fs[..|fs| - 1], fs[|fs| - 1];
      Occurrences(front, f);
      assert fs == front + [last];
    }
  }

  /** An order of the remittances is an order of their flows. */
  lemma FlowsPermute(rs: seq<Remittance>, rs': seq<Remittance>)
    requires multiset(rs) == multiset(rs')
    ensures multiset(PendingFlows(rs)) == multiset(PendingFlows(rs'))
  {
    forall f
      ensures multiset(PendingFlows(rs))[f] == multiset(PendingFlows(rs'))[f]
    {
      Occurrences(PendingFlows(rs), f);
      Occurrences(PendingFlows(rs'), f);
      PendingSum(rs, IsFlow(f));
      PendingSum(rs', IsFlow(f));
      SumByPermutation(rs, rs', OfPending(IsFlow(f)));
    }
  }

  lemma FlowsNonNegative(rs: seq<Remittance>)
    requires forall r | r in rs :: r.amount >= 0 && r.fee >= 0
    ensures NonNegativeFlows(PendingFlows(rs))
  {
    FlowsAreRemittances(rs);
    forall f | f in PendingFlows(rs)
      ensures f.amount >= 0 && f.fee >= 0
    {
      var r :| r in rs && f == FlowOf(r);
    }
  }

  /** If everything together fits, so does every pair. */
  lemma TotalsCoverPairs(fs: seq<Flow>, k: Pair)
    requires NonNegativeFlows(fs)
    requires SumBy(fs, AmountWeight()) <= I128_MAX && SumBy(fs, FeeWeight()) <= I128_MAX
    ensures PairFits(fs, k)
  {
    SumByAtMost(fs, ForwardWeight(k), AmountWeight());
    SumByAtMost(fs, BackwardWeight(k), AmountWeight());
    SumByAtMost(fs, Within(FeeWeight(), k), FeeWeight());
    SumByNonNegative(fs, ForwardWeight(k));
    SumByNonNegative(fs, BackwardWeight(k));
    SumByNonNegative(fs, Within(FeeWeight(), k));
  }
}
