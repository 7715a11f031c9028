/**
 What netting promises: every party's position is preserved, the result does not depend on the
 order of the batch, and amounts and fees are accounted for.
 */
module NettingLaws {
  import opened Common
  import opened Types
  import opened Sums
  import opened Netting

  // ----- positions -----

  /** What `p` receives minus what `p` sends if `amount` goes from `from` to `to`. */
  function Received(p: Address, from: Address, to: Address, amount: int): int {
    (if to == p then amount else 0) - (if from == p then amount else 0)
  }

  function FlowPosition(p: Address): Flow -> int {
    (f: Flow) => Received(p, f.from, f.to, f.amount)
  }

  /** Who pays whom: a positive net goes from the first party to the second. */
  function Payer(t: NetTransfer): Address {
    if t.netAmount > 0 then t.pair.a else t.pair.b
  }

  function Payee(t: NetTransfer): Address {
    if t.netAmount > 0 then t.pair.b else t.pair.a
  }

  function TransferPosition(p: Address): NetTransfer -> int {
    (t: NetTransfer) => Received(p, Payer(t), Payee(t), Abs(t.netAmount))
  }

  function TransferVolume(): NetTransfer -> int {
    (t: NetTransfer) => Abs(t.netAmount)
  }

  function TransferFees(): NetTransfer -> int {
    (t: NetTransfer) => t.totalFees
  }

  // ----- regrouping a sum by pair -----

  function PerPair(fs: seq<Flow>, v: Flow -> int): Pair -> int {
    (k: Pair) => SumBy(fs, Within(v, k))
  }

  lemma {:induction false} Regroup(ks: seq<Pair>, fs: seq<Flow>, v: Flow -> int)
    requires Distinct(ks)
    requires forall f | f in fs :: PairOf(f) in ks
    ensures SumBy(ks, PerPair(fs, v)) == SumBy(fs, v)
  {
    if fs == [] {
      SumByZero(ks, PerPair(fs, v));
    } else {
      var front := fs[..|fs| - 1];
      var f := fs[|fs| - 1];
      assert f in fs && forall g | g in front :: g in fs;
      Regroup(ks, front, v);
      SumByPoint(ks, PairOf(f), PerPair(front, v), PerPair(fs, v));
    }
  }

  /** What the transfer of pair `k`, if one is emitted, adds to a sum weighted by `w`. */
  function Emitted(fs: seq<Flow>, w: NetTransfer -> int): Pair -> int {
    (k: Pair) => if Net(fs, k) != 0 then w(NetTransfer(k, Net(fs, k), Fees(fs, k))) else 0
  }

  lemma {:induction false} EmittedSum(ks: seq<Pair>, fs: seq<Flow>, w: NetTransfer -> int)
    ensures SumBy(Emit(ks, fs), w) == SumBy(ks, Emitted(fs, w))
  {
    if ks != [] {
      var front := ks[..|ks| - 1];
      var k := ks[|ks| - 1];
      EmittedSum(front, fs, w);
      if Net(fs, k) != 0 {
        var t := NetTransfer(k, Net(fs, k), Fees(fs, k));
        assert Emit(ks, fs) == Emit(front, fs) + [t];
        assert (Emit(front, fs) + [t])[..|Emit(front, fs)|] == Emit(front, fs);
      } else {
        assert Emit(ks, fs) == Emit(front, fs);
      }
    }
  }

  // ----- every party's position is preserved -----

  /** What a signed amount between the parties of `k` does to the position of `p`. */
  function Side(k: Pair, p: Address, x: int): int {
    (if k.b == p then x else 0) - (if k.a == p then x else 0)
  }

  lemma {:induction false} PairPosition(fs: seq<Flow>, k: Pair, p: Address)
    ensures PerPair(fs, FlowPosition(p))(k) == Side(k, p, Net(fs, k))
  {
    if fs != [] {
      PairPosition(fs[..|fs| - 1], k, p);
    }
  }

  lemma EmittedPosition(fs: seq<Flow>, k: Pair, p: Address)
    ensures Emitted(fs, TransferPosition(p))(k) == Side(k, p, Net(fs, k))
  {
    var t := NetTransfer(k, Net(fs, k), Fees(fs, k));
    assert TransferPosition(p)(t) == Received(p, Payer(t), Payee(t), Abs(t.netAmount));
  }

  /** Net settlement moves, for every address, exactly what the single flows would have moved. */
  lemma PositionsPreserved(fs: seq<Flow>, p: Address)
    ensures SumBy(NetTransfers(fs), TransferPosition(p)) == SumBy(fs, FlowPosition(p))
  {
    var ks := SortedKeys(Pairs(fs));
    Regroup(ks, fs, FlowPosition(p));
    EmittedSum(ks, fs, TransferPosition(p));
    forall k | k in ks
      ensures Emitted(fs, TransferPosition(p))(k) == PerPair(fs, FlowPosition(p))(k)
    {
      PairPosition(fs, k, p);
      EmittedPosition(fs, k, p);
    }
    SumByAgree(ks, Emitted(fs, TransferPosition(p)), PerPair(fs, FlowPosition(p)));
  }

  // ----- which transfers are emitted -----

  lemma {:induction false} EmitExact(ks: seq<Pair>, fs: seq<Flow>)
    requires forall i, j | 0 <= i < j < |ks| :: PairLess(ks[i], ks[j])
    ensures var ts := Emit(ks, fs);
            && (forall t | t in ts ::
                  t.pair in ks && t.netAmount == Net(fs, t.pair) != 0 && t.totalFees == Fees(fs, t.pair))
            && (forall k | k in ks && Net(fs, k) != 0 :: NetTransfer(k, Net(fs, k), Fees(fs, k)) in ts)
            && (forall i, j | 0 <= i < j < |ts| :: PairLess(ts[i].pair, ts[j].pair))
  {
    if ks != [] {
      var front, k := ks[..|ks| - 1], ks[|ks| - 1];
      EmitExact(front, fs);
      assert ks == front + [k];
      var ts := Emit(front, fs);
      if Net(fs, k) != 0 {
        var t := NetTransfer(k, Net(fs, k), Fees(fs, k));
        assert Emit(ks, fs) == ts + [t];
        forall i | 0 <= i < |ts|
          ensures PairLess(ts[i].pair, k)
        {
          assert ts[i] in ts && ts[i].pair in front;
        }
      } else {
        assert Emit(ks, fs) == ts;
      }
    }
  }

  /**
   One transfer for every pair whose flows do not cancel out, none for any other, in the order of
   the pairs: no pair is paid twice.
   */
  lemma TransfersExact(fs: seq<Flow>)
    ensures var ts := NetTransfers(fs);
            && (forall t | t in ts :: t.netAmount == Net(fs, t.pair) != 0 && t.totalFees == Fees(fs, t.pair))
            && (forall k | k in Pairs(fs) && Net(fs, k) != 0 :: NetTransfer(k, Net(fs, k), Fees(fs, k)) in ts)
            && (forall i, j | 0 <= i < j < |ts| :: PairLess(ts[i].pair, ts[j].pair))
  {
    EmitExact(SortedKeys(Pairs(fs)), fs);
  }

  // ----- the order of the batch does not matter -----

  /** The weight `w` of the flow of a pending remittance; nothing for the others. */
  function OfPending(w: Flow -> int): Remittance -> int {
    (r: Remittance) => if r.status.Pending? then w(FlowOf(r)) else 0
  }

  lemma {:induction false} PendingSum(rs: seq<Remittance>, w: Flow -> int)
    ensures SumBy(PendingFlows(rs), w) == SumBy(rs, OfPending(w))
  {
    if rs != [] {
      var front, r := rs[..|rs| - 1], rs[|rs| - 1];
      PendingSum(front, w);
      var fs := PendingFlows(front);
      assert SumBy(rs, OfPending(w)) == SumBy(front, OfPending(w)) + OfPending(w)(r);
      if r.status.Pending? {
        assert (fs + [FlowOf(r)])[..|fs|] == fs;
      } else {
        assert PendingFlows(rs) == fs;
      }
    }
  }

  function SkipCount(id: nat): Remittance -> int {
    (r: Remittance) => if (r.status.Failed? || r.status.Disputed?) && r.id == id then 1 else 0
  }

  lemma {:induction false} SkippedCount(rs: seq<Remittance>, id: nat)
    ensures multiset(SkippedIds(rs))[id] == SumBy(rs, SkipCount(id))
  {
    if rs != [] {
      var front, r := rs[..|rs| - 1], rs[|rs| - 1];
      SkippedCount(front, id);
      assert SumBy(rs, SkipCount(id)) == SumBy(front, SkipCount(id)) + SkipCount(id)(r);
      if r.status.Failed? || r.status.Disputed? {
        assert SkippedIds(rs) == SkippedIds(front) + [r.id];
      }
    }
  }

  lemma {:induction false} FlowsAreRemittances(rs: seq<Remittance>)
    ensures |PendingFlows(rs)| <= |rs|
    ensures forall f :: f in PendingFlows(rs) <==> exists r :: r in rs && r.status.Pending? && f == FlowOf(r)
  {
    if rs != [] {
      var front, r := rs[..|rs| - 1], rs[|rs| - 1];
      FlowsAreRemittances(front);
      assert rs == front + [r];
      assert forall q :: q in rs <==> q in front || q == r;
    }
  }

  lemma {:induction false} EmitDependsOnTotals(ks: seq<Pair>, fs: seq<Flow>, fs': seq<Flow>)
    requires forall k | k in ks :: Net(fs, k) == Net(fs', k) && Fees(fs, k) == Fees(fs', k)
    ensures Emit(ks, fs) == Emit(ks, fs')
  {
    if ks != [] {
      assert ks[|ks| - 1] in ks && forall k | k in ks[..|ks| - 1] :: k in ks;
      EmitDependsOnTotals(ks[..|ks| - 1], fs, fs');
    }
  }

  /** Any two orders of one batch give the same list of net transfers. */
  lemma OrderIndependent(rs: seq<Remittance>, rs': seq<Remittance>)
    requires multiset(rs) == multiset(rs')
    ensures NetTransfers(PendingFlows(rs)) == NetTransfers(PendingFlows(rs'))
    ensures multiset(SkippedIds(rs)) == multiset(SkippedIds(rs'))
  {
    var fs, fs' := PendingFlows(rs), PendingFlows(rs');
    FlowsAreRemittances(rs);
    FlowsAreRemittances(rs');
    assert forall r :: r in rs <==> r in multiset(rs);
    assert forall r :: r in rs' <==> r in multiset(rs');
    assert forall f :: f in fs <==> f in fs';
    assert Pairs(fs) == Pairs(fs');
    var ks := SortedKeys(Pairs(fs));
    forall k | k in ks
      ensures Net(fs, k) == Net(fs', k) && Fees(fs, k) == Fees(fs', k)
    {
      PendingSum(rs, Within(SignedWeight(), k));
      PendingSum(rs', Within(SignedWeight(), k));
      SumByPermutation(rs, rs', OfPending(Within(SignedWeight(), k)));
      PendingSum(rs, Within(FeeWeight(), k));
      PendingSum(rs', Within(FeeWeight(), k));
      SumByPermutation(rs, rs', OfPending(Within(FeeWeight(), k)));
    }
    forall id
      ensures multiset(SkippedIds(rs))[id] == multiset(SkippedIds(rs'))[id]
    {
      SkippedCount(rs, id);
      SkippedCount(rs', id);
      SumByPermutation(rs, rs', SkipCount(id));
    }
    EmitDependsOnTotals(ks, fs, fs');
  }

  // ----- amounts and fees are accounted for -----

  lemma {:induction false} PairVolume(fs: seq<Flow>, k: Pair)
    requires forall f | f in fs :: f.amount >= 0
    ensures Abs(Net(fs, k)) <= PerPair(fs, AmountWeight())(k)
  {
    if fs != [] {
      assert fs[|fs| - 1] in fs && forall f | f in fs[..|fs| - 1] :: f in fs;
      PairVolume(fs[..|fs| - 1], k);
    }
  }

  /** Netting never moves more than the flows it replaces. */
  lemma VolumeNeverGrows(fs: seq<Flow>)
    requires forall f | f in fs :: f.amount >= 0
    ensures SumBy(NetTransfers(fs), TransferVolume()) <= SumBy(fs, AmountWeight())
  {
    var ks := SortedKeys(Pairs(fs));
    Regroup(ks, fs, AmountWeight());
    EmittedSum(ks, fs, TransferVolume());
    forall k | k in ks
      ensures Emitted(fs, TransferVolume())(k) <= PerPair(fs, AmountWeight())(k)
    {
      PairVolume(fs, k);
    }
    SumByAtMost(ks, Emitted(fs, TransferVolume()), PerPair(fs, AmountWeight()));
  }

  /** The fees of pairs whose flows offset each other completely; no transfer carries them. */
  function DroppedWeight(fs: seq<Flow>): Flow -> int {
    (f: Flow) => if Net(fs, PairOf(f)) == 0 then f.fee else 0
  }

  function DroppedFees(fs: seq<Flow>): int {
    SumBy(fs, DroppedWeight(fs))
  }

  lemma {:induction false} DroppedPerPair(fs: seq<Flow>, gs: seq<Flow>, k: Pair)
    ensures PerPair(gs, DroppedWeight(fs))(k) == if Net(fs, k) == 0 then Fees(gs, k) else 0
  {
    if gs != [] {
      DroppedPerPair(fs, gs[..|gs| - 1], k);
    }
  }

  /** Emitted fees are all fees except those of the fully offset pairs. */
  lemma FeesAccounted(fs: seq<Flow>)
    ensures SumBy(NetTransfers(fs), TransferFees()) == SumBy(fs, FeeWeight()) - DroppedFees(fs)
  {
    var ks := SortedKeys(Pairs(fs));
    Regroup(ks, fs, FeeWeight());
    Regroup(ks, fs, DroppedWeight(fs));
    EmittedSum(ks, fs, TransferFees());
    forall k | k in ks
      ensures PerPair(fs, FeeWeight())(k)
           == Emitted(fs, TransferFees())(k) + PerPair(fs, DroppedWeight(fs))(k)
    {
      DroppedPerPair(fs, fs, k);
      assert PerPair(fs, FeeWeight())(k) == Fees(fs, k);
    }
    SumByPlus(ks, Emitted(fs, TransferFees()), PerPair(fs, DroppedWeight(fs)), PerPair(fs, FeeWeight()));
  }

  // ----- validation of a netting result -----

  /** All partial sums of a checked accumulation stay inside i128. */
  ghost predicate SumsFit<T>(xs: seq<T>, w: T -> int) {
    forall i | 0 <= i <= |xs| :: InI128(SumBy(xs[..i], w))
  }

  ghost predicate ValidationFits(rs: seq<Remittance>, ts: seq<NetTransfer>) {
    && SumsFit(rs, OfPending(AmountWeight())) && SumsFit(rs, OfPending(FeeWeight()))
    && SumsFit(ts, TransferVolume()) && SumsFit(ts, TransferFees())
  }

  /** The checked totals of the pending remittances: amounts and fees. */
  function OriginalTotals(rs: seq<Remittance>): Result<(int, int)> {
    if rs == [] then Ok((0, 0)) else
      var totals :- OriginalTotals(rs[..|rs| - 1]);
      var amount :- Checked(totals.0 + OfPending(AmountWeight())(rs[|rs| - 1]));
      var fees :- Checked(totals.1 + OfPending(FeeWeight())(rs[|rs| - 1]));
      Ok((amount, fees))
  }

  /** The checked totals of the net transfers; taking the absolute value of the least i128 traps. */
  function NetTotals(ts: seq<NetTransfer>): Result<(int, int)> {
    if ts == [] then Ok((0, 0)) else
      var t := ts[|ts| - 1];
      var totals :- NetTotals(ts[..|ts| - 1]);
      :- Need(t.netAmount != I128_MIN, HostTrap);
      var amount :- Checked(totals.0 + Abs(t.netAmount));
      var fees :- Checked(totals.1 + t.totalFees);
      Ok((amount, fees))
  }

  function Validation(rs: seq<Remittance>, ts: seq<NetTransfer>): Result<()> {
    var original :- OriginalTotals(rs);
    var net :- NetTotals(ts);
    if original.1 != net.1 then Err(NetSettlementValidationFailed) else Ok(())
  }

  function BothFit(amount: int, fees: int): Result<(int, int)> {
    if InI128(amount) && InI128(fees) then Ok((amount, fees)) else Err(Overflow)
  }

  lemma OriginalNext(rs: seq<Remittance>, i: nat, amount: int, fees: int)
    requires i < |rs| && OriginalTotals(rs[..i]) == Ok((amount, fees))
    ensures !rs[i].status.Pending? ==> OriginalTotals(rs[..i + 1]) == Ok((amount, fees))
    ensures rs[i].status.Pending? ==> OriginalTotals(rs[..i + 1]) == BothFit(amount + rs[i].amount, fees + rs[i].fee)
  {
    assert rs[..i + 1][..i] == rs[..i];
    assert AmountWeight()(FlowOf(rs[i])) == rs[i].amount;
    assert FeeWeight()(FlowOf(rs[i])) == rs[i].fee;
  }

  lemma NetNext(ts: seq<NetTransfer>, i: nat, amount: int, fees: int)
    requires i < |ts| && NetTotals(ts[..i]) == Ok((amount, fees))
    ensures NetTotals(ts[..i + 1])
         == if ts[i].netAmount == I128_MIN then Err(HostTrap)
            else BothFit(amount + Abs(ts[i].netAmount), fees + ts[i].totalFees)
  {
    assert ts[..i + 1][..i] == ts[..i];
  }

  method ValidateNetSettlement(originalRemittances: seq<Remittance>, netTransfers: seq<NetTransfer>)
    returns (r: Result<()>)
    ensures r == Validation(originalRemittances, netTransfers)
  {
    var totalOriginalAmount, totalOriginalFees := 0, 0;
    for i := 0 to |originalRemittances|
      invariant OriginalTotals(originalRemittances[..i]) == Ok((totalOriginalAmount, totalOriginalFees))
    {
      var remittance := originalRemittances[i];
      OriginalNext(originalRemittances, i, totalOriginalAmount, totalOriginalFees);
      if remittance.status.Pending? {
        totalOriginalAmount := totalOriginalAmount + remittance.amount;
        totalOriginalFees := totalOriginalFees + remittance.fee;
        if !InI128(totalOriginalAmount) || !InI128(totalOriginalFees) {
          OriginalErrorPersists(originalRemittances, i + 1, Overflow);
          return Err(Overflow);
        }
      }
    }
    assert originalRemittances[..|originalRemittances|] == originalRemittances;

    var totalNetAmount, totalNetFees := 0, 0;
    for i := 0 to |netTransfers|
      invariant NetTotals(netTransfers[..i]) == Ok((totalNetAmount, totalNetFees))
    {
      var transfer := netTransfers[i];
      NetNext(netTransfers, i, totalNetAmount, totalNetFees);
      if transfer.netAmount == I128_MIN {
        NetErrorPersists(netTransfers, i + 1, HostTrap);
        return Err(HostTrap); // the negation overflows
      }
      var absAmount := if transfer.netAmount < 0 then -transfer.netAmount else transfer.netAmount;
      totalNetAmount := totalNetAmount + absAmount;
      totalNetFees := totalNetFees + transfer.totalFees;
      if !InI128(totalNetAmount) || !InI128(totalNetFees) {
        NetErrorPersists(netTransfers, i + 1, Overflow);
        return Err(Overflow);
      }
    }
    assert netTransfers[..|netTransfers|] == netTransfers;

    if totalOriginalFees != totalNetFees {
      return Err(NetSettlementValidationFailed);
    }
    r := Ok(());
  }

  lemma {:induction false} OriginalErrorPersists(rs: seq<Remittance>, i: nat, error: Error)
    requires i <= |rs| && OriginalTotals(rs[..i]) == Err(error)
    ensures OriginalTotals(rs) == Err(error)
    decreases |rs| - i
  {
    if i < |rs| {
      assert rs[..i + 1][..i] == rs[..i];
      OriginalErrorPersists(rs, i + 1, error);
    } else {
      assert rs[..i] == rs;
    }
  }

  lemma {:induction false} NetErrorPersists(ts: seq<NetTransfer>, i: nat, error: Error)
    requires i <= |ts| && NetTotals(ts[..i]) == Err(error)
    ensures NetTotals(ts) == Err(error)
    decreases |ts| - i
  {
    if i < |ts| {
      assert ts[..i + 1][..i] == ts[..i];
      NetErrorPersists(ts, i + 1, error);
    } else {
      assert ts[..i] == ts;
    }
  }

  lemma {:induction false} OriginalTotalsAre(rs: seq<Remittance>)
    ensures OriginalTotals(rs).Ok? <==> SumsFit(rs, OfPending(AmountWeight())) && SumsFit(rs, OfPending(FeeWeight()))
    ensures var sums := (SumBy(rs, OfPending(AmountWeight())), SumBy(rs, OfPending(FeeWeight())));
            OriginalTotals(rs).Ok? ==> OriginalTotals(rs).value == sums
  {
    if rs != [] {
      OriginalTotalsAre(rs[..|rs| - 1]);
      SumsFitStep(rs, OfPending(AmountWeight()));
      SumsFitStep(rs, OfPending(FeeWeight()));
    }
  }

  lemma {:induction false} NetTotalsAre(ts: seq<NetTransfer>)
    ensures NetTotals(ts).Ok? <==> SumsFit(ts, TransferVolume()) && SumsFit(ts, TransferFees())
    ensures NetTotals(ts).Ok? ==> NetTotals(ts).value == (SumBy(ts, TransferVolume()), SumBy(ts, TransferFees()))
  {
    if ts != [] {
      NetTotalsAre(ts[..|ts| - 1]);
      SumsFitStep(ts, TransferVolume());
      SumsFitStep(ts, TransferFees());
      SumByNonNegative(ts[..|ts| - 1], TransferVolume());
    }
  }

  lemma PrefixOfFront<T>(xs: seq<T>, i: nat)
    requires i < |xs|
    ensures xs[..|xs| - 1][..i] == xs[..i]
  {
  }

  lemma FrontFits<T>(xs: seq<T>, w: T -> int)
    requires xs != [] && SumsFit(xs, w)
    ensures SumsFit(xs[..|xs| - 1], w)
  {
    var front := xs[..|xs| - 1];
    forall i | 0 <= i <= |front|
      ensures InI128(SumBy(front[..i], w))
    {
      PrefixOfFront(xs, i);
      assert InI128(SumBy(xs[..i], w));
    }
  }

  lemma WholeFits<T>(xs: seq<T>, w: T -> int)
    requires SumsFit(xs, w)
    ensures InI128(SumBy(xs, w))
  {
    assert xs[..|xs|] == xs;
    assert InI128(SumBy(xs[..|xs|], w));
  }

  lemma FitsAgain<T>(xs: seq<T>, w: T -> int)
    requires xs != [] && SumsFit(xs[..|xs| - 1], w) && InI128(SumBy(xs, w))
    ensures SumsFit(xs, w)
  {
    forall i | 0 <= i <= |xs|
      ensures InI128(SumBy(xs[..i], w))
    {
      if i < |xs| {
        PrefixOfFront(xs, i);
        assert InI128(SumBy(xs[..|xs| - 1][..i], w));
      } else {
        assert xs[..i] == xs;
      }
    }
  }

  lemma SumsFitStep<T>(xs: seq<T>, w: T -> int)
    requires xs != []
    ensures SumsFit(xs, w) <==> SumsFit(xs[..|xs| - 1], w) && InI128(SumBy(xs, w))
  {
    if SumsFit(xs, w) {
      FrontFits(xs, w);
      WholeFits(xs, w);
    } else if SumsFit(xs[..|xs| - 1], w) && InI128(SumBy(xs, w)) {
      FitsAgain(xs, w);
    }
  }

  /** Validation succeeds exactly when every total fits an i128 and the two fee totals agree. */
  lemma ValidationMeaning(rs: seq<Remittance>, ts: seq<NetTransfer>)
    ensures Validation(rs, ts).Ok?
       <==> ValidationFits(rs, ts) && SumBy(rs, OfPending(FeeWeight())) == SumBy(ts, TransferFees())
  {
    OriginalTotalsAre(rs);
    NetTotalsAre(ts);
  }

  /**
   Netting's own output passes validation exactly when the totals fit and the fully offset pairs
   carried no fee.
   */
  lemma ValidationExact(rs: seq<Remittance>)
    ensures var ts := NetTransfers(PendingFlows(rs));
            Validation(rs, ts).Ok? <==> ValidationFits(rs, ts) && DroppedFees(PendingFlows(rs)) == 0
  {
    PendingSum(rs, FeeWeight());
    FeesAccounted(PendingFlows(rs));
    ValidationMeaning(rs, NetTransfers(PendingFlows(rs)));
  }

  // ----- no overflow within the batch limit -----

  lemma {:induction false} SumBounded<T>(xs: seq<T>, w: T -> int, most: nat)
    requires forall x | x in xs :: Abs(w(x)) <= most
    ensures Abs(SumBy(xs, w)) <= |xs| * most
  {
    if xs != [] {
      assert xs[|xs| - 1] in xs && forall x | x in xs[..|xs| - 1] :: x in xs;
      SumBounded(xs[..|xs| - 1], w, most);
      assert |xs| * most == (|xs| - 1) * most + most;
    }
  }

  lemma TimesMonotone(a: nat, b: nat, m: nat)
    requires a <= b
    ensures a * m <= b * m
  {
  }

  /** The unchecked sums cannot overflow when at most 50 amounts and fees are each at most MAX/50. */
  lemma AccumulationSafe(rs: seq<Remittance>, most: nat)
    requires |rs| <= MAX_NETTING_BATCH_SIZE && MAX_NETTING_BATCH_SIZE * most <= I128_MAX
    requires forall r | r in rs :: Abs(r.amount) <= most && Abs(r.fee) <= most
    ensures AccumulationFits(PendingFlows(rs))
  {
    var fs := PendingFlows(rs);
    FlowsAreRemittances(rs);
    forall f | f in fs
      ensures Abs(f.amount) <= most && Abs(f.fee) <= most
    {
      var r :| r in rs && f == FlowOf(r);
    }
    forall i | 0 <= i < |fs|
      ensures StepFits(fs, i)
    {
      StepSafe(fs, i, most);
    }
  }

  lemma StepSafe(fs: seq<Flow>, i: nat, most: nat)
    requires i < |fs| <= MAX_NETTING_BATCH_SIZE && MAX_NETTING_BATCH_SIZE * most <= I128_MAX
    requires forall f | f in fs :: Abs(f.amount) <= most && Abs(f.fee) <= most
    ensures StepFits(fs, i)
  {
    var read, k := fs[..i + 1], PairOf(fs[i]);
    assert forall f | f in read :: f in fs;
    assert fs[i] in fs;
    SumBounded(read, Within(SignedWeight(), k), most);
    SumBounded(read, Within(FeeWeight(), k), most);
    TimesMonotone(|read|, MAX_NETTING_BATCH_SIZE, most);
    TimesMonotone(1, MAX_NETTING_BATCH_SIZE, most);
  }

  /** Within those bounds no order of the batch overflows, and all give the same transfers. */
  lemma OrderNeverMatters(rs: seq<Remittance>, rs': seq<Remittance>, most: nat)
    requires multiset(rs) == multiset(rs')
    requires |rs| <= MAX_NETTING_BATCH_SIZE && MAX_NETTING_BATCH_SIZE * most <= I128_MAX
    requires forall r | r in rs :: Abs(r.amount) <= most && Abs(r.fee) <= most
    ensures |rs'| <= MAX_NETTING_BATCH_SIZE
    ensures AccumulationFits(PendingFlows(rs)) && AccumulationFits(PendingFlows(rs'))
    ensures NetTransfers(PendingFlows(rs)) == NetTransfers(PendingFlows(rs'))
    ensures multiset(SkippedIds(rs)) == multiset(SkippedIds(rs'))
  {
    assert |rs'| == |multiset(rs')| == |multiset(rs)| == |rs|;
    forall r | r in rs'
      ensures r in rs
    {
      assert r in multiset(rs') && r in multiset(rs);
    }
    AccumulationSafe(rs, most);
    AccumulationSafe(rs', most);
    OrderIndependent(rs, rs');
  }

  lemma TotalsSnoc(fs: seq<Flow>, f: Flow)
    ensures Net(fs + [f], PairOf(f)) == Net(fs, PairOf(f)) + Signed(f)
    ensures Fees(fs + [f], PairOf(f)) == Fees(fs, PairOf(f)) + f.fee
  {
    assert (fs + [f])[..|fs|] == fs;
  }

  lemma AccumulationSnoc(fs: seq<Flow>, f: Flow)
    ensures AccumulationFits(fs + [f])
       <==> && AccumulationFits(fs) && InI128(Signed(f))
            && InI128(Net(fs, PairOf(f)) + Signed(f)) && InI128(Fees(fs, PairOf(f)) + f.fee)
  {
    var next := fs + [f];
    TotalsSnoc(fs, f);
    assert next[..|fs| + 1] == next;
    assert StepFits(next, |fs|) <==> InI128(Signed(f)) && InI128(Net(next, PairOf(f))) && InI128(Fees(next, PairOf(f)));
    forall i | 0 <= i < |fs|
      ensures StepFits(next, i) <==> StepFits(fs, i)
    {
      assert next[..i + 1] == fs[..i + 1];
    }
  }

  /** Three flows, each with a fee of one, between the parties of `k`. */
  lemma ThreeTotals(f: Flow, g: Flow, h: Flow, k: Pair)
    requires PairOf(f) == PairOf(g) == PairOf(h) == k && f.fee == g.fee == h.fee == 1
    requires InI128(Signed(f)) && InI128(Signed(g)) && InI128(Signed(h))
    ensures AccumulationFits([f, g, h])
       <==> InI128(Signed(f) + Signed(g)) && InI128(Signed(f) + Signed(g) + Signed(h))
  {
    assert [f, g, h] == [] + [f] + [g] + [h];
    AccumulationSnoc([], f);
    AccumulationSnoc([] + [f], g);
    AccumulationSnoc([] + [f] + [g], h);
    TotalsSnoc([], f);
    TotalsSnoc([] + [f], g);
  }

  /** Beyond them the order decides: of two orders of these flows one overflows on the way, the other does not. */
  lemma OrderCanDecide(a: Address, b: Address)
    requires TextLess(a, b)
    ensures var large, one, back := Flow(a, b, I128_MAX, 1), Flow(a, b, 1, 1), Flow(b, a, 1, 1);
            && multiset([large, one, back]) == multiset([large, back, one])
            && !AccumulationFits([large, one, back]) && AccumulationFits([large, back, one])
  {
    TextLessTotal(a, b);
    var large, one, back := Flow(a, b, I128_MAX, 1), Flow(a, b, 1, 1), Flow(b, a, 1, 1);
    ThreeTotals(large, one, back, Pair(a, b));
    ThreeTotals(large, back, one, Pair(a, b));
  }

  lemma {:induction false} NonNegativeFits<T>(xs: seq<T>, w: T -> int)
    requires forall x | x in xs :: w(x) >= 0
    requires SumBy(xs, w) <= I128_MAX
    ensures SumsFit(xs, w)
  {
    forall i | 0 <= i <= |xs|
      ensures InI128(SumBy(xs[..i], w))
    {
      assert xs == xs[..i] + xs[i..];
      SumByConcat(xs[..i], xs[i..], w);
      SumByNonNegative(xs[..i], w);
      SumByNonNegative(xs[i..], w);
    }
  }

  lemma FeesNonNegative(fs: seq<Flow>, k: Pair)
    requires forall f | f in fs :: f.fee >= 0
    ensures Fees(fs, k) >= 0
  {
    SumByNonNegative(fs, Within(FeeWeight(), k));
  }

  lemma OriginalsFit(rs: seq<Remittance>, most: nat)
    requires |rs| <= MAX_NETTING_BATCH_SIZE && MAX_NETTING_BATCH_SIZE * most <= I128_MAX
    requires forall r | r in rs :: 0 <= r.amount <= most && 0 <= r.fee <= most
    ensures SumsFit(rs, OfPending(AmountWeight())) && SumsFit(rs, OfPending(FeeWeight()))
    ensures SumBy(PendingFlows(rs), AmountWeight()) <= I128_MAX
    ensures SumBy(PendingFlows(rs), FeeWeight()) <= I128_MAX
  {
    forall r | r in rs
      ensures 0 <= OfPending(AmountWeight())(r) <= most && 0 <= OfPending(FeeWeight())(r) <= most
    {
      assert AmountWeight()(FlowOf(r)) == r.amount && FeeWeight()(FlowOf(r)) == r.fee;
    }
    SumBounded(rs, OfPending(AmountWeight()), most);
    SumBounded(rs, OfPending(FeeWeight()), most);
    TimesMonotone(|rs|, MAX_NETTING_BATCH_SIZE, most);
    NonNegativeFits(rs, OfPending(AmountWeight()));
    NonNegativeFits(rs, OfPending(FeeWeight()));
    PendingSum(rs, AmountWeight());
    PendingSum(rs, FeeWeight());
  }

  lemma NetsFit(fs: seq<Flow>)
    requires forall f | f in fs :: f.amount >= 0 && f.fee >= 0
    requires SumBy(fs, AmountWeight()) <= I128_MAX && SumBy(fs, FeeWeight()) <= I128_MAX
    ensures SumsFit(NetTransfers(fs), TransferVolume()) && SumsFit(NetTransfers(fs), TransferFees())
  {
    var ts := NetTransfers(fs);
    VolumeNeverGrows(fs);
    NonNegativeFits(ts, TransferVolume());
    TransfersExact(fs);
    forall t | t in ts
      ensures TransferFees()(t) >= 0
    {
      FeesNonNegative(fs, t.pair);
    }
    FeesAccounted(fs);
    SumByNonNegative(fs, DroppedWeight(fs));
    NonNegativeFits(ts, TransferFees());
  }

  /** Within those bounds the whole netting of a batch succeeds exactly when no fee is dropped. */
  lemma BoundedBatchValidates(rs: seq<Remittance>, most: nat)
    requires |rs| <= MAX_NETTING_BATCH_SIZE && MAX_NETTING_BATCH_SIZE * most <= I128_MAX
    requires forall r | r in rs :: 0 <= r.amount <= most && 0 <= r.fee <= most
    ensures AccumulationFits(PendingFlows(rs))
    ensures Validation(rs, NetTransfers(PendingFlows(rs))).Ok? <==> DroppedFees(PendingFlows(rs)) == 0
  {
    var fs := PendingFlows(rs);
    AccumulationSafe(rs, most);
    OriginalsFit(rs, most);
    FlowsAreRemittances(rs);
    forall f | f in fs
      ensures f.amount >= 0 && f.fee >= 0
    {
      var r :| r in rs && f == FlowOf(r);
    }
    NetsFit(fs);
    ValidationExact(rs);
  }
}
