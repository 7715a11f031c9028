/** Net settlement in the terms of the batch: who is paid by a net transfer, and what two parties owe each other. */
module NetPayments {
  import opened Common
  import opened Types
  import opened Sums
  import opened Netting
  import opened NettingLaws

  /** A pending remittance from one party to another. */
  function OneWay(from: Address, to: Address): Remittance -> int {
    (r: Remittance) => if r.status.Pending? && r.sender == from && r.agent == to then r.amount else 0
  }

  /** What the batch sends from one party to another. */
  function Sends(rs: seq<Remittance>, from: Address, to: Address): int {
    SumBy(rs, OneWay(from, to))
  }

  /** A pending remittance between two parties, either way. */
  function FeeBetween(p: Address, q: Address): Remittance -> int {
    (r: Remittance) =>
      if r.status.Pending? && ((r.sender == p && r.agent == q) || (r.sender == q && r.agent == p)) then r.fee else 0
  }

  function FeesBetween(rs: seq<Remittance>, p: Address, q: Address): int {
    SumBy(rs, FeeBetween(p, q))
  }

  /** What is left of the flows from `q` to `p` once those from `p` to `q` are offset. */
  function Owed(rs: seq<Remittance>, p: Address, q: Address): int {
    Sends(rs, q, p) - Sends(rs, p, q)
  }

  /** The key of two different parties. */
  function KeyOf(p: Address, q: Address): Pair {
    if TextLess(p, q) then Pair(p, q) else Pair(q, p)
  }

  lemma OneFlow(r: Remittance, p: Address, q: Address)
    requires p != q
    ensures OfPending(Within(SignedWeight(), KeyOf(p, q)))(r)
         == if TextLess(p, q) then OneWay(p, q)(r) - OneWay(q, p)(r) else OneWay(q, p)(r) - OneWay(p, q)(r)
    ensures OfPending(Within(FeeWeight(), KeyOf(p, q)))(r) == FeeBetween(p, q)(r)
  {
    TextLessTotal(p, q);
    TextLessTotal(r.sender, r.agent);
    var f := FlowOf(r);
    assert SignedWeight()(f) == Signed(f) && FeeWeight()(f) == f.fee;
  }

  lemma {:induction false} SumsBetween(rs: seq<Remittance>, p: Address, q: Address)
    requires p != q
    ensures SumBy(rs, OfPending(Within(SignedWeight(), KeyOf(p, q))))
         == if TextLess(p, q) then -Owed(rs, p, q) else Owed(rs, p, q)
    ensures SumBy(rs, OfPending(Within(FeeWeight(), KeyOf(p, q)))) == FeesBetween(rs, p, q)
  {
    if rs != [] {
      SumsBetween(rs[..|rs| - 1], p, q);
      OneFlow(rs[|rs| - 1], p, q);
    }
  }

  lemma NetBetween(rs: seq<Remittance>, p: Address, q: Address)
    requires p != q
    ensures Net(PendingFlows(rs), KeyOf(p, q)) == if TextLess(p, q) then -Owed(rs, p, q) else Owed(rs, p, q)
    ensures Fees(PendingFlows(rs), KeyOf(p, q)) == FeesBetween(rs, p, q)
  {
    PendingSum(rs, Within(SignedWeight(), KeyOf(p, q)));
    PendingSum(rs, Within(FeeWeight(), KeyOf(p, q)));
    SumsBetween(rs, p, q);
  }

  /** `t` is a transfer from `q` to `p`. */
  predicate Goes(t: NetTransfer, q: Address, p: Address) {
    Payee(t) == p && Payer(t) == q
  }

  lemma GoesAlong(t: NetTransfer, p: Address, q: Address)
    requires p != q && TextLess(t.pair.a, t.pair.b) && t.netAmount != 0
    ensures Goes(t, q, p) <==> t.pair == KeyOf(p, q) && (if TextLess(p, q) then t.netAmount < 0 else t.netAmount > 0)
  {
    TextLessTotal(p, q);
    TextLessTotal(t.pair.a, t.pair.b);
  }

  lemma KeysInOrder(fs: seq<Flow>, k: Pair)
    requires k in Pairs(fs)
    ensures TextLess(k.a, k.b) || k.a == k.b
  {
    var f :| f in fs && PairOf(f) == k;
    TextLessTotal(f.from, f.to);
  }

  /**
   Of two different parties one is paid by the other exactly if the other's flows to it exceed its own;
   the transfer is then the excess, and carries the fees of all the flows between the two.
   */
  lemma PaysWhatIsOwed(rs: seq<Remittance>, p: Address, q: Address)
    requires p != q
    ensures var ts := NetTransfers(PendingFlows(rs));
            && (Owed(rs, p, q) > 0 <==> exists t :: t in ts && Goes(t, q, p))
            && forall t | t in ts && Goes(t, q, p) ::
                 Abs(t.netAmount) == Owed(rs, p, q) && t.totalFees == FeesBetween(rs, p, q)
  {
    var fs := PendingFlows(rs);
    var ts, k := NetTransfers(fs), KeyOf(p, q);
    EmitExact(SortedKeys(Pairs(fs)), fs);
    NetBetween(rs, p, q);
    forall t | t in ts && Goes(t, q, p)
      ensures Owed(rs, p, q) > 0
      ensures Abs(t.netAmount) == Owed(rs, p, q) && t.totalFees == FeesBetween(rs, p, q)
    {
      KeysInOrder(fs, t.pair);
      GoesAlong(t, p, q);
    }
    if Owed(rs, p, q) > 0 {
      var t := NetTransfer(k, Net(fs, k), Fees(fs, k));
      if k !in Pairs(fs) {
        AbsentPair(fs, k);
      }
      TextLessTotal(p, q);
      GoesAlong(t, p, q);
      assert t in ts;
    }
  }
}
