/**
 Net settlement: opposing flows between the same two parties are offset and only the difference
 of each pair is transferred.
 */
module Netting {
  import opened Common
  import opened Types
  import opened Sums

  const MAX_NETTING_BATCH_SIZE := 50

  datatype Flow = Flow(from: Address, to: Address, amount: int, fee: int)

  /** The two parties of a flow, the one with the smaller strkey first. */
  datatype Pair = Pair(a: Address, b: Address)

  datatype NetTransfer = NetTransfer(pair: Pair, netAmount: int, totalFees: int)

  datatype NettingResult = NettingResult(netTransfers: seq<NetTransfer>, skippedIds: seq<nat>)

  // ----- the order on addresses and pairs -----

  predicate TextLess(s: string, t: string) {
    t != "" && (s == "" || s[0] < t[0] || (s[0] == t[0] && TextLess(s[1..], t[1..])))
  }

  lemma {:induction false} TextLessTotal(s: string, t: string)
    ensures (s != t) == (TextLess(s, t) || TextLess(t, s))
    ensures !(TextLess(s, t) && TextLess(t, s))
  {
    if s != "" && t != "" {
      TextLessTotal(s[1..], t[1..]);
      assert s == [s[0]] + s[1..] && t == [t[0]] + t[1..];
    }
  }

  lemma {:induction false} TextLessTransitive(s: string, t: string, u: string)
    requires TextLess(s, t) && TextLess(t, u)
    ensures TextLess(s, u)
  {
    if s != "" && s[0] == t[0] == u[0] {
      TextLessTransitive(s[1..], t[1..], u[1..]);
    }
  }

  predicate PairLess(p: Pair, q: Pair) {
    TextLess(p.a, q.a) || (p.a == q.a && TextLess(p.b, q.b))
  }

  lemma PairLessTotal(p: Pair, q: Pair)
    ensures (p != q) == (PairLess(p, q) || PairLess(q, p))
    ensures !(PairLess(p, q) && PairLess(q, p))
  {
    TextLessTotal(p.a, q.a);
    TextLessTotal(p.b, q.b);
  }

  lemma PairLessTransitive(p: Pair, q: Pair, r: Pair)
    requires PairLess(p, q) && PairLess(q, r)
    ensures PairLess(p, r)
  {
    if TextLess(p.a, q.a) && TextLess(q.a, r.a) {
      TextLessTransitive(p.a, q.a, r.a);
    }
    if TextLess(p.b, q.b) && TextLess(q.b, r.b) {
      TextLessTransitive(p.b, q.b, r.b);
    }
  }

  ghost predicate IsFirst(p: Pair, s: set<Pair>) {
    p in s && forall q | q in s && q != p :: PairLess(p, q)
  }

  lemma {:induction false} FirstExists(s: set<Pair>)
    requires s != {}
    ensures exists p :: IsFirst(p, s)
  {
    var q :| q in s;
    if s == {q} {
      assert IsFirst(q, s);
    } else {
      assert s - {q} != {};
      FirstExists(s - {q});
      var p :| IsFirst(p, s - {q});
      PairLessTotal(p, q);
      if PairLess(p, q) {
        assert IsFirst(p, s);
      } else {
        forall r | r in s && r != q
          ensures PairLess(q, r)
        {
          if r != p {
            PairLessTransitive(q, p, r);
          }
        }
        assert IsFirst(q, s);
      }
    }
  }

  /** The order in which a sorted host map lists its keys. */
  ghost function SortedKeys(s: set<Pair>): (ks: seq<Pair>)
    ensures forall k :: k in ks <==> k in s
    ensures Distinct(ks)
    ensures forall i, j | 0 <= i < j < |ks| :: PairLess(ks[i], ks[j])
  {
    if s == {} then
      []
    else
      FirstExists(s);
      var p :| IsFirst(p, s);
      [p] + SortedKeys(s - {p})
  }

  // ----- what netting computes, flow by flow -----

  function FlowOf(r: Remittance): Flow {
    Flow(r.sender, r.agent, r.amount, r.fee)
  }

  function PendingFlows(rs: seq<Remittance>): seq<Flow> {
    if rs == [] then [] else
      var r := rs[|rs| - 1];
      PendingFlows(rs[..|rs| - 1]) + if r.status.Pending? then [FlowOf(r)] else []
  }

  function SkippedIds(rs: seq<Remittance>): seq<nat> {
    if rs == [] then [] else
      var r := rs[|rs| - 1];
      SkippedIds(rs[..|rs| - 1]) + if r.status.Failed? || r.status.Disputed? then [r.id] else []
  }

  function NormalizePair(from: Address, to: Address): (r: (Pair, int)) {
    if TextLess(from, to) then (Pair(from, to), 1) else (Pair(to, from), -1)
  }

  function PairOf(f: Flow): Pair {
    NormalizePair(f.from, f.to).0
  }

  function Signed(f: Flow): int {
    if NormalizePair(f.from, f.to).1 == 1 then f.amount else -f.amount
  }

  /** The weight `v`, counted only for flows between the parties of `k`. */
  function Within(v: Flow -> int, k: Pair): Flow -> int {
    (f: Flow) => if PairOf(f) == k then v(f) else 0
  }

  function SignedWeight(): Flow -> int {
    (f: Flow) => Signed(f)
  }

  function AmountWeight(): Flow -> int {
    (f: Flow) => f.amount
  }

  function FeeWeight(): Flow -> int {
    (f: Flow) => f.fee
  }

  function Net(fs: seq<Flow>, k: Pair): int {
    SumBy(fs, Within(SignedWeight(), k))
  }

  function Fees(fs: seq<Flow>, k: Pair): int {
    SumBy(fs, Within(FeeWeight(), k))
  }

  function Pairs(fs: seq<Flow>): set<Pair> {
    set f | f in fs :: PairOf(f)
  }

  function Emit(ks: seq<Pair>, fs: seq<Flow>): seq<NetTransfer> {
    if ks == [] then [] else
      var k := ks[|ks| - 1];
      Emit(ks[..|ks| - 1], fs)
      + if Net(fs, k) != 0 then [NetTransfer(k, Net(fs, k), Fees(fs, k))] else []
  }

  ghost function NetTransfers(fs: seq<Flow>): seq<NetTransfer> {
    Emit(SortedKeys(Pairs(fs)), fs)
  }

  // ----- the arithmetic stays inside i128 -----

  /** Every value the accumulation loop computes while it reads flow `i`. */
  ghost predicate StepFits(fs: seq<Flow>, i: nat)
    requires i < |fs|
  {
    var k := PairOf(fs[i]);
    InI128(Signed(fs[i])) && InI128(Net(fs[..i + 1], k)) && InI128(Fees(fs[..i + 1], k))
  }

  ghost predicate AccumulationFits(fs: seq<Flow>) {
    forall i | 0 <= i < |fs| :: StepFits(fs, i)
  }

  // ----- the program -----

  method ComputeNetSettlements(remittances: seq<Remittance>) returns (r: Result<NettingResult>)
    ensures |remittances| > MAX_NETTING_BATCH_SIZE ==> r == Err(InvalidBatchSize)
    ensures |remittances| <= MAX_NETTING_BATCH_SIZE ==>
              var fs := PendingFlows(remittances);
              if AccumulationFits(fs)
              then r == Ok(NettingResult(NetTransfers(fs), SkippedIds(remittances)))
              else r == Err(HostTrap)
  {
    if |remittances| > MAX_NETTING_BATCH_SIZE {
      return Err(InvalidBatchSize);
    }
    var flows, skippedIds := CollectFlows(remittances);
    var accumulated := AccumulateNets(flows);
    if accumulated.Err? {
      return Err(accumulated.error);
    }
    var netTransfers := EmitTransfers(accumulated.value, flows);
    r := Ok(NettingResult(netTransfers, skippedIds));
  }

  method CollectFlows(remittances: seq<Remittance>) returns (flows: seq<Flow>, skippedIds: seq<nat>)
    ensures flows == PendingFlows(remittances)
    ensures skippedIds == SkippedIds(remittances)
  {
    flows, skippedIds := [], [];
    for i := 0 to |remittances|
      invariant flows == PendingFlows(remittances[..i])
      invariant skippedIds == SkippedIds(remittances[..i])
    {
      assert remittances[..i + 1][..i] == remittances[..i];
      var remittance := remittances[i];
      if remittance.status.Failed? || remittance.status.Disputed? {
        skippedIds := skippedIds + [remittance.id];
        continue;
      }
      if !remittance.status.Pending? {
        continue;
      }
      flows := flows + [FlowOf(remittance)];
    }
    assert remittances[..|remittances|] == remittances;
  }

  /** `m` holds, for every pair seen in `fs`, its net amount and its fees. */
  ghost predicate Totals(m: map<Pair, (int, int)>, fs: seq<Flow>) {
    m.Keys == Pairs(fs) && forall k | k in m :: m[k] == (Net(fs, k), Fees(fs, k))
  }

  /** One flow joins the running totals of its pair; i128 additions that overflow trap. */
  function AddFlow(m: map<Pair, (int, int)>, flow: Flow): Result<map<Pair, (int, int)>> {
    var (key, direction) := NormalizePair(flow.from, flow.to);
    var (currentNet, currentFees) := if key in m then m[key] else (0, 0);
    var signed := if direction == 1 then flow.amount else -flow.amount;
    :- Need(InI128(signed) && InI128(currentNet + signed) && InI128(currentFees + flow.fee), HostTrap);
    Ok(m[key := (currentNet + signed, currentFees + flow.fee)])
  }

  method AccumulateNets(flows: seq<Flow>) returns (r: Result<map<Pair, (int, int)>>)
    ensures r.Ok? == AccumulationFits(flows)
    ensures r.Ok? ==> Totals(r.value, flows)
    ensures r.Err? ==> r.error == HostTrap
  {
    var netMap: map<Pair, (int, int)> := map[];
    for i := 0 to |flows|
      invariant Totals(netMap, flows[..i])
      invariant forall j | 0 <= j < i :: StepFits(flows, j)
    {
      AddFlowLaw(netMap, flows, i);
      var added := AddFlow(netMap, flows[i]);
      if added.Err? {
        return added;
      }
      netMap := added.value;
    }
    assert flows[..|flows|] == flows;
    r := Ok(netMap);
  }

  lemma PairSoFar(m: map<Pair, (int, int)>, fs: seq<Flow>, i: nat)
    requires i < |fs| && Totals(m, fs[..i])
    ensures var k := PairOf(fs[i]);
            var (net, fees) := if k in m then m[k] else (0, 0);
            && Net(fs[..i + 1], k) == net + Signed(fs[i])
            && Fees(fs[..i + 1], k) == fees + fs[i].fee
  {
    var k, next := PairOf(fs[i]), fs[..i + 1];
    assert next[..|next| - 1] == fs[..i];
    if k !in m {
      AbsentPair(fs[..i], k);
    }
  }

  lemma OtherPair(fs: seq<Flow>, i: nat, k: Pair)
    requires i < |fs| && k != PairOf(fs[i])
    ensures Net(fs[..i + 1], k) == Net(fs[..i], k) && Fees(fs[..i + 1], k) == Fees(fs[..i], k)
  {
    assert fs[..i + 1][..i] == fs[..i];
  }

  lemma PairsExtend(fs: seq<Flow>, i: nat)
    requires i < |fs|
    ensures Pairs(fs[..i + 1]) == Pairs(fs[..i]) + {PairOf(fs[i])}
  {
    assert fs[..i + 1] == fs[..i] + [fs[i]];
  }

  lemma TotalsStep(m: map<Pair, (int, int)>, fs: seq<Flow>, i: nat, k: Pair, net: int, fees: int)
    requires i < |fs| && Totals(m, fs[..i]) && k == PairOf(fs[i])
    requires net == Net(fs[..i + 1], k) && fees == Fees(fs[..i + 1], k)
    ensures Totals(m[k := (net, fees)], fs[..i + 1])
  {
    var m' := m[k := (net, fees)];
    PairsExtend(fs, i);
    forall j | j in m'
      ensures m'[j] == (Net(fs[..i + 1], j), Fees(fs[..i + 1], j))
    {
      if j != k {
        OtherPair(fs, i, j);
      }
    }
  }

  lemma AddFlowIs(m: map<Pair, (int, int)>, f: Flow, net: int, fees: int)
    requires (net, fees) == if PairOf(f) in m then m[PairOf(f)] else (0, 0)
    ensures AddFlow(m, f)
         == if InI128(Signed(f)) && InI128(net + Signed(f)) && InI128(fees + f.fee)
            then Ok(m[PairOf(f) := (net + Signed(f), fees + f.fee)])
            else Err(HostTrap)
  {
  }

  lemma StepFitsIs(m: map<Pair, (int, int)>, fs: seq<Flow>, i: nat, net: int, fees: int)
    requires i < |fs| && Totals(m, fs[..i])
    requires (net, fees) == if PairOf(fs[i]) in m then m[PairOf(fs[i])] else (0, 0)
    ensures StepFits(fs, i)
       <==> InI128(Signed(fs[i])) && InI128(net + Signed(fs[i])) && InI128(fees + fs[i].fee)
  {
    PairSoFar(m, fs, i);
  }

  lemma TotalsNext(m: map<Pair, (int, int)>, fs: seq<Flow>, i: nat, net: int, fees: int)
    requires i < |fs| && Totals(m, fs[..i])
    requires (net, fees) == if PairOf(fs[i]) in m then m[PairOf(fs[i])] else (0, 0)
    ensures Totals(m[PairOf(fs[i]) := (net + Signed(fs[i]), fees + fs[i].fee)], fs[..i + 1])
  {
    PairSoFar(m, fs, i);
    TotalsStep(m, fs, i, PairOf(fs[i]), net + Signed(fs[i]), fees + fs[i].fee);
  }

  /** Reading one more flow updates the entry of its pair and no other. */
  lemma AddFlowLaw(m: map<Pair, (int, int)>, fs: seq<Flow>, i: nat)
    requires i < |fs| && Totals(m, fs[..i])
    ensures AddFlow(m, fs[i]).Ok? <==> StepFits(fs, i)
    ensures AddFlow(m, fs[i]).Ok? ==> Totals(AddFlow(m, fs[i]).value, fs[..i + 1])
    ensures AddFlow(m, fs[i]).Err? ==> AddFlow(m, fs[i]).error == HostTrap
  {
    var (net, fees) := if PairOf(fs[i]) in m then m[PairOf(fs[i])] else (0, 0);
    AddFlowIs(m, fs[i], net, fees);
    StepFitsIs(m, fs, i, net, fees);
    TotalsNext(m, fs, i, net, fees);
  }

  lemma {:induction false} AbsentPair(fs: seq<Flow>, k: Pair)
    requires k !in Pairs(fs)
    ensures Net(fs, k) == 0 && Fees(fs, k) == 0
  {
    if fs != [] {
      var front := fs[..|fs| - 1];
      assert forall f | f in front :: f in fs;
      assert fs[|fs| - 1] in fs;
      AbsentPair(front, k);
    }
  }

  lemma EmitNext(ks: seq<Pair>, fs: seq<Flow>, i: nat, net: int, fees: int)
    requires i < |ks| && net == Net(fs, ks[i]) && fees == Fees(fs, ks[i])
    ensures net != 0 ==> Emit(ks[..i + 1], fs) == Emit(ks[..i], fs) + [NetTransfer(ks[i], net, fees)]
    ensures net == 0 ==> Emit(ks[..i + 1], fs) == Emit(ks[..i], fs)
  {
    assert ks[..i + 1][..i] == ks[..i];
  }

  method EmitTransfers(netMap: map<Pair, (int, int)>, ghost flows: seq<Flow>)
    returns (netTransfers: seq<NetTransfer>)
    requires Totals(netMap, flows)
    ensures netTransfers == NetTransfers(flows)
  {
    netTransfers := [];
    var keys := ListKeys(netMap.Keys);
    for i := 0 to |keys|
      invariant netTransfers == Emit(keys[..i], flows)
    {
      var key := keys[i];
      assert key in netMap.Keys;
      var (netAmount, totalFees) := netMap[key];
      EmitNext(keys, flows, i, netAmount, totalFees);
      if netAmount != 0 {
        netTransfers := netTransfers + [NetTransfer(key, netAmount, totalFees)];
      }
    }
    assert keys[..|keys|] == keys;
  }

  /** The host lists a map's keys in their order, whatever the order of insertion. */
  method ListKeys(s: set<Pair>) returns (ks: seq<Pair>)
    ensures ks == SortedKeys(s)
    decreases s
  {
    if s == {} {
      return [];
    }
    FirstExists(s);
    var p :| p in s && forall q | q in s && q != p :: PairLess(p, q);
    FirstUnique(s, p);
    var rest := ListKeys(s - {p});
    ks := [p] + rest;
  }

  lemma FirstUnique(s: set<Pair>, p: Pair)
    requires IsFirst(p, s)
    ensures SortedKeys(s) == [p] + SortedKeys(s - {p})
  {
    forall q | IsFirst(q, s)
      ensures q == p
    {
      PairLessTotal(p, q);
    }
  }
}
