/** The first payment of a sender, in closed form: what the short runs start from. */
module FirstPayments {
  import opened Common
  import opened Types
  import opened Ledger
  import opened LedgerRuns
  import DailyLimit
  import FeeService
  import SenderVolume

  const NOW := Env(1, true, true)

  function Rates(bps: nat): FeeService.FeeConfig {
    FeeService.FeeConfig(FeeService.Percentage(bps), bps, None, 0)
  }

  /** A configuration without limits, routes or windows. */
  function Plain(fees: FeeService.FeeConfig, agents: set<Address>): Config {
    Config(fees, map[], map[], "treasury", agents, {}, false, false, 0, 0, 0, 50)
  }

  /** The state after a first payment by `sender` at time 1. */
  function AfterFirst(s: State, sender: Address, agent: Address, c: DailyLimit.Corridor, amount: nat, fee: int): State {
    var id := s.counter + 1;
    s.(remittances := s.remittances[id := Remittance(id, sender, agent, amount, fee, Pending, None, 1, None, None)],
       counter := id,
       balances := s.balances[sender := 0][SELF := Balance(s.balances, SELF) + amount],
       transfers := s.transfers[sender := [DailyLimit.TransferRecord(1, amount, c)]],
       volumes := s.volumes[sender := [SenderVolume.Bucket(0, amount)]])
  }

  /** `sender` spends everything on a first payment, and nothing in the configuration is against it. */
  predicate Beginner(s: State, sender: Address, agent: Address, amount: nat) {
    && !s.cfg.migrating && agent in s.cfg.agents && sender !in s.cfg.blacklisted
    && s.cfg.limits == map[] && s.cfg.expiryWindow == 0
    && sender != SELF && Balance(s.balances, sender) == amount && 0 < amount <= I128_MAX
    && sender !in s.transfers && sender !in s.volumes && s.counter < 10
  }

  lemma FirstLimit(s: State, sender: Address, agent: Address, c: DailyLimit.Corridor, amount: nat)
    requires Beginner(s, sender, agent, amount)
    ensures EnforceLimit(s, 1, sender, c, amount)
         == Ok(s.(transfers := s.transfers[sender := [DailyLimit.TransferRecord(1, amount, c)]]))
  {
    var r := DailyLimit.TransferRecord(1, amount, c);
    assert DailyLimit.RollingTotal([], 0, c) == Ok(0) && DailyLimit.Newer([], 0) == [];
    assert [] + [r] == [r];
  }

  lemma FirstVolume(amount: nat)
    requires amount > 0
    ensures SenderVolume.Rolling([], 1) == 0
    ensures SenderVolume.Record([], amount, 1) == Ok([SenderVolume.Bucket(0, amount)])
  {
    assert SenderVolume.Kept([], 0) == [] && SenderVolume.BucketStart(1) == 0;
    assert [] + [SenderVolume.Bucket(0, amount)] == [SenderVolume.Bucket(0, amount)];
  }

  lemma FirstDeposit(s: State, limited: State, sender: Address, agent: Address, c: DailyLimit.Corridor, amount: nat,
                     fee: int)
    requires Beginner(s, sender, agent, amount)
    requires limited == s.(transfers := s.transfers[sender := [DailyLimit.TransferRecord(1, amount, c)]])
    ensures Deposit(limited, 1, sender, Entry(agent, amount, None), fee)
         == Ok((AfterFirst(s, sender, agent, c, amount, fee), s.counter + 1))
  {
    FirstVolume(amount);
    var funded := Transfer(limited, sender, SELF, amount).value;
    assert funded == limited.(balances := s.balances[sender := 0][SELF := Balance(s.balances, SELF) + amount]);
  }

  lemma FirstAccepted(s: State, sender: Address, agent: Address, c: DailyLimit.Corridor, amount: nat, fee: int)
    requires Beginner(s, sender, agent, amount)
    ensures Accept(s, 1, sender, Entry(agent, amount, None), c, Ok(fee))
         == Ok((AfterFirst(s, sender, agent, c, amount, fee), s.counter + 1))
  {
    FirstLimit(s, sender, agent, c, amount);
    FirstDeposit(s, EnforceLimit(s, 1, sender, c, amount).value, sender, agent, c, amount, fee);
  }

  lemma FirstCreated(s: State, sender: Address, agent: Address, amount: nat, fee: int)
    requires Beginner(s, sender, agent, amount)
    requires FeeService.PlatformFeeForSender(s.cfg.feeConfig, amount, 0) == Ok(fee)
    ensures Create(s, NOW, sender, Entry(agent, amount, None))
         == Ok((AfterFirst(s, sender, agent, DailyLimit.GLOBAL_CORRIDOR, amount, fee), s.counter + 1))
  {
    FirstVolume(amount);
    FirstAccepted(s, sender, agent, DailyLimit.GLOBAL_CORRIDOR, amount, fee);
  }

  lemma FirstOnRoute(s: State, sender: Address, agent: Address, amount: nat, from: Option<string>, to: Option<string>,
                     fee: int)
    requires Beginner(s, sender, agent, amount)
    requires RouteFee(s, 1, sender, Entry(agent, amount, None), from, to) == Ok(fee)
    ensures CreateWithCorridor(s, NOW, sender, Entry(agent, amount, None), from, to)
         == Ok((AfterFirst(s, sender, agent, LimitCorridor(to), amount, fee), s.counter + 1))
  {
    FirstAccepted(s, sender, agent, LimitCorridor(to), amount, fee);
  }

  // ----- short runs -----

  lemma RunSnoc(s: State, log: seq<Event>, e: Event)
    ensures Run(s, log + [e]) == Apply(Run(s, log), e)
  {
    assert (log + [e])[..|log|] == log;
  }

  lemma RunOne(s: State, e: Event)
    ensures Run(s, [e]) == Apply(s, e)
  {
    RunSnoc(s, [], e);
    assert [] + [e] == [e];
  }

  lemma RunTwo(s: State, e: Event, e': Event)
    ensures Run(s, [e, e']) == Apply(Apply(s, e), e')
  {
    RunOne(s, e);
    RunSnoc(s, [e], e');
    assert [e] + [e'] == [e, e'];
  }
}
