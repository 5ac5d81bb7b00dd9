/** The handlers of the betting contract: instantiation, the three
    contribution handlers, the three start-flag toggles and the three
    settlement handlers. Each handler reads the stored record, checks its
    guards in the source's order, and either fails (the record is not saved,
    so it stays as it was) or returns the new record with the transfers it
    asks the host to perform. */
module Contract {
  import opened BetState
  import opened RandomDraw
  import opened WinnerWalk

  /** `instantiate`: the zeroed record. All three start flags are true
      whatever the message's start flag says. */
  function Instantiate(feeAddress: string, startFlag: bool): (s: State)
    ensures s.feeAddress == feeAddress
    ensures forall t :: PoolOf(s, t).userList == [] && PoolOf(s, t).potTotal == 0 && PoolOf(s, t).startFlag
    ensures Valid(s)
  {
    State(feeAddress, Pool([], 0, true), Pool([], 0, true), Pool([], 0, true))
  }

  /** The coin the contribution handlers use: the last one attached, or an
      amount of 0 with an empty denomination when none is attached. */
  function LastCoin(funds: seq<Coin>): Coin
  {
    if |funds| == 0 then Coin("", 0) else funds[|funds| - 1]
  }

  /** The loop over the attached coins: each coin overwrites amount and denomination. */
  method LastFunds(funds: seq<Coin>) returns (amount: nat, denom: string)
    ensures |funds| == 0 ==> amount == 0 && denom == ""
    ensures |funds| > 0 ==> amount == funds[|funds| - 1].amount && denom == funds[|funds| - 1].denom
  {
    amount, denom := 0, "";
    var i := 0;
    while i < |funds|
      invariant i <= |funds|
      invariant i == 0 ==> amount == 0 && denom == ""
      invariant i > 0 ==> amount == funds[i - 1].amount && denom == funds[i - 1].denom
    {
      amount := funds[i].amount;
      denom := funds[i].denom;
      i := i + 1;
    }
  }

  /** The error a tier's contribution handler returns for a refused amount. */
  function AmountError(t: Tier): ContractError
  {
    match t
    case Infinite => NotEnoughFunds
    case Whale => BetTooLarge(500)
    case Shrimp => BetTooLarge(50)
  }

  /** The bet a contribution to `t` records: the sender, the last coin, and the
      next 1-based order. */
  function NewBet(config: State, t: Tier, sender: string, funds: seq<Coin>): UserBetInfo
  {
    UserBetInfo(sender, LastCoin(funds).amount, |PoolOf(config, t).userList| + 1, LastCoin(funds).denom)
  }

  /** The first guard a contribution to `tier` fails, in the handlers'
      order: the start flag, then the tier's amount check on the last coin. */
  function ContributionError(config: State, tier: Tier, funds: seq<Coin>): Option<ContractError>
  {
    if !PoolOf(config, tier).startFlag then Some(BetAlreadyStarted)
    else if !BetAllowed(tier, LastCoin(funds).amount) then Some(AmountError(tier))
    else None
  }

  /** `add_bet_user_infinte`, `add_bet_user_whale`, `add_bet_user_shrimp`.
      Accepted exactly when no guard fails; then one bet is appended and the
      pot grows by its amount, nothing else in the record changes, and one
      transfer of that amount to the contract is asked for. */
  method AddBetUser(config: State, tier: Tier, sender: string, funds: seq<Coin>, contractAddress: string)
    returns (r: Result<seq<Transfer>>, next: State)
    ensures r.Err? ==> next == config && Some(r.error) == ContributionError(config, tier, funds)
    ensures r.Ok? <==> ContributionError(config, tier, funds) == None
    ensures r.Ok? ==>
              var p := PoolOf(config, tier);
              && PoolOf(next, tier) == Pool(p.userList + [NewBet(config, tier, sender, funds)],
                                            p.potTotal + LastCoin(funds).amount, p.startFlag)
              && r.value == [Transfer(contractAddress, LastCoin(funds).amount, LastCoin(funds).denom)]
    ensures next.feeAddress == config.feeAddress
    ensures forall u :: u != tier ==> PoolOf(next, u) == PoolOf(config, u)
    ensures Valid(config) ==> Valid(next)
  {
    var pool := PoolOf(config, tier);
    if !pool.startFlag {
      return Err(BetAlreadyStarted), config;
    }
    var fundsAmount, coinType := LastFunds(funds);
    match tier {
      case Infinite =>
        if fundsAmount == 0 {
          return Err(NotEnoughFunds), config;
        }
      case Whale =>
        if fundsAmount > 500 {
          return Err(BetTooLarge(500)), config;
        }
      case Shrimp =>
        if fundsAmount > 50 {
          return Err(BetTooLarge(50)), config;
        }
    }
    var orderId := |pool.userList|;
    var bet := UserBetInfo(sender, fundsAmount, orderId + 1, coinType);
    SumAmountsAppend(pool.userList, bet);
    pool := pool.(potTotal := pool.potTotal + fundsAmount, userList := pool.userList + [bet]);
    next := WithPool(config, tier, pool);
    r := Ok([Transfer(contractAddress, fundsAmount, coinType)]);
    if Valid(config) {
      ValidPoolOf(config, tier);
      ValidWithPool(config, tier, pool);
    }
  }

  /** `toggle_game_infinte`, `toggle_game_whale`, `toggle_game_shrimp`: only
      the fee address may flip a tier's start flag; nothing else changes. */
  function ToggleGame(config: State, tier: Tier, sender: string): (r: Result<State>)
    ensures r.Err? <==> sender != config.feeAddress
    ensures r.Err? ==> r.error == Unauthorized
    ensures r.Ok? ==>
              && PoolOf(r.value, tier).startFlag == !PoolOf(config, tier).startFlag
              && PoolOf(r.value, tier).userList == PoolOf(config, tier).userList
              && PoolOf(r.value, tier).potTotal == PoolOf(config, tier).potTotal
              && r.value.feeAddress == config.feeAddress
              && forall u :: u != tier ==> PoolOf(r.value, u) == PoolOf(config, u)
    ensures r.Ok? && Valid(config) ==> Valid(r.value)
  {
    if sender != config.feeAddress then
      Err(Unauthorized)
    else
      var p := PoolOf(config, tier);
      Ok(WithPool(config, tier, p.(startFlag := !p.startFlag)))
  }

  /** Toggling a tier twice as the fee address gives back the record. */
  lemma ToggleTwiceRestores(config: State, tier: Tier)
    ensures var once := ToggleGame(config, tier, config.feeAddress);
            once.Ok? && ToggleGame(once.value, tier, config.feeAddress) == Ok(config)
  {
  }

  /** The reset a settlement performs on `t`: the list emptied, the pot zeroed
      and the start flag negated. */
  function ResetPool(config: State, t: Tier): State
  {
    var p := PoolOf(config, t);
    WithPool(config, t, Pool([], 0, !p.startFlag))
  }

  /** The first guard a settlement of `tier` fails, in the handlers' order:
      the sender, the start flag, the pot total, and finally the division by
      `payTier`'s pot total, which panics when that is 0 and the list is not
      empty. */
  function SettlementError(config: State, tier: Tier, payTier: Tier, sender: string): Option<ContractError>
  {
    if sender != config.feeAddress then Some(Unauthorized)
    else if PoolOf(config, tier).startFlag then Some(GameStillOpen)
    else if PoolOf(config, tier).potTotal == 0 then Some(PotTotalZero)
    else if |PoolOf(config, tier).userList| > 0 && PoolOf(config, payTier).potTotal == 0 then Some(DivisionByZero)
    else None
  }

  /** The two transfers of a settlement: the fee to the fee address and the
      prize to the winner, both in the payout denomination. */
  function Payout(config: State, tier: Tier, payTier: Tier, d: nat): (ts: seq<Transfer>)
    requires |PoolOf(config, tier).userList| == 0 || PoolOf(config, payTier).potTotal > 0
    ensures |ts| == 2 && ts[0].recipient == config.feeAddress
    ensures ts[0].amount == Fee(PoolOf(config, payTier).potTotal)
    ensures ts[1].amount == Prize(PoolOf(config, payTier).potTotal)
    ensures ts[1].recipient == Winner(PoolOf(config, tier).userList, PoolOf(config, payTier).potTotal, d)
    ensures TransferTotal(ts) == PoolOf(config, payTier).potTotal
  {
    var bets := PoolOf(config, tier).userList;
    var pot := PoolOf(config, payTier).potTotal;
    var denom := PayoutDenom(bets, pot, d);
    var ts := [Transfer(config.feeAddress, Fee(pot), denom), Transfer(Winner(bets, pot, d), Prize(pot), denom)];
    assert TransferTotal(ts[1..]) == Prize(pot) by {
      assert ts[1..][1..] == [];
    }
    ts
  }

  /** The body shared by the three settlement handlers. The guards (sender,
      start flag, pot total) and the walk's list are those of `tier`; the walk's
      divisor, the fee, the prize and the reset are those of `payTier`.
      A division by a zero divisor panics, which aborts the transaction. */
  method SettleRound(config: State, tier: Tier, payTier: Tier, sender: string, seed: U64)
    returns (r: Result<seq<Transfer>>, next: State)
    ensures r.Err? ==> next == config && Some(r.error) == SettlementError(config, tier, payTier, sender)
    ensures r.Ok? <==> SettlementError(config, tier, payTier, sender) == None
    ensures r.Ok? ==> next == ResetPool(config, payTier) && r.value == Payout(config, tier, payTier, Draw(seed))
  {
    if sender != config.feeAddress {
      return Err(Unauthorized), config;
    }
    var randomNumber := GenerateRandomValue(seed);
    var pool := PoolOf(config, tier);
    if pool.startFlag {
      return Err(GameStillOpen), config;
    }
    if pool.potTotal == 0 {
      return Err(PotTotalZero), config;
    }
    var divisor := PoolOf(config, payTier).potTotal;
    if |pool.userList| > 0 && divisor == 0 {
      return Err(DivisionByZero), config;
    }
    var winner, coinType := PickWinner(pool.userList, divisor, randomNumber);
    var fees := divisor * 4 / 100;
    var prize := divisor - fees;
    r := Ok([Transfer(config.feeAddress, fees, coinType), Transfer(winner, prize, coinType)]);
    var paid := PoolOf(config, payTier);
    next := WithPool(config, payTier, paid.(userList := [], potTotal := 0, startFlag := !paid.startFlag));
  }

  /** After settling `t`: `t`'s pool is empty, zeroed and open again, and
      every other tier and the fee address are as before. */
  ghost predicate SettledInIsolation(before: State, after: State, t: Tier)
  {
    && PoolOf(after, t) == Pool([], 0, true)
    && after.feeAddress == before.feeAddress
    && forall u :: u != t ==> PoolOf(after, u) == PoolOf(before, u)
  }

  /** The reset the source performs after settling a closed tier `t` (that of
      the infinite tier) leaves the record settled in isolation exactly when
      `t` is the infinite tier. */
  lemma InfiniteResetIsolatedOnlyForInfinite(config: State, t: Tier)
    requires !PoolOf(config, t).startFlag
    ensures SettledInIsolation(config, ResetPool(config, Infinite), t) <==> t == Infinite
  {
    if t != Infinite {
      assert PoolOf(ResetPool(config, Infinite), t) == PoolOf(config, t);
    }
  }

  /** In a valid record the infinite tier's walk, which divides by its own
      pot total, ends at a cumulative bound of at most 10000. */
  lemma InfiniteWalkWithinScale(config: State)
    requires Valid(config) && config.infinite.potTotal > 0
    ensures Bound(config.infinite.userList, config.infinite.potTotal, |config.infinite.userList|) <= SCALE
  {
    FinalBound(config.infinite.userList, config.infinite.potTotal);
  }

  /** `end_game_infinite`, `end_game_whale`, `end_game_shrimp` as written: all
      three divide by, pay out and reset the infinite tier's pot. Settling the
      infinite tier is isolated; the whale and shrimp settlements pay out the
      infinite pot and leave their own pool, pot and flag as they were. */
  method EndGame(config: State, tier: Tier, sender: string, seed: U64)
    returns (r: Result<seq<Transfer>>, next: State)
    ensures r.Err? ==> next == config && Some(r.error) == SettlementError(config, tier, Infinite, sender)
    ensures r.Ok? <==> SettlementError(config, tier, Infinite, sender) == None
    ensures r.Ok? ==> r.value == Payout(config, tier, Infinite, Draw(seed))
    ensures r.Ok? ==> TransferTotal(r.value) == config.infinite.potTotal
    ensures r.Ok? ==> next.infinite == Pool([], 0, !config.infinite.startFlag)
    ensures r.Ok? ==> next.whale == config.whale && next.shrimp == config.shrimp && next.feeAddress == config.feeAddress
    ensures r.Ok? ==> (SettledInIsolation(config, next, tier) <==> tier == Infinite)
    ensures Valid(config) ==> Valid(next)
  {
    r, next := SettleRound(config, tier, Infinite, sender, seed);
    if r.Ok? {
      InfiniteResetIsolatedOnlyForInfinite(config, tier);
    }
  }

  /** The per-tier settlement: the infinite path's body applied to the tier's
      own pot, which is the divisor, is paid out and is reset, so the other
      tiers are untouched. */
  method EndGameIntended(config: State, tier: Tier, sender: string, seed: U64)
    returns (r: Result<seq<Transfer>>, next: State)
    ensures r.Err? ==> next == config && Some(r.error) == SettlementError(config, tier, tier, sender)
    ensures r.Ok? <==> SettlementError(config, tier, tier, sender) == None
    ensures r.Ok? ==> r.value == Payout(config, tier, tier, Draw(seed))
    ensures r.Ok? ==> TransferTotal(r.value) == PoolOf(config, tier).potTotal
    ensures r.Ok? ==> SettledInIsolation(config, next, tier)
    ensures Valid(config) ==> Valid(next)
  {
    r, next := SettleRound(config, tier, tier, sender, seed);
  }
}
