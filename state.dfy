/** The contract's persisted record and the values it holds: one bet
    (`UserBetInfo`), the coins attached to a message, the bank transfers a
    handler emits, the three tiers and the errors of the handlers. */
module BetState {

  /** A coin attached to an incoming message (denomination and amount). */
  datatype Coin = Coin(denom: string, amount: nat)

  /** One recorded bet: who placed it, how much, its 1-based position in the
      round and the denomination it was paid in. */
  datatype UserBetInfo = UserBetInfo(userAddress: string, userAmount: nat, userOrder: nat, coinType: string)

  /** A bank transfer a handler asks the host to perform. */
  datatype Transfer = Transfer(recipient: string, amount: nat, denom: string)

  /** The three betting pools: no ceiling, 500 ceiling, 50 ceiling. */
  datatype Tier = Infinite | Whale | Shrimp

  /** The three fields the record keeps per tier: the bet list, the pot total
      and the start flag (true while the round accepts bets). */
  datatype Pool = Pool(userList: seq<UserBetInfo>, potTotal: nat, startFlag: bool)

  /** The persisted record: the administrator (fee) address and one pool per tier. */
  datatype State = State(feeAddress: string, infinite: Pool, whale: Pool, shrimp: Pool)

  /** The failures of the handlers. Each is returned before the record is
      saved, so the stored record stays as it was. */
  datatype ContractError =
    | BetAlreadyStarted       // a bet while the tier's start flag is false
    | NotEnoughFunds          // an infinite-tier bet of amount 0
    | BetTooLarge(limit: nat) // a whale or shrimp bet above its ceiling
    | Unauthorized            // a toggle or settlement by anyone but the fee address
    | GameStillOpen           // a settlement while the tier's start flag is true
    | PotTotalZero            // a settlement of a tier whose pot total is 0
    | DivisionByZero          // the share division panicked, aborting the transaction

  datatype Result<T> = Ok(value: T) | Err(error: ContractError)

  datatype Option<T> = None | Some(value: T)

  function PoolOf(s: State, t: Tier): Pool
  {
    match t
    case Infinite => s.infinite
    case Whale => s.whale
    case Shrimp => s.shrimp
  }

  /** `s` with the pool of tier `t` replaced by `p` and everything else kept. */
  function WithPool(s: State, t: Tier, p: Pool): (s': State)
    ensures PoolOf(s', t) == p
    ensures s'.feeAddress == s.feeAddress
    ensures forall u :: u != t ==> PoolOf(s', u) == PoolOf(s, u)
  {
    match t
    case Infinite => s.(infinite := p)
    case Whale => s.(whale := p)
    case Shrimp => s.(shrimp := p)
  }

  /** The sum of the amounts of a list of bets. */
  function SumAmounts(bets: seq<UserBetInfo>): nat
  {
    if |bets| == 0 then 0 else SumAmounts(bets[..|bets| - 1]) + bets[|bets| - 1].userAmount
  }

  lemma SumAmountsAppend(bets: seq<UserBetInfo>, b: UserBetInfo)
    ensures SumAmounts(bets + [b]) == SumAmounts(bets) + b.userAmount
  {
    assert (bets + [b])[..|bets|] == bets;
  }

  /** The amount check each tier's contribution handler applies: the infinite
      tier refuses 0 and has no ceiling; whale and shrimp accept 0 and refuse
      anything above 500 and 50. */
  predicate BetAllowed(t: Tier, amount: nat)
  {
    match t
    case Infinite => amount != 0
    case Whale => amount <= 500
    case Shrimp => amount <= 50
  }

  /** What a pool of tier `t` always satisfies: its pot total is the sum of its
      bets, each bet's order is its 1-based position, and each amount passed
      the tier's amount check. */
  ghost predicate PoolValid(t: Tier, p: Pool)
  {
    && p.potTotal == SumAmounts(p.userList)
    && (forall i :: 0 <= i < |p.userList| ==> p.userList[i].userOrder == i + 1)
    && (forall i :: 0 <= i < |p.userList| ==> BetAllowed(t, p.userList[i].userAmount))
  }

  ghost predicate Valid(s: State)
  {
    PoolValid(Infinite, s.infinite) && PoolValid(Whale, s.whale) && PoolValid(Shrimp, s.shrimp)
  }

  lemma ValidPoolOf(s: State, t: Tier)
    requires Valid(s)
    ensures PoolValid(t, PoolOf(s, t))
  {
  }

  lemma ValidWithPool(s: State, t: Tier, p: Pool)
    requires Valid(s) && PoolValid(t, p)
    ensures Valid(WithPool(s, t, p))
  {
  }

  /** The total amount moved by a list of transfers. */
  function TransferTotal(ts: seq<Transfer>): nat
  {
    if |ts| == 0 then 0 else ts[0].amount + TransferTotal(ts[1..])
  }
}
