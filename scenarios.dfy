/** Concrete scenarios of the handlers: the unit tests of the contract module,
    and two scenarios that show what a whale settlement does as written and as
    intended. */
module Scenarios {
  import opened BetState
  import opened RandomDraw
  import opened WinnerWalk
  import opened Contract

  const ADMIN: string := "fee_address"
  const DENOM: string := "sei"
  /** The seed of the end-of-game test; its draw is 9427. */
  const TEST_SEED: U64 := 1231231809300

  /** The contribution tests: one bet of 10 into a fresh record is recorded
      as the tier's first bet and makes its pot 10, for every tier. */
  method TestAddBetUser(tier: Tier, contractAddress: string) returns (r: Result<seq<Transfer>>, s: State)
    ensures r == Ok([Transfer(contractAddress, 10, DENOM)])
    ensures PoolOf(s, tier).userList == [UserBetInfo("first_bet_user", 10, 1, DENOM)]
    ensures PoolOf(s, tier).potTotal == 10
  {
    s := Instantiate(ADMIN, true);
    r, s := AddBetUser(s, tier, "first_bet_user", [Coin(DENOM, 10)], contractAddress);
  }

  /** Three bets of 100, 50 and 50 into the infinite tier. */
  method ThreeInfiniteBets(contractAddress: string) returns (s: State)
    ensures s.feeAddress == ADMIN && Valid(s)
    ensures s.infinite == Pool([UserBetInfo("first_bet_user", 100, 1, DENOM),
                                UserBetInfo("second_bet_user", 50, 2, DENOM),
                                UserBetInfo("last_bet_user", 50, 3, DENOM)], 200, true)
    ensures s.whale == Pool([], 0, true) && s.shrimp == Pool([], 0, true)
  {
    s := Instantiate(ADMIN, true);
    var r;
    var b1 := UserBetInfo("first_bet_user", 100, 1, DENOM);
    var b2 := UserBetInfo("second_bet_user", 50, 2, DENOM);
    var b3 := UserBetInfo("last_bet_user", 50, 3, DENOM);
    var empty := Pool([], 0, true);
    r, s := AddBetUser(s, Infinite, "first_bet_user", [Coin(DENOM, 100)], contractAddress);
    assert s.infinite == Pool([b1], 100, true) && PoolOf(s, Whale) == empty && PoolOf(s, Shrimp) == empty;
    r, s := AddBetUser(s, Infinite, "second_bet_user", [Coin(DENOM, 50)], contractAddress);
    assert s.infinite == Pool([b1, b2], 150, true) && PoolOf(s, Whale) == empty && PoolOf(s, Shrimp) == empty;
    r, s := AddBetUser(s, Infinite, "last_bet_user", [Coin(DENOM, 50)], contractAddress);
    assert s.infinite == Pool([b1, b2, b3], 200, true) && PoolOf(s, Whale) == empty && PoolOf(s, Shrimp) == empty;
  }

  /** The end-of-game test as written: it settles without closing the round
      first, so the settlement fails with "game is still open" and the record
      keeps its three bets. */
  method TestEndGameAsWritten(contractAddress: string) returns (r: Result<seq<Transfer>>, s: State)
    ensures r == Err(GameStillOpen)
    ensures |s.infinite.userList| == 3 && s.infinite.potTotal == 200
  {
    s := ThreeInfiniteBets(contractAddress);
    r, s := EndGame(s, Infinite, ADMIN, TEST_SEED);
  }

  /** The end-of-game test with the round closed first: the draw is 9427, the
      bounds are 5000, 7500 and 10000, so the last bettor wins; the fee is 8,
      the prize 192, and the infinite tier is empty and open again. */
  method TestEndGameAfterToggle(contractAddress: string) returns (r: Result<seq<Transfer>>, s: State)
    ensures r == Ok([Transfer(ADMIN, 8, DENOM), Transfer("last_bet_user", 192, DENOM)])
    ensures s.infinite == Pool([], 0, true)
  {
    s := ThreeInfiniteBets(contractAddress);
    var toggled := ToggleGame(s, Infinite, ADMIN);
    s := toggled.value;
    assert s.infinite == Pool(s.infinite.userList, 200, false) && s.feeAddress == ADMIN;
    TestSeedDraw();
    ThreeBetsWalk(s.infinite.userList);
    assert Fee(200) == 8 && Prize(200) == 192;
    r, s := EndGame(s, Infinite, ADMIN, TEST_SEED);
  }

  /** The generator's first output for the test seed is 1234499427, so its
      draw is 9427. */
  lemma TestSeedDraw()
    ensures Draw(TEST_SEED) == 9427
  {
    var v := MULTIPLIER * TEST_SEED + INCREMENT;
    assert v == 2049416128388986723;
    assert v == 477166876 * TWO_32 + 1234499427;
    assert LcgStep(TEST_SEED) == 1234499427;
  }

  /** The walk of the end-of-game test: bounds 5000, 7500 and 10000 around
      the draw 9427 make the third bet the only one that holds it. */
  lemma ThreeBetsWalk(bets: seq<UserBetInfo>)
    requires bets == [UserBetInfo("first_bet_user", 100, 1, DENOM),
                      UserBetInfo("second_bet_user", 50, 2, DENOM),
                      UserBetInfo("last_bet_user", 50, 3, DENOM)]
    ensures Winner(bets, 200, 9427) == "last_bet_user" && PayoutDenom(bets, 200, 9427) == DENOM
  {
    assert Bound(bets, 200, 1) == 5000 && Bound(bets, 200, 2) == 7500 && Bound(bets, 200, 3) == 10000;
    assert !Hit(bets, 200, 9427, 0) && !Hit(bets, 200, 9427, 1) && Hit(bets, 200, 9427, 2);
    assert FirstHitFrom(bets, 200, 9427, 2) == Some(2);
    assert FirstHitFrom(bets, 200, 9427, 1) == Some(2);
  }

  /** A record with 100 in the infinite tier (open) and 200 in the whale tier
      (closed). */
  method InfiniteAndClosedWhale(contractAddress: string) returns (s: State)
    ensures s.feeAddress == ADMIN && Valid(s)
    ensures s.infinite == Pool([UserBetInfo("infinite_user", 100, 1, DENOM)], 100, true)
    ensures s.whale == Pool([UserBetInfo("whale_user", 200, 1, DENOM)], 200, false)
    ensures s.shrimp == Pool([], 0, true)
  {
    s := Instantiate(ADMIN, true);
    var r;
    var ib := UserBetInfo("infinite_user", 100, 1, DENOM);
    var wb := UserBetInfo("whale_user", 200, 1, DENOM);
    var empty := Pool([], 0, true);
    r, s := AddBetUser(s, Infinite, "infinite_user", [Coin(DENOM, 100)], contractAddress);
    assert s.infinite == Pool([ib], 100, true) && PoolOf(s, Whale) == empty && PoolOf(s, Shrimp) == empty;
    r, s := AddBetUser(s, Whale, "whale_user", [Coin(DENOM, 200)], contractAddress);
    assert PoolOf(s, Infinite) == Pool([ib], 100, true) && s.whale == Pool([wb], 200, true) && PoolOf(s, Shrimp) == empty;
    var toggled := ToggleGame(s, Whale, ADMIN);
    s := toggled.value;
    assert PoolOf(s, Infinite) == Pool([ib], 100, true) && PoolOf(s, Shrimp) == empty;
  }

  /** Settling the whale tier as written: the whale bettor is paid the
      infinite pot (fee 4, prize 96), the infinite tier is emptied and closed,
      the whale pool stays as it was, and settling the whale tier again panics
      on the now-zero infinite pot. */
  method WhaleSettlementAsWritten(contractAddress: string)
    returns (r: Result<seq<Transfer>>, s: State, again: Result<seq<Transfer>>)
    ensures r == Ok([Transfer(ADMIN, 4, DENOM), Transfer("whale_user", 96, DENOM)])
    ensures s.infinite == Pool([], 0, false)
    ensures s.whale == Pool([UserBetInfo("whale_user", 200, 1, DENOM)], 200, false)
    ensures again == Err(DivisionByZero)
  {
    s := InfiniteAndClosedWhale(contractAddress);
    TestSeedDraw();
    OneWhaleBetWalk(s.whale.userList, 100);
    assert Fee(100) == 4 && Prize(100) == 96;
    assert PoolOf(s, Whale) == s.whale && PoolOf(s, Infinite) == s.infinite;
    r, s := EndGame(s, Whale, ADMIN, TEST_SEED);
    assert PoolOf(s, Whale) == s.whale && s.infinite.potTotal == 0;
    var s2;
    again, s2 := EndGame(s, Whale, ADMIN, TEST_SEED);
  }

  /** A whale list of one bet of 200 holds the draw 9427 whether the shares
      are taken against 100 (a share of 20000) or against 200 (10000). */
  lemma OneWhaleBetWalk(bets: seq<UserBetInfo>, pot: nat)
    requires bets == [UserBetInfo("whale_user", 200, 1, DENOM)]
    requires pot == 100 || pot == 200
    ensures Winner(bets, pot, 9427) == "whale_user" && PayoutDenom(bets, pot, 9427) == DENOM
  {
    assert Bound(bets, pot, 1) == 2000000 / pot;
    assert Hit(bets, pot, 9427, 0);
  }

  /** Settling the whale tier as intended: the whale pot of 200 is split into
      fee 8 and prize 192, the whale pool is empty and open again, and the
      infinite tier keeps its bet. */
  method WhaleSettlementIntended(contractAddress: string) returns (r: Result<seq<Transfer>>, s: State)
    ensures r == Ok([Transfer(ADMIN, 8, DENOM), Transfer("whale_user", 192, DENOM)])
    ensures s.whale == Pool([], 0, true)
    ensures s.infinite == Pool([UserBetInfo("infinite_user", 100, 1, DENOM)], 100, true)
  {
    s := InfiniteAndClosedWhale(contractAddress);
    TestSeedDraw();
    OneWhaleBetWalk(s.whale.userList, 200);
    assert Fee(200) == 8 && Prize(200) == 192;
    assert PoolOf(s, Whale) == s.whale && PoolOf(s, Infinite) == s.infinite;
    r, s := EndGameIntended(s, Whale, ADMIN, TEST_SEED);
  }
}
