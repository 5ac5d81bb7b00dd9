/** Winner selection and the fee split of a settlement.

    The walk visits the bets in insertion order and keeps a cumulative share
    on the 10000-unit scale: bet `i` covers the open interval
    (Bound(i), Bound(i + 1)), where Bound(k) is the sum of the first k shares
    `amount * 100 * 100 / pot` (floor division). The first bet whose interval
    holds the draw wins; when none does, the winner is the empty address. */
module WinnerWalk {
  import opened BetState
  import opened RandomDraw

  /** One bet's share of the pot on the 10000-unit scale, rounded down. */
  function Share(amount: nat, pot: nat): nat
    requires pot > 0
  {
    amount * 100 * 100 / pot
  }

  /** The cumulative share of the first `k` bets. */
  function Bound(bets: seq<UserBetInfo>, pot: nat, k: nat): nat
    requires k <= |bets|
    requires pot > 0 || k == 0
  {
    if k == 0 then 0 else Bound(bets, pot, k - 1) + Share(bets[k - 1].userAmount, pot)
  }

  /** Bet `i` holds the draw: previous bound < d < its own bound, both strict. */
  predicate Hit(bets: seq<UserBetInfo>, pot: nat, d: nat, i: nat)
    requires i < |bets| && pot > 0
  {
    Bound(bets, pot, i) < d < Bound(bets, pot, i + 1)
  }

  /** The first bet at or after `k` that holds the draw, if any. */
  function FirstHitFrom(bets: seq<UserBetInfo>, pot: nat, d: nat, k: nat): (r: Option<nat>)
    requires k <= |bets|
    requires pot > 0 || |bets| == 0
    ensures r.Some? ==> k <= r.value < |bets| && Hit(bets, pot, d, r.value)
    ensures r.Some? ==> forall j :: k <= j < r.value ==> !Hit(bets, pot, d, j)
    ensures r.None? ==> forall j :: k <= j < |bets| ==> !Hit(bets, pot, d, j)
    decreases |bets| - k
  {
    if k == |bets| then None
    else if Hit(bets, pot, d, k) then Some(k)
    else FirstHitFrom(bets, pot, d, k + 1)
  }

  function FirstHit(bets: seq<UserBetInfo>, pot: nat, d: nat): Option<nat>
    requires pot > 0 || |bets| == 0
  {
    FirstHitFrom(bets, pot, d, 0)
  }

  /** The winning address: the first bet holding the draw, else "". */
  function Winner(bets: seq<UserBetInfo>, pot: nat, d: nat): string
    requires pot > 0 || |bets| == 0
  {
    match FirstHit(bets, pot, d)
    case Some(i) => bets[i].userAddress
    case None => ""
  }

  /** The denomination of the payout: the coin type of the last bet the walk
      visited (the winner, or the last bet when nobody wins), "usei" when the
      list is empty. */
  function PayoutDenom(bets: seq<UserBetInfo>, pot: nat, d: nat): string
    requires pot > 0 || |bets| == 0
  {
    match FirstHit(bets, pot, d)
    case Some(i) => bets[i].coinType
    case None => if |bets| == 0 then "usei" else bets[|bets| - 1].coinType
  }

  /** The loop of the settlement handlers over the bet list. */
  method PickWinner(bets: seq<UserBetInfo>, pot: nat, d: nat) returns (winner: string, coinType: string)
    requires pot > 0 || |bets| == 0
    ensures winner == Winner(bets, pot, d)
    ensures coinType == PayoutDenom(bets, pot, d)
  {
    var previousPercentage := 0;
    winner := "";
    coinType := "usei";
    var i := 0;
    while i < |bets|
      invariant i <= |bets|
      invariant previousPercentage == Bound(bets, pot, i)
      invariant FirstHit(bets, pot, d) == FirstHitFrom(bets, pot, d, i)
      invariant winner == ""
      invariant coinType == if i == 0 then "usei" else bets[i - 1].coinType
    {
      coinType := bets[i].coinType;
      var percentage := previousPercentage + bets[i].userAmount * 100 * 100 / pot;
      if previousPercentage < d && percentage > d {
        winner := bets[i].userAddress;
        return;
      }
      previousPercentage := percentage;
      i := i + 1;
    }
  }

  /** The cumulative bounds never decrease along the list. */
  lemma {:induction false} BoundMonotone(bets: seq<UserBetInfo>, pot: nat, i: nat, j: nat)
    requires i <= j <= |bets| && pot > 0
    ensures Bound(bets, pot, i) <= Bound(bets, pot, j)
  {
    if i < j {
      BoundMonotone(bets, pot, i, j - 1);
    }
  }

  /** At most one bet holds a given draw, so "first match wins" picks the only match. */
  lemma HitUnique(bets: seq<UserBetInfo>, pot: nat, d: nat, i: nat, j: nat)
    requires i < |bets| && j < |bets| && pot > 0
    requires Hit(bets, pot, d, i) && Hit(bets, pot, d, j)
    ensures i == j
  {
    if i < j {
      BoundMonotone(bets, pot, i + 1, j);
    } else if j < i {
      BoundMonotone(bets, pot, j + 1, i);
    }
  }

  /** Between two bounds that enclose the draw, with no bound equal to it,
      some bet holds the draw. */
  lemma {:induction false} HitBetween(bets: seq<UserBetInfo>, pot: nat, d: nat, lo: nat)
    requires lo < |bets| && pot > 0
    requires Bound(bets, pot, lo) < d < Bound(bets, pot, |bets|)
    requires forall k :: lo <= k <= |bets| ==> Bound(bets, pot, k) != d
    ensures exists i :: lo <= i < |bets| && Hit(bets, pot, d, i)
    decreases |bets| - lo
  {
    if d < Bound(bets, pot, lo + 1) {
      assert Hit(bets, pot, d, lo);
    } else {
      assert Bound(bets, pot, lo + 1) != d;
      HitBetween(bets, pot, d, lo + 1);
    }
  }

  /** The draw equals one of the cumulative bounds (0 included). */
  predicate OnBound(bets: seq<UserBetInfo>, pot: nat, d: nat)
    requires pot > 0
  {
    exists k :: 0 <= k <= |bets| && Bound(bets, pot, k) == d
  }

  /** The walk finds a winner exactly when the draw lies below the last bound
      and on no bound: a draw of 0, a draw on a cumulative boundary or a draw
      past the last bound leaves the winner unset. */
  lemma WinnerFoundIff(bets: seq<UserBetInfo>, pot: nat, d: nat)
    requires pot > 0
    ensures FirstHit(bets, pot, d).Some? <==> d < Bound(bets, pot, |bets|) && !OnBound(bets, pot, d)
  {
    var n := |bets|;
    var r := FirstHit(bets, pot, d);
    if r.Some? {
      var i := r.value;
      BoundMonotone(bets, pot, i + 1, n);
      forall k | 0 <= k <= n
        ensures Bound(bets, pot, k) != d
      {
        if k <= i {
          BoundMonotone(bets, pot, k, i);
        } else {
          BoundMonotone(bets, pot, i + 1, k);
        }
      }
    } else if d < Bound(bets, pot, n) && !OnBound(bets, pot, d) {
      assert Bound(bets, pot, 0) != d;
      HitBetween(bets, pot, d, 0);
      assert false;
    }
  }

  lemma DivMulBound(x: nat, p: nat)
    requires p > 0
    ensures (x / p) * p <= x
    ensures x % p == 0 ==> (x / p) * p == x
  {
    assert x == (x / p) * p + x % p;
  }

  /** One step of BoundScaled: adding a share to the bound and its amount to
      the sum keeps the scaled comparison (and the equality). */
  lemma ScaledStep(b: nat, s: nat, sum: nat, a: nat, pot: nat)
    requires b * pot <= SCALE * sum && s * pot <= SCALE * a
    ensures (b + s) * pot <= SCALE * (sum + a)
    ensures b * pot == SCALE * sum && s * pot == SCALE * a ==> (b + s) * pot == SCALE * (sum + a)
  {
    assert (b + s) * pot == b * pot + s * pot;
  }

  lemma {:induction false} MulAtLeast(x: nat, p: nat)
    requires x >= 1
    ensures x * p >= p
  {
    if x > 1 {
      MulAtLeast(x - 1, p);
      assert x * p == (x - 1) * p + p;
    }
  }

  lemma MulCancel(b: nat, c: nat, p: nat)
    requires p > 0
    ensures b * p <= c * p ==> b <= c
    ensures b * p == c * p ==> b == c
  {
    if b > c {
      assert b * p == c * p + (b - c) * p;
      MulAtLeast(b - c, p);
    } else if b < c {
      assert c * p == b * p + (c - b) * p;
      MulAtLeast(c - b, p);
    }
  }

  /** Scaled back by the pot, the cumulative bound never exceeds the scaled
      sum of the amounts it covers; it equals it when no share was rounded. */
  lemma {:induction false} BoundScaled(bets: seq<UserBetInfo>, pot: nat, k: nat)
    requires k <= |bets| && pot > 0
    ensures Bound(bets, pot, k) * pot <= SCALE * SumAmounts(bets[..k])
    ensures (forall i :: 0 <= i < k ==> (bets[i].userAmount * 100 * 100) % pot == 0) ==>
              Bound(bets, pot, k) * pot == SCALE * SumAmounts(bets[..k])
  {
    if k > 0 {
      BoundScaled(bets, pot, k - 1);
      var a := bets[k - 1].userAmount;
      assert bets[..k][..k - 1] == bets[..k - 1];
      var sum := SumAmounts(bets[..k - 1]);
      assert SumAmounts(bets[..k]) == sum + a;
      DivMulBound(a * 100 * 100, pot);
      assert a * 100 * 100 == SCALE * a;
      ScaledStep(Bound(bets, pot, k - 1), Share(a, pot), sum, a, pot);
    }
  }

  /** When the pot is the sum of the bets, the last cumulative bound is at
      most 10000, and exactly 10000 when no share was rounded down. */
  lemma FinalBound(bets: seq<UserBetInfo>, pot: nat)
    requires pot > 0 && pot == SumAmounts(bets)
    ensures Bound(bets, pot, |bets|) <= SCALE
    ensures (forall i :: 0 <= i < |bets| ==> (bets[i].userAmount * 100 * 100) % pot == 0) ==>
              Bound(bets, pot, |bets|) == SCALE
  {
    BoundScaled(bets, pot, |bets|);
    assert bets[..|bets|] == bets;
    assert Bound(bets, pot, |bets|) * pot <= SCALE * pot;
    MulCancel(Bound(bets, pot, |bets|), SCALE, pot);
  }

  /** The protocol fee: 4 % of the pot, rounded down. */
  function Fee(pot: nat): (fee: nat)
    ensures 25 * fee <= pot < 25 * fee + 25
  {
    pot * 4 / 100
  }

  /** The prize: what the fee leaves of the pot. Fee and prize add up to the
      pot, and the prize is at least 24 times the fee. */
  function Prize(pot: nat): (prize: nat)
    ensures Fee(pot) + prize == pot
    ensures prize >= 24 * Fee(pot)
  {
    pot - Fee(pot)
  }
}
