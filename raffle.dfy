/** The raffle-ticket contract: players buy one ticket each with a bounded bet,
    two winners are drawn without replacement once the draw time has come, and
    the collected balance goes to a fixed beneficiary when the second winner is
    drawn.

    Everything the contract asks of its host is a parameter here: the caller's
    account, the value attached to the call, the block timestamp, the 32-byte
    hash the randomness source returns, and whether a transfer succeeds. */
module Raffle {
  import opened Collections

  type byte = x: int | 0 <= x < 256

  /** An account: 32 opaque bytes, only ever compared. */
  type AccountId = s: seq<byte> | |s| == 32 witness seq(32, _ => 0)

  /** The hash returned by the host's randomness source. */
  type Hash = s: seq<byte> | |s| == 32 witness seq(32, _ => 0)

  /** Bounds on a bet, inclusive: 0.01 and 0.1 unit in the chain's smallest denomination. */
  const BetValueMin: nat := 10_000_000_000_000
  const BetValueMax: nat := 100_000_000_000_000

  /** The number of winners after which the game is closed (a literal in the contract). */
  const MaxWinners: nat := 2

  const TwoTo32: nat := 0x1_0000_0000

  /** The contract's error kinds. */
  datatype Error =
    | UserHasAlreadyPlayed
    | IncorrectBet
    | RaffleNotDrawable
    | RaffleClosed
    | InvalidPlayer
    | TransferFailed
    | InvalidOwner

  /** What a message call ends with: it returns `Ok(())`, it returns an error, or
      it panics, in which case the host reverts every change the call made. A
      returned error is assumed to keep the changes made before it. */
  datatype Outcome = Ok | Err(error: Error) | Trap

  /** Decodes the first four bytes of `a` as a big-endian unsigned 32-bit number.
      The contract indexes the slice directly, so fewer than four bytes would panic. */
  function AsU32Be(a: seq<byte>): (r: nat)
    requires |a| >= 4
    ensures r < TwoTo32
  {
    (a[0] as int) * 0x100_0000 + (a[1] as int) * 0x1_0000 + (a[2] as int) * 0x100 + (a[3] as int)
  }

  /** The big-endian encoding of a 32-bit number: the inverse of AsU32Be. */
  function U32Be(n: nat): (a: seq<byte>)
    requires n < TwoTo32
    ensures |a| == 4
  {
    [n / 0x100_0000, n / 0x1_0000 % 0x100, n / 0x100 % 0x100, n % 0x100]
  }

  /** Decoding an encoded number gives the number back. */
  lemma DecodeEncode(n: nat)
    requires n < TwoTo32
    ensures AsU32Be(U32Be(n)) == n
  {
    assert n == n / 0x100 * 0x100 + n % 0x100;
    assert n / 0x100 == n / 0x1_0000 * 0x100 + n / 0x100 % 0x100;
    assert n / 0x1_0000 == n / 0x100_0000 * 0x100 + n / 0x1_0000 % 0x100;
  }

  /** Decoding reads exactly the first four bytes: encoding the result gives them back. */
  lemma EncodeDecode(a: seq<byte>)
    requires |a| >= 4
    ensures U32Be(AsU32Be(a)) == a[..4]
  {
    var n := AsU32Be(a);
    var low := (a[1] as int) * 0x1_0000 + (a[2] as int) * 0x100 + (a[3] as int);
    assert n == (a[0] as int) * 0x100_0000 + low && low < 0x100_0000;
    assert n / 0x100_0000 == a[0];
    var mid := (a[2] as int) * 0x100 + (a[3] as int);
    assert n / 0x1_0000 == (a[0] as int) * 0x100 + (a[1] as int) + mid / 0x1_0000 && mid < 0x1_0000;
    assert n / 0x1_0000 % 0x100 == a[1];
    assert n / 0x100 == (a[0] as int) * 0x1_0000 + (a[1] as int) * 0x100 + (a[2] as int);
    assert n / 0x100 % 0x100 == a[2];
    assert n % 0x100 == a[3];
  }

  /** A bet the contract accepts. */
  predicate InBetRange(value: nat): (r: bool)
    ensures r <==> !(value < BetValueMin || value > BetValueMax)
    ensures r ==> 0 < value
  {
    BetValueMin <= value <= BetValueMax
  }

  /** The bookkeeping of players: no account is in both pools or twice in one,
      and the accounts with a status are exactly those in either pool (a status
      is recorded on entry and never cleared, also not when a player is drawn). */
  ghost predicate Consistent(pool: seq<AccountId>, winners: seq<AccountId>, status: map<AccountId, bool>)
  {
    && Distinct(pool + winners)
    && (forall a :: a in status <==> a in pool || a in winners)
    && (forall a :: a in status ==> status[a])
  }

  /** Admitting a player without a status keeps the bookkeeping consistent. */
  lemma EntryConsistent(pool: seq<AccountId>, winners: seq<AccountId>, status: map<AccountId, bool>, caller: AccountId)
    requires Consistent(pool, winners, status) && caller !in status
    ensures Consistent(pool + [caller], winners, status[caller := true])
  {
    DistinctAppend(pool + winners, caller);
    assert multiset((pool + [caller]) + winners) == multiset((pool + winners) + [caller]);
    DistinctSameMultiset((pool + winners) + [caller], (pool + [caller]) + winners);
  }

  /** Moving the player at index `i` from the pool to the end of the winners by
      swap-remove keeps the bookkeeping consistent and loses no account. */
  lemma DrawConsistent(pool: seq<AccountId>, winners: seq<AccountId>, status: map<AccountId, bool>, i: nat)
    requires Consistent(pool, winners, status) && i < |pool|
    ensures multiset(SwapRemove(pool, i) + (winners + [pool[i]])) == multiset(pool + winners)
    ensures Consistent(SwapRemove(pool, i), winners + [pool[i]], status)
  {
    var pool', winners' := SwapRemove(pool, i), winners + [pool[i]];
    SwapRemoveMultiset(pool, i);
    assert multiset(pool' + winners') == multiset(pool + winners);
    DistinctSameMultiset(pool + winners, pool' + winners');
    forall a ensures a in pool' || a in winners' <==> a in pool || a in winners {
      assert a in pool' || a in winners' <==> a in multiset(pool' + winners');
      assert a in pool || a in winners <==> a in multiset(pool + winners);
    }
  }

  /** The player at index `i` is in neither the swap-removed pool nor the
      winners: moving it to the winners puts it there exactly once. */
  lemma DrawnLeavesPool(pool: seq<AccountId>, winners: seq<AccountId>, status: map<AccountId, bool>, i: nat)
    requires Consistent(pool, winners, status) && i < |pool|
    ensures pool[i] !in SwapRemove(pool, i) && pool[i] !in winners
  {
    var w := pool[i];
    SwapRemoveMultiset(pool, i);
    assert multiset(pool + winners) == multiset(SwapRemove(pool, i)) + multiset{w} + multiset(winners);
    assert multiset(pool + winners)[w] <= 1;
  }

  /** Conservation of value: what is held plus what was paid out is what was bet,
      and every bet was within the bounds. */
  ghost predicate Conserved(balance: nat, stakes: seq<nat>, payouts: seq<nat>)
  {
    && balance + Sum(payouts) == Sum(stakes)
    && (forall i :: 0 <= i < |stakes| ==> InBetRange(stakes[i]))
  }

  /** Accepting a bet in range keeps value conserved. */
  lemma EntryConserved(balance: nat, stakes: seq<nat>, payouts: seq<nat>, value: nat)
    requires Conserved(balance, stakes, payouts) && InBetRange(value)
    ensures Conserved(balance + value, stakes + [value], payouts)
  {
    SumAppend(stakes, value);
  }

  /** Paying out the whole balance keeps value conserved and leaves nothing held. */
  lemma PayoutConserved(balance: nat, stakes: seq<nat>, payouts: seq<nat>)
    requires Conserved(balance, stakes, payouts)
    ensures Conserved(0, stakes, payouts + [balance])
  {
    SumAppend(payouts, balance);
  }

  class RaffleTkt {
    // Configuration, fixed by the constructor.
    const fundBeneficiary: AccountId
    const minimumRaffleLockDuration: nat
    const minNumPlayers: nat
    const raffleOwner: AccountId

    // Contract storage.
    var playerPool: seq<AccountId>
    var winnersPool: seq<AccountId>
    var playerStatus: map<AccountId, bool>
    var raffleDrawTimeStamp: nat
    var numPlayers: nat
    var totalBalance: nat

    /** Set once the owner has removed the contract; the host delivers no call after that. */
    var terminated: bool

    // The ledger behind the balance: every accepted bet in order, and every
    // amount transferred to the beneficiary.
    ghost var stakes: seq<nat>
    ghost var payouts: seq<nat>

    ghost predicate Valid()
      reads this
    {
      && Consistent(playerPool, winnersPool, playerStatus)
      && Conserved(totalBalance, stakes, payouts)
      // as many accepted bets as accounts in either pool
      && |stakes| == |playerPool| + |winnersPool|
      && (payouts != [] ==> |winnersPool| == MaxWinners)
      && |winnersPool| <= MaxWinners
      && numPlayers <= |playerPool| + |winnersPool|
    }

    /** The contract is closed once it holds the maximum number of winners. */
    function IsGameClosed(): (r: bool)
      reads this
      ensures r <==> |winnersPool| == MaxWinners
    {
      |winnersPool| == MaxWinners
    }

    /** Draws are open from the draw timestamp on. */
    function IsDrawOpen(now: nat): (r: bool)
      reads this
      ensures r <==> raffleDrawTimeStamp <= now
      // before any deadline is set, draws are open at every time
      ensures raffleDrawTimeStamp == 0 ==> r
    {
      now >= raffleDrawTimeStamp
    }

    /** How an entry ends before anything is recorded: a repeat player is refused
        before the bet is looked at. */
    function EntryCheck(caller: AccountId, value: nat): (r: Outcome)
      reads this
      ensures r != Trap
      ensures r == Ok <==> caller !in playerStatus && InBetRange(value)
      ensures r == Err(UserHasAlreadyPlayed) <==> caller in playerStatus
      ensures r == Err(IncorrectBet) <==> caller !in playerStatus && !InBetRange(value)
    {
      if caller in playerStatus then Err(UserHasAlreadyPlayed)
      else if !InBetRange(value) then Err(IncorrectBet)
      else Ok
    }

    /** How a draw ends before a winner is picked, with the guards in the
        contract's order; the index is taken modulo the pool length, which
        panics on an empty pool. `Ok` means a winner is picked. */
    function DrawCheck(caller: AccountId, now: nat): (r: Outcome)
      reads this
      ensures r == Err(RaffleClosed) <==> IsGameClosed()
      ensures r == Err(RaffleNotDrawable) <==> !IsGameClosed() && !IsDrawOpen(now)
      ensures r == Err(InvalidPlayer) <==> !IsGameClosed() && IsDrawOpen(now) && caller !in playerStatus
      ensures r == Trap <==> !IsGameClosed() && IsDrawOpen(now) && caller in playerStatus && playerPool == []
      ensures r == Ok <==> !IsGameClosed() && IsDrawOpen(now) && caller in playerStatus && playerPool != []
      // only an account already drawn can reach the empty pool
      ensures Valid() && r == Trap ==> caller in winnersPool
    {
      if IsGameClosed() then Err(RaffleClosed)
      else if !IsDrawOpen(now) then Err(RaffleNotDrawable)
      else if caller !in playerStatus then Err(InvalidPlayer)
      else if playerPool == [] then Trap
      else Ok
    }

    /** A new raffle with empty pools, no balance and draw timestamp 0; its caller becomes the owner. */
    constructor (caller: AccountId, raffleBeneficiary: AccountId, minimumPlayers: nat, minimumRaffleDuration: nat)
      ensures Valid() && !terminated
      ensures fundBeneficiary == raffleBeneficiary && raffleOwner == caller
      ensures minNumPlayers == minimumPlayers && minimumRaffleLockDuration == minimumRaffleDuration
      ensures playerPool == [] && winnersPool == [] && playerStatus == map[]
      ensures raffleDrawTimeStamp == 0 && numPlayers == 0 && totalBalance == 0
      ensures stakes == [] && payouts == []
      // with the timestamp at 0, draws are open before anyone has played
      ensures forall now: nat :: IsDrawOpen(now)
    {
      fundBeneficiary := raffleBeneficiary;
      minimumRaffleLockDuration := minimumRaffleDuration;
      minNumPlayers := minimumPlayers;
      raffleOwner := caller;
      playerPool := [];
      winnersPool := [];
      playerStatus := map[];
      raffleDrawTimeStamp := 0;
      numPlayers := 0;
      totalBalance := 0;
      terminated := false;
      stakes := [];
      payouts := [];
    }

    /** Buys a ticket for `caller`, who attaches `value`, at block time `now`. */
    method Play(caller: AccountId, value: nat, now: nat) returns (r: Outcome)
      requires Valid() && !terminated
      modifies this
      ensures Valid()
      ensures r == old(EntryCheck(caller, value))
      ensures r != Ok ==> unchanged(this)
      ensures r == Ok ==>
        && playerPool == old(playerPool) + [caller]
        && playerStatus == old(playerStatus)[caller := true]
        && numPlayers == |playerPool|
        && totalBalance == old(totalBalance) + value
        && winnersPool == old(winnersPool)
        && terminated == old(terminated)
        && stakes == old(stakes) + [value]
        && payouts == old(payouts)
      // the draw timestamp is recomputed on every entry that finds enough players
      ensures r == Ok ==>
        raffleDrawTimeStamp == if |playerPool| >= minNumPlayers then now + minimumRaffleLockDuration
                               else old(raffleDrawTimeStamp)
    {
      if caller in playerStatus {
        return Err(UserHasAlreadyPlayed);
      }
      if value < BetValueMin || value > BetValueMax {
        return Err(IncorrectBet);
      }
      AddPlayer(caller, value);
      if numPlayers >= minNumPlayers {
        raffleDrawTimeStamp := now + minimumRaffleLockDuration;
      }
      r := Ok;
    }

    /** Records `caller` as a player and adds the bet to the balance. */
    method AddPlayer(caller: AccountId, value: nat)
      requires Valid() && caller !in playerStatus && InBetRange(value)
      modifies this
      ensures Valid()
      ensures playerPool == old(playerPool) + [caller] && winnersPool == old(winnersPool)
      ensures playerStatus == old(playerStatus)[caller := true]
      ensures numPlayers == |playerPool| && totalBalance == old(totalBalance) + value
      ensures raffleDrawTimeStamp == old(raffleDrawTimeStamp) && terminated == old(terminated)
      ensures stakes == old(stakes) + [value] && payouts == old(payouts)
    {
      EntryConsistent(playerPool, winnersPool, playerStatus, caller);
      EntryConserved(totalBalance, stakes, payouts, value);
      playerStatus := playerStatus[caller := true];
      playerPool := playerPool + [caller];
      numPlayers := |playerPool|;
      totalBalance := totalBalance + value;
      stakes := stakes + [value];
    }

    /** Transfers the whole balance to the beneficiary once two winners exist.
        `transferOk` is what the host's transfer reports; `paid` is what left the contract. */
    method TransferFundToBeneficiary(transferOk: bool) returns (r: Outcome, paid: nat)
      requires Valid()
      modifies this
      ensures Valid()
      ensures old(|winnersPool| == MaxWinners && totalBalance > 0) && transferOk ==>
        && r == Ok && paid == old(totalBalance) && totalBalance == 0
        && payouts == old(payouts) + [paid]
      ensures old(|winnersPool| == MaxWinners && totalBalance > 0) && !transferOk ==>
        r == Err(TransferFailed) && paid == 0 && unchanged(this)
      // nothing to settle, or not yet closed: no transfer is attempted
      ensures !old(|winnersPool| == MaxWinners && totalBalance > 0) ==>
        r == Ok && paid == 0 && unchanged(this)
      ensures playerPool == old(playerPool) && winnersPool == old(winnersPool)
      ensures playerStatus == old(playerStatus) && raffleDrawTimeStamp == old(raffleDrawTimeStamp)
      ensures numPlayers == old(numPlayers) && terminated == old(terminated)
      ensures stakes == old(stakes)
    {
      paid := 0;
      if |winnersPool| == MaxWinners && totalBalance > 0 {
        if !transferOk {
          return Err(TransferFailed), 0;
        }
        paid := totalBalance;
        PayoutConserved(totalBalance, stakes, payouts);
        payouts := payouts + [paid];
        totalBalance := 0;
      }
      r := Ok;
    }

    /** Draws one winner, on behalf of `caller` at block time `now`, from the
        random hash `randomHash`, and settles when the second winner is drawn. */
    method Draw(caller: AccountId, now: nat, randomHash: Hash, transferOk: bool) returns (r: Outcome, paid: nat)
      requires Valid() && !terminated
      modifies this
      ensures Valid()
      ensures old(DrawCheck(caller, now)) != Ok ==>
        r == old(DrawCheck(caller, now)) && paid == 0 && unchanged(this)
      // a draw that passes the guards: the player at the random index moves to the winners
      ensures old(DrawCheck(caller, now)) == Ok ==>
        var i := AsU32Be(randomHash) % |old(playerPool)|;
        && winnersPool == old(winnersPool) + [old(playerPool)[i]]
        && playerPool == SwapRemove(old(playerPool), i)
        && old(playerPool)[i] !in playerPool && old(playerPool)[i] !in old(winnersPool)
        && playerStatus == old(playerStatus)
        && raffleDrawTimeStamp == old(raffleDrawTimeStamp)
        && numPlayers == old(numPlayers)
        && terminated == old(terminated)
        && stakes == old(stakes)
      // ... and settlement follows when that winner is the second
      ensures old(DrawCheck(caller, now)) == Ok ==>
        if |winnersPool| == MaxWinners && old(totalBalance) > 0 then
          if transferOk then
            r == Ok && paid == old(totalBalance) && totalBalance == 0 && payouts == old(payouts) + [paid]
          else
            r == Err(TransferFailed) && paid == 0 && totalBalance == old(totalBalance) && payouts == old(payouts)
        else
          r == Ok && paid == 0 && totalBalance == old(totalBalance) && payouts == old(payouts)
    {
      if IsGameClosed() {
        return Err(RaffleClosed), 0;
      }
      if !IsDrawOpen(now) {
        return Err(RaffleNotDrawable), 0;
      }
      if caller !in playerStatus {
        return Err(InvalidPlayer), 0;
      }
      if |playerPool| == 0 {
        // `% self.player_pool.len()` divides by zero
        return Trap, 0;
      }
      var index := AsU32Be(randomHash) % |playerPool|;
      if index < |playerPool| {
        SwapRemoveWinner(index);
      }
      // the branch that reports an invalid index is never taken: the index is below the length
      if IsGameClosed() {
        r, paid := TransferFundToBeneficiary(transferOk);
        return;
      }
      r, paid := Ok, 0;
    }

    /** Moves the player at `index` to the end of the winners, filling its slot
        in the pool with the pool's last player. */
    method SwapRemoveWinner(index: nat)
      requires Valid() && index < |playerPool| && |winnersPool| < MaxWinners
      modifies this
      ensures Valid()
      ensures winnersPool == old(winnersPool) + [old(playerPool)[index]]
      ensures playerPool == SwapRemove(old(playerPool), index)
      // the winner has left the pool and was not a winner before
      ensures old(playerPool)[index] !in playerPool && old(playerPool)[index] !in old(winnersPool)
      ensures playerStatus == old(playerStatus) && raffleDrawTimeStamp == old(raffleDrawTimeStamp)
      ensures numPlayers == old(numPlayers) && totalBalance == old(totalBalance)
      ensures terminated == old(terminated) && stakes == old(stakes) && payouts == old(payouts)
    {
      var winner := playerPool[index];
      DrawConsistent(playerPool, winnersPool, playerStatus, index);
      DrawnLeavesPool(playerPool, winnersPool, playerStatus, index);
      playerPool := SwapRemove(playerPool, index);
      winnersPool := winnersPool + [winner];
    }

    /** Removes the contract when the owner asks after the game is closed; before
        that the owner's call succeeds and does nothing. */
    method Terminate(caller: AccountId) returns (r: Outcome)
      requires Valid() && !terminated
      modifies this
      ensures Valid()
      ensures r == if caller == raffleOwner then Ok else Err(InvalidOwner)
      ensures terminated == (caller == raffleOwner && old(IsGameClosed()))
      ensures playerPool == old(playerPool) && winnersPool == old(winnersPool)
      ensures playerStatus == old(playerStatus) && raffleDrawTimeStamp == old(raffleDrawTimeStamp)
      ensures numPlayers == old(numPlayers) && totalBalance == old(totalBalance)
      ensures stakes == old(stakes) && payouts == old(payouts)
    {
      if caller == raffleOwner {
        if IsGameClosed() {
          terminated := true;
        }
      } else {
        return Err(InvalidOwner);
      }
      r := Ok;
    }

    /** A copy of the winners, in the order they were drawn. */
    method GetWinnerIds() returns (winners: seq<AccountId>)
      ensures winners == winnersPool
    {
      winners := [];
      var i := 0;
      while i < |winnersPool|
        invariant 0 <= i <= |winnersPool|
        invariant winners == winnersPool[..i]
      {
        winners := winners + [winnersPool[i]];
        i := i + 1;
      }
    }

    /** A copy of the players still waiting to be drawn, in pool order. */
    method GetPlayerIds() returns (players: seq<AccountId>)
      ensures players == playerPool
    {
      players := [];
      var i := 0;
      while i < |playerPool|
        invariant 0 <= i <= |playerPool|
        invariant players == playerPool[..i]
      {
        players := players + [playerPool[i]];
        i := i + 1;
      }
    }

    /** A closed game holds two different accounts as winners, both registered players. */
    lemma ClosedHasTwoWinners()
      requires Valid() && IsGameClosed()
      ensures |winnersPool| == 2 && winnersPool[0] != winnersPool[1]
      ensures winnersPool[0] in playerStatus && winnersPool[1] in playerStatus
    {
      NoAccountTwice();
      var n := |playerPool|;
      assert (playerPool + winnersPool)[n] == winnersPool[0];
      assert (playerPool + winnersPool)[n + 1] == winnersPool[1];
    }

    /** In a valid state no account appears twice across the two pools. */
    lemma NoAccountTwice()
      requires Valid()
      ensures NoRepeats(playerPool + winnersPool)
    {
      DistinctIffNoRepeats(playerPool + winnersPool);
    }

    /** The balance never exceeds the largest bet times the number of accepted bets. */
    lemma BalanceBounded()
      requires Valid()
      ensures totalBalance <= (|playerPool| + |winnersPool|) * BetValueMax
    {
      SumBounded(stakes, BetValueMax);
    }
  }
}
