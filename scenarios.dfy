/** Whole games played against the contract model, as a client of its method
    contracts: the five-player game of the contract's own test module, and the
    places where the code departs from the intended design. */
module RaffleScenarios {
  import opened Collections
  import opened Raffle

  const Stake: nat := 15_000_000_000_000

  /** Enters each of `players` in turn with the same bet, the k-th at time
      `t + k`, as the test module's loop over its list of players does. */
  method EnterAll(raffle: RaffleTkt, players: seq<AccountId>, stake: nat, t: nat)
    requires raffle.Valid() && !raffle.terminated
    requires raffle.playerPool == [] && raffle.winnersPool == [] && raffle.totalBalance == 0
    requires NoRepeats(players) && InBetRange(stake)
    modifies raffle
    ensures raffle.Valid() && !raffle.terminated
    ensures raffle.playerPool == players && raffle.winnersPool == []
    ensures raffle.totalBalance == |players| * stake && raffle.payouts == old(raffle.payouts)
    ensures forall x :: x in raffle.playerStatus <==> x in players
    ensures raffle.raffleDrawTimeStamp ==
      if 0 < |players| && raffle.minNumPlayers <= |players| then t + |players| - 1 + raffle.minimumRaffleLockDuration
      else old(raffle.raffleDrawTimeStamp)
  {
    var i := 0;
    while i < |players|
      invariant 0 <= i <= |players|
      invariant raffle.Valid() && !raffle.terminated
      invariant raffle.playerPool == players[..i] && raffle.winnersPool == []
      invariant raffle.totalBalance == i * stake && raffle.payouts == old(raffle.payouts)
      invariant raffle.raffleDrawTimeStamp ==
        if 0 < i && raffle.minNumPlayers <= i then t + i - 1 + raffle.minimumRaffleLockDuration
        else old(raffle.raffleDrawTimeStamp)
    {
      assert players[i] !in players[..i];
      var r := raffle.Play(players[i], stake, t + i);
      assert players[..i + 1] == players[..i] + [players[i]];
      assert (i + 1) * stake == i * stake + stake;
      i := i + 1;
    }
    assert players[..i] == players;
  }

  /** The entries of the contract's test game: five players bet 0.015 unit each
      in a raffle with a minimum of four players and a lock of 4000. Entries come
      one time unit apart, so the fifth entry moves the deadline the fourth had set. */
  method FiveEntries(owner: AccountId, beneficiary: AccountId,
                     a: AccountId, b: AccountId, c: AccountId, d: AccountId, e: AccountId, t: nat)
    returns (raffle: RaffleTkt)
    requires a != b && a != c && a != d && a != e && b != c && b != d && b != e && c != d && c != e && d != e
    ensures fresh(raffle) && raffle.Valid() && !raffle.terminated
    ensures raffle.playerPool == [a, b, c, d, e] && raffle.winnersPool == []
    ensures raffle.totalBalance == 5 * Stake && raffle.payouts == []
    ensures raffle.raffleDrawTimeStamp == t + 4004
    ensures a in raffle.playerStatus
  {
    raffle := new RaffleTkt(owner, beneficiary, 4, 4000);
    var players := [a, b, c, d, e];
    assert NoRepeats(players);
    EnterAll(raffle, players, Stake, t);
  }

  /** The contract's test game: two draws close the game and settle the whole
      balance; the test's repeated settlement then transfers nothing, and a
      third draw is refused. The entries here come one time unit apart, so a
      draw at the deadline the fourth entry set is refused first. */
  method FivePlayerGame(owner: AccountId, beneficiary: AccountId,
                        a: AccountId, b: AccountId, c: AccountId, d: AccountId, e: AccountId,
                        t: nat, h1: Hash, h2: Hash, h3: Hash)
    returns (early: Outcome, first: Outcome, second: Outcome, paid: nat,
             repeat: Outcome, repeatPaid: nat, late: Outcome)
    requires a != b && a != c && a != d && a != e && b != c && b != d && b != e && c != d && c != e && d != e
    ensures early == Err(RaffleNotDrawable)
    ensures first == Ok && second == Ok && late == Err(RaffleClosed)
    ensures paid == 5 * Stake
    ensures repeat == Ok && repeatPaid == 0
  {
    var raffle := FiveEntries(owner, beneficiary, a, b, c, d, e, t);
    var p;
    early, p := raffle.Draw(a, t + 4003, h1, true);
    first, p := raffle.Draw(a, t + 4004, h1, true);
    assert |raffle.winnersPool| == 1 && raffle.totalBalance == 5 * Stake;
    // a player already drawn keeps the status that lets it call for a draw
    second, paid := raffle.Draw(a, t + 4005, h2, true);
    repeat, repeatPaid := raffle.TransferFundToBeneficiary(true);
    late, p := raffle.Draw(a, t + 4006, h3, true);
  }

  /** The draw timestamp starts at 0, so a draw is possible before the minimum
      number of players has entered: here two players close a raffle that asks
      for three, and the whole balance goes to the beneficiary. */
  method DrawBeforeThreshold(owner: AccountId, beneficiary: AccountId, a: AccountId, b: AccountId,
                             h1: Hash, h2: Hash)
    returns (first: Outcome, second: Outcome, paid: nat)
    requires a != b
    ensures first == Ok && second == Ok && paid == 2 * Stake
  {
    var raffle := new RaffleTkt(owner, beneficiary, 3, 1000);
    var r := raffle.Play(a, Stake, 10);
    var p;
    first, p := raffle.Draw(a, 10, h1, true);
    assert raffle.winnersPool == [a] && raffle.playerPool == [];
    r := raffle.Play(b, Stake, 11);
    assert raffle.raffleDrawTimeStamp == 0;
    second, paid := raffle.Draw(b, 11, h2, true);
  }

  /** A single entrant is drawn as first winner and keeps the status that allows a
      draw; the next draw then divides by the length of the empty pool. */
  method SingleEntrantTraps(owner: AccountId, beneficiary: AccountId, a: AccountId, h1: Hash, h2: Hash)
    returns (first: Outcome, second: Outcome)
    ensures first == Ok && second == Trap
  {
    var raffle := new RaffleTkt(owner, beneficiary, 1, 50);
    var r := raffle.Play(a, Stake, 0);
    var p;
    first, p := raffle.Draw(a, 50, h1, true);
    second, p := raffle.Draw(a, 60, h2, true);
  }

  /** Two players enter a raffle that needs two, and the transfer fails on the
      draw that picks the second winner: the error is returned, but the winner
      stays and the balance is kept. */
  method ClosingTransferFails(owner: AccountId, beneficiary: AccountId, a: AccountId, b: AccountId,
                              h1: Hash, h2: Hash)
    returns (raffle: RaffleTkt, closing: Outcome)
    requires a != b
    ensures fresh(raffle) && raffle.Valid() && !raffle.terminated && raffle.raffleOwner == owner
    ensures closing == Err(TransferFailed)
    ensures raffle.IsGameClosed() && raffle.totalBalance == 2 * Stake && raffle.payouts == []
    ensures raffle.playerStatus == map[a := true, b := true]
  {
    raffle := new RaffleTkt(owner, beneficiary, 2, 100);
    var r := raffle.Play(a, Stake, 0);
    r := raffle.Play(b, Stake, 0);
    assert raffle.playerStatus == map[a := true, b := true];
    assert raffle.totalBalance == 2 * Stake && raffle.raffleDrawTimeStamp == 100;
    var p;
    r, p := raffle.Draw(a, 100, h1, true);
    assert |raffle.winnersPool| == 1 && |raffle.playerPool| == 1;
    closing, p := raffle.Draw(a, 100, h2, false);
  }

  /** After a failed settlement every draw is refused as closed, so the balance is
      never settled; players can still enter, and their bets join the stranded
      balance. Only the owner can then remove the contract. */
  method FailedSettlement(owner: AccountId, beneficiary: AccountId, a: AccountId, b: AccountId, c: AccountId,
                          h1: Hash, h2: Hash, h3: Hash)
    returns (closing: Outcome, retry: Outcome, lateEntry: Outcome, balance: nat, stranger: Outcome, removal: Outcome, removed: bool)
    requires a != b && a != c && b != c && owner != a
    ensures closing == Err(TransferFailed) && retry == Err(RaffleClosed) && lateEntry == Ok
    ensures balance == 3 * Stake
    ensures stranger == Err(InvalidOwner) && removal == Ok && removed
  {
    var raffle;
    raffle, closing := ClosingTransferFails(owner, beneficiary, a, b, h1, h2);
    var p;
    retry, p := raffle.Draw(b, 200, h3, true);
    lateEntry := raffle.Play(c, Stake, 300);
    balance := raffle.totalBalance;
    stranger := raffle.Terminate(a);
    removal := raffle.Terminate(owner);
    removed := raffle.terminated;
  }

  /** The owner's request before closure succeeds and removes nothing. */
  method TerminateBeforeClosure(owner: AccountId, beneficiary: AccountId, a: AccountId, h1: Hash)
    returns (r: Outcome, removed: bool)
    ensures r == Ok && !removed
  {
    var raffle := new RaffleTkt(owner, beneficiary, 1, 0);
    var play := raffle.Play(a, Stake, 0);
    var draw, p := raffle.Draw(a, 0, h1, true);
    r := raffle.Terminate(owner);
    removed := raffle.terminated;
  }
}
