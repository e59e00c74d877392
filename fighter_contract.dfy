/** The fighter contract of src/fighter_contract.rs: registration, battles
    between registered fighters, timeouts, tournaments, upgrades and the
    battle-result message. The authenticated owner, the system time and the
    chain id are parameters; outgoing messages are returned. */
module FighterContract {
  import opened Common
  import opened FighterLib

  datatype BattleConfig = BattleConfig(turnTimeout: nat, blockDelay: nat, platformFee: nat)

  datatype Message =
    | BattleResult(battleId: nat, winner: Owner, loser: Owner, xpWinner: nat, xpLoser: nat)
    | TournamentStarted(tournamentId: nat)

  /** `calculate_xp_reward`: 100 for a win and 20 for a loss, half as much
      again in a staked battle. */
  function CalculateXpReward(isWinner: bool, battle: Battle): (xp: nat)
    ensures battle.stakeAmount == 0 ==> xp == (if isWinner then 100 else 20)
    ensures battle.stakeAmount > 0 ==> xp == (if isWinner then 150 else 30)
  {
    var baseXp := if isWinner then 100 else 20;
    var multiplier := if battle.stakeAmount > 0 then 150 else 100;
    (baseXp * multiplier) / 100
  }

  /** A win is always worth five times a loss. */
  lemma WinWorthFiveLosses(battle: Battle)
    ensures CalculateXpReward(true, battle) == 5 * CalculateXpReward(false, battle)
  {
  }

  datatype StakeSplit = StakeSplit(totalStake: nat, feeAmount: nat, winnerAmount: nat)

  /** The arithmetic of `distribute_stake_winnings`: both players' stakes,
      the platform's percentage of them, and the rest for the winner. */
  function SplitStake(stakeAmount: nat, platformFee: nat): (s: StakeSplit)
    ensures s.totalStake == Min(2 * stakeAmount, AMOUNT_MAX)
    ensures platformFee <= 100 ==> s.winnerAmount + s.feeAmount == s.totalStake
    ensures s.winnerAmount <= s.totalStake
    ensures platformFee == 0 ==> s.feeAmount == 0 && s.winnerAmount == s.totalStake
    ensures s.feeAmount == Min(s.totalStake * platformFee, AMOUNT_MAX) / 100
    ensures s.feeAmount <= s.totalStake ==> s.winnerAmount == s.totalStake - s.feeAmount
    ensures s.feeAmount > s.totalStake ==> s.winnerAmount == 0
  {
    var totalStake := SaturatingMul(stakeAmount, 2);
    var feeAmount := SaturatingMul(totalStake, platformFee) / 100;
    FeeWithinTotal(totalStake, platformFee);
    StakeSplit(totalStake, feeAmount, SaturatingSub(totalStake, feeAmount))
  }

  lemma FeeWithinTotal(total: nat, pct: nat)
    ensures pct <= 100 ==> SaturatingMul(total, pct) / 100 <= total
  {
    if pct <= 100 {
      assert total * pct <= total * 100;
    }
  }

  /** One step of the seed mixer: `seed * 31 + byte`, wrapping at 64 bits. */
  function Mix(seed: bv64, byte: bv8): bv64
  {
    seed * 31 + byte as bv64
  }

  /** The seed mixer folded over a message, one byte at a time. */
  function SeedFold(seed: bv64, bytes: seq<bv8>): bv64
    decreases |bytes|
  {
    if bytes == [] then seed else SeedFold(Mix(seed, bytes[0]), bytes[1..])
  }

  /** Mixing a message in two pieces is mixing the first and then the second:
      the seed can be computed incrementally. */
  lemma {:induction false} SeedFoldAppend(seed: bv64, a: seq<bv8>, b: seq<bv8>)
    ensures SeedFold(seed, a + b) == SeedFold(SeedFold(seed, a), b)
    decreases |a|
  {
    if a == [] {
      assert a + b == b;
    } else {
      assert (a + b)[0] == a[0];
      assert (a + b)[1..] == a[1..] + b;
      SeedFoldAppend(Mix(seed, a[0]), a[1..], b);
    }
  }

  /** `generate_random_seed`: the battle id xor the timestamp in microseconds,
      folded over the bytes of the chain id's text. */
  method GenerateRandomSeed(battleId: nat, timestampMicros: nat, chainIdBytes: seq<bv8>) returns (seed: bv64)
    requires battleId < 0x1_0000_0000_0000_0000 && timestampMicros < 0x1_0000_0000_0000_0000
    ensures seed == SeedFold((battleId as bv64) ^ (timestampMicros as bv64), chainIdBytes)
  {
    seed := battleId as bv64;
    seed := seed ^ timestampMicros as bv64;
    ghost var seed0 := seed;
    for i := 0 to |chainIdBytes|
      invariant SeedFold(seed, chainIdBytes[i..]) == SeedFold(seed0, chainIdBytes)
    {
      assert chainIdBytes[i..][0] == chainIdBytes[i];
      assert chainIdBytes[i..][1..] == chainIdBytes[i + 1..];
      seed := Mix(seed, chainIdBytes[i]);
    }
  }

  /** A leaderboard entry refreshed from the fighter's current XP, if the
      fighter exists. */
  function Refreshed(board: map<Owner, nat>, fighters: map<Owner, Fighter>, owner: Owner): map<Owner, nat>
  {
    if owner in fighters then board[owner := fighters[owner].xp] else board
  }

  /** The winner's record after a battle-result message. */
  function Won(f: Fighter, xp: nat, now: nat): Fighter
  {
    var g := f.(totalWins := f.totalWins + 1, currentStreak := f.currentStreak + 1);
    var g := g.(highestStreak := Max(g.highestStreak, g.currentStreak));
    AfterXp(g, xp).(lastBattle := Some(now))
  }

  /** The loser's record after a battle-result message. */
  function Lost(f: Fighter, xp: nat, now: nat): Fighter
  {
    var g := f.(totalLosses := f.totalLosses + 1, currentStreak := 0);
    AfterXp(g, xp).(lastBattle := Some(now))
  }

  /** The fighters map after the `BattleResult` message: the winner's entry
      is updated first, then the loser's (each only if registered). */
  function Recorded(fighters: map<Owner, Fighter>, winner: Owner, loser: Owner, xpWinner: nat, xpLoser: nat,
                    now: nat): map<Owner, Fighter>
  {
    var m := if winner in fighters then fighters[winner := Won(fighters[winner], xpWinner, now)] else fighters;
    if loser in m then m[loser := Lost(m[loser], xpLoser, now)] else m
  }

  /** For distinct registered fighters the winner gains a win and extends
      its streak, whose record keeps up with it; the loser gains a loss and
      its streak restarts; both gain their XP; nobody else changes. */
  lemma RecordedFacts(fighters: map<Owner, Fighter>, winner: Owner, loser: Owner, xpWinner: nat, xpLoser: nat,
                      now: nat)
    requires winner in fighters && loser in fighters && winner != loser
    ensures var m := Recorded(fighters, winner, loser, xpWinner, xpLoser, now);
            var w := fighters[winner];
            var l := fighters[loser];
            && m.Keys == fighters.Keys
            && m[winner].totalWins == w.totalWins + 1 && m[winner].totalLosses == w.totalLosses
            && m[winner].currentStreak == w.currentStreak + 1
            && m[winner].highestStreak >= m[winner].currentStreak
            && m[winner].highestStreak >= w.highestStreak
            && m[winner].xp == w.xp + xpWinner
            && m[loser].totalLosses == l.totalLosses + 1 && m[loser].totalWins == l.totalWins
            && m[loser].currentStreak == 0
            && m[loser].xp == l.xp + xpLoser
            && m[winner].lastBattle == Some(now) && m[loser].lastBattle == Some(now)
            && (forall o :: o in fighters && o != winner && o != loser ==> m[o] == fighters[o])
  {
  }

  /** A battle whose current player has not acted for longer than the turn
      timeout. */
  predicate IsTimedOut(b: Battle, now: nat, config: BattleConfig)
  {
    SaturatingSub(now, b.lastActionAt) > config.turnTimeout
  }

  /** No owner appears twice. */
  predicate Distinct(s: seq<Owner>)
  {
    forall i, j :: 0 <= i < j < |s| ==> s[i] != s[j]
  }

  /** The parameter checks of `execute_create_tournament`. */
  predicate TournamentParamsOk(name: Name, maxParticipants: nat, distribution: seq<nat>)
  {
    1 <= |name| <= 64 && 4 <= maxParticipants <= 128 && Sum(distribution) == 100
  }

  /** The loop of `execute_upgrade_fighter`: level up while the XP reaches
      the threshold, with the source's safety limit of eleven level-ups.
      Every level-up made was earned, and the loop stops early only when
      the next one is not. */
  method LevelUpWhilePossible(f: Fighter) returns (g: Fighter, totalLevels: nat)
    ensures totalLevels <= 11 && g == Promote(f, totalLevels) && g.level == f.level + totalLevels
    ensures totalLevels == 0 <==> f.xp < XpForNextLevel(f.level)
    ensures forall j :: f.level <= j < g.level ==> f.xp >= XpForNextLevel(j)
    ensures totalLevels < 11 ==> f.xp < XpForNextLevel(g.level)
  {
    g := f;
    totalLevels := 0;
    while g.xp >= XpForNextLevel(g.level)
      invariant totalLevels <= 10
      invariant g == Promote(f, totalLevels)
      invariant g.level == f.level + totalLevels && g.xp == f.xp
      invariant forall j :: f.level <= j < g.level ==> f.xp >= XpForNextLevel(j)
      decreases 10 - totalLevels
    {
      var leveledUp;
      g, leveledUp := AddXp(g, 0);
      totalLevels := totalLevels + 1;
      PromoteFacts(f, totalLevels);
      if totalLevels > 10 {
        break;
      }
    }
  }

  class FighterGame {
    var config: BattleConfig
    var fighters: map<Owner, Fighter>
    var battles: map<nat, Battle>
    var battleCounter: nat
    var tournaments: map<nat, Tournament>
    var tournamentCounter: nat
    var leaderboard: map<Owner, nat>
    var platformBalance: nat
    var totalBattles: nat
    var totalXpDistributed: nat

    /** Every fighter is stored under its owner with progressed stats, every
        battle id was issued by the counter and the battle is consistent,
        every tournament id was issued by its counter, and no tournament
        holds a duplicate or more entrants than it admits. */
    ghost predicate Valid()
      reads this
    {
      && (forall o :: o in fighters ==> fighters[o].owner == o && Progressed(fighters[o]))
      && (forall id :: id in battles ==> 1 <= id <= battleCounter && BattleValid(battles[id]))
      && (forall id :: id in tournaments ==>
            && 1 <= id <= tournamentCounter
            && Distinct(tournaments[id].participants)
            && |tournaments[id].participants| <= tournaments[id].maxParticipants)
    }

    /** `instantiate`. */
    constructor (config: BattleConfig)
      ensures Valid()
      ensures this.config == config && fighters == map[] && battles == map[] && tournaments == map[]
      ensures leaderboard == map[] && battleCounter == 0 && tournamentCounter == 0
      ensures platformBalance == 0 && totalBattles == 0 && totalXpDistributed == 0
    {
      this.config := config;
      fighters := map[];
      battles := map[];
      battleCounter := 0;
      tournaments := map[];
      tournamentCounter := 0;
      leaderboard := map[];
      platformBalance := 0;
      totalBattles := 0;
      totalXpDistributed := 0;
    }

    /** `execute_register_fighter`: authenticated, not yet registered, with
        a name of 1 to 32 bytes; the new fighter starts at zero on the
        leaderboard. */
    method RegisterFighter(caller: Option<Owner>, name: Name, now: nat) returns (outcome: FighterOutcome)
      requires Valid()
      modifies this`fighters, this`leaderboard
      ensures Valid()
      ensures outcome.Error? <==> caller.None? || caller.value in old(fighters) || |name| == 0 || |name| > 32
      ensures outcome.Error? ==> fighters == old(fighters) && leaderboard == old(leaderboard)
      ensures !outcome.Error? ==>
                && outcome == FighterRegistered(NewFighter(caller.value, name, now))
                && fighters == old(fighters)[caller.value := NewFighter(caller.value, name, now)]
                && leaderboard == old(leaderboard)[caller.value := 0]
    {
      if caller.None? {
        return Error("Must be authenticated to register");
      }
      var owner := caller.value;
      if owner in fighters {
        return Error("Fighter already registered");
      }
      if |name| == 0 || |name| > 32 {
        return Error("Invalid fighter name (1-32 characters)");
      }
      var fighter := NewFighter(owner, name, now);
      fighters := fighters[owner := fighter];
      leaderboard := leaderboard[owner := 0];
      outcome := FighterRegistered(fighter);
    }

    /** `execute_start_battle`: two distinct registered fighters whose
        matchmaking tiers are compatible; the battle is stored under a fresh
        id, the counter's next value. */
    method StartBattle(caller: Option<Owner>, opponent: Owner, stakeAmount: nat, now: nat)
      returns (outcome: FighterOutcome)
      requires Valid()
      modifies this`battles, this`battleCounter
      ensures Valid()
      ensures outcome.Error? <==>
                || caller.None? || caller.value == opponent
                || caller.value !in fighters || opponent !in fighters
                || !CanMatch(MatchmakingTierFromLevel(fighters[caller.value].level),
                             MatchmakingTierFromLevel(fighters[opponent].level))
      ensures outcome.Error? ==> battles == old(battles) && battleCounter == old(battleCounter)
      ensures !outcome.Error? ==>
                && battleCounter == old(battleCounter) + 1
                && outcome == BattleStarted(battleCounter)
                && battleCounter !in old(battles)
                && battles == old(battles)[battleCounter :=
                     NewBattle(battleCounter, fighters[caller.value], fighters[opponent], stakeAmount, now)]
    {
      if caller.None? {
        return Error("Must be authenticated");
      }
      var initiator := caller.value;
      if initiator == opponent {
        return Error("Cannot battle yourself");
      }
      if initiator !in fighters {
        return Error("Initiator not registered");
      }
      var fighter1 := fighters[initiator];
      if opponent !in fighters {
        return Error("Opponent not registered");
      }
      var fighter2 := fighters[opponent];
      if !CanMatch(MatchmakingTierFromLevel(fighter1.level), MatchmakingTierFromLevel(fighter2.level)) {
        return Error("Fighters are not in compatible tiers");
      }
      var battleId := battleCounter + 1;
      battleCounter := battleId;
      var battle := NewBattle(battleId, fighter1, fighter2, stakeAmount, now);
      battles := battles[battleId := battle];
      outcome := BattleStarted(battleId);
    }

    /** `distribute_stake_winnings`: the platform keeps its fee; the
        winner's share is only computed (the transfer is not part of the
        source). */
    method DistributeStakeWinnings(battle: Battle, winner: Owner)
      modifies this`platformBalance
      ensures platformBalance == old(platformBalance) + SplitStake(battle.stakeAmount, config.platformFee).feeAmount
    {
      var split := SplitStake(battle.stakeAmount, config.platformFee);
      platformBalance := platformBalance + split.feeAmount;
    }

    /** `execute_claim_timeout`: on an active battle whose current player has
        timed out, anybody else may claim it; the claimer is recorded as the
        winner, the stake fee is taken, and a result message gives the
        player who timed out half the usual loser XP. */
    method ClaimTimeout(caller: Option<Owner>, battleId: nat, now: nat)
      returns (outcome: FighterOutcome, sent: Option<Message>)
      requires Valid()
      modifies this`battles, this`platformBalance
      ensures Valid()
      ensures outcome.Error? <==>
                || caller.None? || battleId !in old(battles)
                || old(battles)[battleId].status != Active
                || !IsTimedOut(old(battles)[battleId], now, config)
                || old(battles)[battleId].currentTurn == caller.value
      ensures outcome.Error? ==>
                battles == old(battles) && platformBalance == old(platformBalance) && sent == None
      ensures !outcome.Error? ==>
                var b := old(battles)[battleId];
                && outcome == Success
                && battles == old(battles)[battleId := b.(status := TimedOut, winner := caller)]
                && platformBalance == old(platformBalance)
                     + (if b.stakeAmount > 0 then SplitStake(b.stakeAmount, config.platformFee).feeAmount else 0)
                && sent == Some(BattleResult(battleId, caller.value, b.currentTurn,
                                             CalculateXpReward(true, b), CalculateXpReward(false, b) / 2))
    {
      if caller.None? {
        return Error("Must be authenticated"), None;
      }
      var claimer := caller.value;
      if battleId !in battles {
        return Error("Battle not found"), None;
      }
      var battle := battles[battleId];
      if battle.status != Active {
        return Error("Battle is not active"), None;
      }
      if !IsTimedOut(battle, now, config) {
        return Error("Opponent has not timed out"), None;
      }
      if battle.currentTurn == claimer {
        return Error("You are the one who timed out"), None;
      }
      battle := battle.(status := TimedOut, winner := Some(claimer));
      battles := battles[battleId := battle];
      var loser := battle.currentTurn;
      var winnerXp := CalculateXpReward(true, battle);
      var loserXp := CalculateXpReward(false, battle) / 2;
      if battle.stakeAmount > 0 {
        DistributeStakeWinnings(battle, claimer);
      }
      sent := Some(BattleResult(battleId, claimer, loser, winnerXp, loserXp));
      outcome := Success;
    }

    /** `execute_create_tournament`: a name of 1 to 64 bytes, 4 to 128
        entrants and prize percentages summing to 100; the tournament opens
        for registration under the counter's next value. */
    method CreateTournament(caller: Option<Owner>, name: Name, entryFee: nat, startTime: nat,
                            maxParticipants: nat, prizePoolDistribution: seq<nat>)
      returns (outcome: FighterOutcome)
      requires Valid()
      modifies this`tournaments, this`tournamentCounter
      ensures Valid()
      ensures outcome.Error? <==>
                caller.None? || !TournamentParamsOk(name, maxParticipants, prizePoolDistribution)
      ensures outcome.Error? ==> tournaments == old(tournaments) && tournamentCounter == old(tournamentCounter)
      ensures !outcome.Error? ==>
                && tournamentCounter == old(tournamentCounter) + 1
                && tournamentCounter !in old(tournaments)
                && outcome == TournamentCreated(tournamentCounter)
                && tournaments == old(tournaments)[tournamentCounter :=
                     Tournament.Tournament(tournamentCounter, name, entryFee, 0, startTime, maxParticipants, [], [],
                                Registration, None, prizePoolDistribution)]
    {
      if caller.None? {
        return Error("Must be authenticated");
      }
      if |name| == 0 || |name| > 64 {
        return Error("Invalid tournament name");
      }
      if maxParticipants < 4 || maxParticipants > 128 {
        return Error("Participants must be between 4 and 128");
      }
      var prizeSum := Sum(prizePoolDistribution);
      if prizeSum != 100 {
        return Error("Prize distribution must sum to 100%");
      }
      var tournamentId := tournamentCounter + 1;
      tournamentCounter := tournamentId;
      var tournament := Tournament.Tournament(tournamentId, name, entryFee, 0, startTime, maxParticipants, [], [],
                                   Registration, None, prizePoolDistribution);
      tournaments := tournaments[tournamentId := tournament];
      outcome := TournamentCreated(tournamentId);
    }

    /** `execute_join_tournament`: a registered fighter joins an open
        tournament with room that it has not joined yet; the entry fee goes
        to the prize pool, saturating. */
    method JoinTournament(caller: Option<Owner>, tournamentId: nat) returns (outcome: FighterOutcome)
      requires Valid()
      modifies this`tournaments
      ensures Valid()
      ensures outcome.Error? <==>
                || caller.None? || caller.value !in fighters || tournamentId !in old(tournaments)
                || old(tournaments)[tournamentId].status != Registration
                || |old(tournaments)[tournamentId].participants| >= old(tournaments)[tournamentId].maxParticipants
                || caller.value in old(tournaments)[tournamentId].participants
      ensures outcome.Error? ==> tournaments == old(tournaments)
      ensures !outcome.Error? ==>
                var t := old(tournaments)[tournamentId];
                && outcome == Success
                && tournaments == old(tournaments)[tournamentId :=
                     t.(prizePool := SaturatingAdd(t.prizePool, t.entryFee, AMOUNT_MAX),
                        participants := t.participants + [caller.value])]
    {
      if caller.None? {
        return Error("Must be authenticated");
      }
      var participant := caller.value;
      if participant !in fighters {
        return Error("Must register fighter first");
      }
      if tournamentId !in tournaments {
        return Error("Tournament not found");
      }
      var tournament := tournaments[tournamentId];
      if tournament.status != Registration {
        return Error("Tournament registration closed");
      }
      if |tournament.participants| >= tournament.maxParticipants {
        return Error("Tournament full");
      }
      if participant in tournament.participants {
        return Error("Already registered");
      }
      tournament := tournament.(prizePool := SaturatingAdd(tournament.prizePool, tournament.entryFee, AMOUNT_MAX));
      tournament := tournament.(participants := tournament.participants + [participant]);
      tournaments := tournaments[tournamentId := tournament];
      outcome := Success;
    }

    /** `execute_upgrade_fighter`: levels the fighter up while its XP reaches
        the next threshold, at most eleven times; an error, changing
        nothing, when not even one level-up was possible. */
    method UpgradeFighter(caller: Option<Owner>) returns (outcome: FighterOutcome)
      requires Valid()
      modifies this`fighters, this`leaderboard
      ensures Valid()
      ensures outcome.Error? <==>
                || caller.None? || caller.value !in old(fighters)
                || old(fighters)[caller.value].xp < XpForNextLevel(old(fighters)[caller.value].level)
      ensures outcome.Error? ==> fighters == old(fighters) && leaderboard == old(leaderboard)
      ensures !outcome.Error? ==>
                var f := old(fighters)[caller.value];
                && outcome.LevelUpOutcome?
                && f.level + 1 <= outcome.newLevel <= f.level + 11
                && fighters == old(fighters)[caller.value := Promote(f, outcome.newLevel - f.level)]
                && leaderboard == old(leaderboard)[caller.value := f.xp]
                && (forall j :: f.level <= j < outcome.newLevel ==> f.xp >= XpForNextLevel(j))
                && (outcome.newLevel < f.level + 11 ==> f.xp < XpForNextLevel(outcome.newLevel))
    {
      if caller.None? {
        return Error("Must be authenticated");
      }
      var owner := caller.value;
      if owner !in fighters {
        return Error("Fighter not found");
      }
      var fighter := fighters[owner];
      var oldLevel := fighter.level;
      var totalLevels;
      fighter, totalLevels := LevelUpWhilePossible(fighter);
      if fighter.level == oldLevel {
        return Error("Not enough XP to level up");
      }
      PromoteFacts(old(fighters)[owner], totalLevels);
      fighters := fighters[owner := fighter];
      leaderboard := Refreshed(leaderboard, fighters, owner);
      outcome := LevelUpOutcome(fighter.level);
    }

    /** The winner's half of the `BattleResult` arm. */
    method RecordWin(winner: Owner, xpWinner: nat, now: nat)
      requires Valid()
      modifies this`fighters
      ensures Valid()
      ensures fighters == if winner in old(fighters) then old(fighters)[winner := Won(old(fighters)[winner], xpWinner, now)]
                          else old(fighters)
    {
      if winner in fighters {
        var winnerFighter := fighters[winner];
        winnerFighter := winnerFighter.(totalWins := winnerFighter.totalWins + 1);
        winnerFighter := winnerFighter.(currentStreak := winnerFighter.currentStreak + 1);
        winnerFighter := winnerFighter.(highestStreak := Max(winnerFighter.highestStreak, winnerFighter.currentStreak));
        var leveledUp;
        winnerFighter, leveledUp := AddXp(winnerFighter, xpWinner);
        winnerFighter := winnerFighter.(lastBattle := Some(now));
        fighters := fighters[winner := winnerFighter];
      }
    }

    /** The loser's half of the `BattleResult` arm. */
    method RecordLoss(loser: Owner, xpLoser: nat, now: nat)
      requires Valid()
      modifies this`fighters
      ensures Valid()
      ensures fighters == if loser in old(fighters) then old(fighters)[loser := Lost(old(fighters)[loser], xpLoser, now)]
                          else old(fighters)
    {
      if loser in fighters {
        var loserFighter := fighters[loser];
        loserFighter := loserFighter.(totalLosses := loserFighter.totalLosses + 1);
        loserFighter := loserFighter.(currentStreak := 0);
        var leveledUp;
        loserFighter, leveledUp := AddXp(loserFighter, xpLoser);
        loserFighter := loserFighter.(lastBattle := Some(now));
        fighters := fighters[loser := loserFighter];
      }
    }

    /** The `BattleResult` arm of `execute_message`: both fighters' records
        are updated, both leaderboard entries refreshed, and the battle
        counted. */
    method HandleBattleResult(battleId: nat, winner: Owner, loser: Owner, xpWinner: nat, xpLoser: nat, now: nat)
      requires Valid()
      modifies this`fighters, this`leaderboard, this`totalBattles
      ensures Valid()
      ensures fighters == Recorded(old(fighters), winner, loser, xpWinner, xpLoser, now)
      ensures leaderboard == Refreshed(Refreshed(old(leaderboard), fighters, winner), fighters, loser)
      ensures totalBattles == old(totalBattles) + 1
    {
      RecordWin(winner, xpWinner, now);
      RecordLoss(loser, xpLoser, now);
      leaderboard := Refreshed(leaderboard, fighters, winner);
      leaderboard := Refreshed(leaderboard, fighters, loser);
      totalBattles := totalBattles + 1;
    }
  }
}
