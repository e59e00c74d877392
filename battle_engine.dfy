/** The battle session of src/battle_contract.rs: initialization by the lobby,
    turn submission and execution, the round-level ready signal, and
    finalization. The session's registers are the fields of `BattleSession`;
    every operation is also given as a function of the registers it reads,
    and the properties of the session are lemmas about those functions. */
module BattleEngine {
  import opened Common
  import opened Draws
  import opened BattleTypes
  import opened Damage
  import opened Combat
  import opened Settlement

  const FIRST_ROUND: nat := 1
  const DEFAULT_MAX_ROUNDS: nat := 10
  const TURNS_PER_ROUND: nat := 3
  const WINNER_XP: nat := 150
  const LOSER_XP: nat := 50

  /** Submitted turns, keyed by (account, turn slot). */
  type Submissions = map<(Owner, nat), TurnSubmission>

  /** An entry of the battle log: `caller` is ready to end round `round`. */
  datatype ReadySignal = ReadySignal(round: nat, caller: Owner)

  // ---------------------------------------------------------------------
  // Stance names

  /** The stance names `submit_turn` accepts. */
  function ParseStance(name: string): (s: Option<Stance>)
    ensures s.Some? <==> name in {"Balanced", "Aggressive", "Defensive", "Berserker", "Counter"}
  {
    if name == "Balanced" then Some(Balanced)
    else if name == "Aggressive" then Some(Aggressive)
    else if name == "Defensive" then Some(Defensive)
    else if name == "Berserker" then Some(Berserker)
    else if name == "Counter" then Some(Counter)
    else None
  }

  function StanceName(s: Stance): string
  {
    match s
    case Balanced => "Balanced"
    case Aggressive => "Aggressive"
    case Defensive => "Defensive"
    case Berserker => "Berserker"
    case Counter => "Counter"
  }

  /** Every stance is accepted under its own name, and only under it. */
  lemma ParseStanceName(s: Stance, name: string)
    ensures ParseStance(StanceName(s)) == Some(s)
    ensures ParseStance(name) == Some(s) ==> name == StanceName(s)
  {
  }

  // ---------------------------------------------------------------------
  // Invariants of the registers

  /** What holds of the registers between operations. */
  predicate RegistersValid(r: Registers)
  {
    && (r.player1.None? <==> r.player2.None?)
    && (r.player1.None? <==> r.status == WaitingForPlayers)
    && (r.player1.Some? ==> r.lobbyChainId.Some? && r.player1.value.comboStack <= 5 && r.player2.value.comboStack <= 5)
    && (r.winner.Some? <==> r.status == Completed)
    && (r.status == InProgress ==> FIRST_ROUND <= r.currentRound <= r.maxRounds)
    && r.status != Cancelled
    && NoActionsRecorded(r.roundResults)
  }

  /** The participants' snapshots admit every draw the engine makes. */
  predicate Armed(r: Registers)
  {
    && (r.player1.Some? ==> WellFormed(r.player1.value.character))
    && (r.player2.Some? ==> WellFormed(r.player2.value.character))
  }

  predicate IsParticipant(r: Registers, caller: Owner)
  {
    r.player1.Some? && r.player2.Some? && (caller == r.player1.value.owner || caller == r.player2.value.owner)
  }

  // ---------------------------------------------------------------------
  // Initialization

  /** A participant as it enters the session: full hit points, no combo, no
      cooldown, no submitted turns. */
  function Enter(e: Entrant): (p: Participant)
    ensures p.owner == e.owner && p.chain == e.chain && p.character == e.character && p.stake == e.stake
    ensures p.currentHp == e.character.hpMax && p.comboStack == 0 && p.specialCooldown == 0
    ensures p.turnsSubmitted == [None, None, None]
  {
    Participant(e.owner, e.chain, e.character, e.stake, e.character.hpMax, 0, 0, [None, None, None])
  }

  /** `initialize_battle` once the origin check has passed: binds both
      participants unless one is already bound. */
  function InitializeSpec(r: Registers, p1: Entrant, p2: Entrant, lobby: ChainId, feeBps: nat,
                          treasury: Owner, now: nat): Registers
  {
    if r.player1.Some? || r.player2.Some? then r
    else Registers(Some(Enter(p1)), Some(Enter(p2)), InProgress, FIRST_ROUND, DEFAULT_MAX_ROUNDS, None, [],
                   Some(lobby), feeBps, Some(treasury), 0, Some(now), None)
  }

  /** Initialization takes a waiting session to a valid, armed session in
      its first round, and leaves an initialized session alone. */
  lemma InitializeValid(r: Registers, p1: Entrant, p2: Entrant, lobby: ChainId, feeBps: nat, treasury: Owner, now: nat)
    requires RegistersValid(r)
    ensures var r' := InitializeSpec(r, p1, p2, lobby, feeBps, treasury, now);
            && RegistersValid(r')
            && (r.status == WaitingForPlayers ==>
                  r'.status == InProgress && r'.currentRound == FIRST_ROUND && r'.winner.None?
                  && r'.player1 == Some(Enter(p1)) && r'.player2 == Some(Enter(p2)))
            && (r.status != WaitingForPlayers ==> r' == r)
            && (WellFormed(p1.character) && WellFormed(p2.character) && Armed(r) ==> Armed(r'))
  {
  }

  /** A second initialization message changes nothing. */
  lemma InitializeOnce(r: Registers, p1: Entrant, p2: Entrant, q1: Entrant, q2: Entrant, lobby: ChainId,
                       lobby2: ChainId, feeBps: nat, fee2: nat, treasury: Owner, treasury2: Owner, now: nat, now2: nat)
    ensures var r' := InitializeSpec(r, p1, p2, lobby, feeBps, treasury, now);
            InitializeSpec(r', q1, q2, lobby2, fee2, treasury2, now2) == r'
  {
  }

  // ---------------------------------------------------------------------
  // Finalization

  datatype Finish = Finish(regs: Registers, notices: seq<Notice>)

  /** `finalize_battle`: records the winner, completes the session and, when
      a lobby is known, reports to it: the winner's result, the loser's
      result, and the completion summary. */
  function FinalizeSpec(r: Registers, winner: Owner, loser: Owner, now: nat, chain: ChainId): (f: Finish)
    requires r.player1.Some? && r.player2.Some?
    ensures f.regs.status == Completed && f.regs.winner == Some(winner) && f.regs.completedAt == Some(now)
    ensures f.regs == r.(status := f.regs.status, winner := f.regs.winner, completedAt := f.regs.completedAt)
    ensures r.lobbyChainId.None? <==> f.notices == []
  {
    var pay := SettlePayout(r.player1.value.stake, r.player2.value.stake, r.platformFeeBps);
    var stats := StatsOf(Actions(r.roundResults), winner);
    var regs := r.(winner := Some(winner), status := Completed, completedAt := Some(now));
    var notices :=
      if r.lobbyChainId.Some? then
        [ BattleResult(winner, loser, pay.winnerPayout, WINNER_XP, stats.winner, chain),
          BattleResult(winner, loser, 0, LOSER_XP, stats.loser, chain),
          BattleCompleted(winner, loser, r.currentRound, pay.totalStake, stats.winner, stats.loser) ]
      else [];
    Finish(regs, notices)
  }

  /** The reports name the winner and the loser throughout; the winner's
      payout plus the platform fee is the total stake, the loser is paid
      nothing, and no report pays more than both stakes together. */
  lemma FinalizeReports(r: Registers, winner: Owner, loser: Owner, now: nat, chain: ChainId)
    requires r.player1.Some? && r.player2.Some? && r.lobbyChainId.Some?
    ensures var f := FinalizeSpec(r, winner, loser, now, chain);
            var pay := SettlePayout(r.player1.value.stake, r.player2.value.stake, r.platformFeeBps);
            && |f.notices| == 3
            && f.notices[0].BattleResult? && f.notices[1].BattleResult? && f.notices[2].BattleCompleted?
            && (forall i :: 0 <= i < 3 ==> f.notices[i].winner == winner && f.notices[i].loser == loser)
            && f.notices[0].xpGained == WINNER_XP && f.notices[1].xpGained == LOSER_XP
            && f.notices[1].winnerPayout == 0
            && f.notices[0].winnerPayout <= f.notices[2].totalStake <= r.player1.value.stake + r.player2.value.stake
            && (r.platformFeeBps <= 10000 ==> f.notices[0].winnerPayout + pay.platformFee == f.notices[2].totalStake)
            && f.notices[2].roundsPlayed == r.currentRound
  {
  }

  /** Round results never record actions, so every report carries all-zero
      combat statistics. */
  lemma FinalizeStatsAreZero(r: Registers, winner: Owner, loser: Owner, now: nat, chain: ChainId)
    requires RegistersValid(r) && r.player1.Some? && r.lobbyChainId.Some?
    ensures var f := FinalizeSpec(r, winner, loser, now, chain);
            && f.notices[0].battleStats == ZeroStats && f.notices[1].battleStats == ZeroStats
            && f.notices[2].winnerStats == ZeroStats && f.notices[2].loserStats == ZeroStats
  {
    StatsOfSilentRounds(r.roundResults, winner);
  }

  /** Finalization keeps the registers valid and the session is then
      completed, with a winner. */
  lemma FinalizeValid(r: Registers, winner: Owner, loser: Owner, now: nat, chain: ChainId)
    requires RegistersValid(r) && r.player1.Some?
    ensures var f := FinalizeSpec(r, winner, loser, now, chain);
            RegistersValid(f.regs) && f.regs.status == Completed && Armed(f.regs) == Armed(r)
  {
  }

  // ---------------------------------------------------------------------
  // One turn

  /** Winner of a turn or round that ended with a knock-out: player 1 if it
      still has hit points, otherwise player 2. */
  function KnockoutWinner(p1: Participant, p2: Participant): Owner
  {
    if p1.currentHp > 0 then p1.owner else p2.owner
  }

  /** The other side of `winner`. */
  function LoserOf(winner: Owner, p1: Participant, p2: Participant): Owner
  {
    if winner == p1.owner then p2.owner else p1.owner
  }

  /** The combat and finalization part of `execute_single_turn` for the two
      submissions of one slot. */
  function SingleTurnSpec(r: Registers, s1: TurnSubmission, s2: TurnSubmission, raw: nat -> int, cursor: nat,
                          now: nat, chain: ChainId): (e: (Finish, nat))
    requires r.player1.Some? && r.player2.Some? && Armed(r)
    ensures e.1 >= cursor
  {
    var t := TurnSpec(r.player1.value, r.player2.value, s1, s2, raw, cursor);
    var r1 := r.(player1 := Some(t.p1), player2 := Some(t.p2), randomCounter := r.randomCounter + t.attacks);
    if t.p1.currentHp == 0 || t.p2.currentHp == 0 then
      var w := KnockoutWinner(t.p1, t.p2);
      (FinalizeSpec(r1, w, LoserOf(w, t.p1, t.p2), now, chain), t.cursor)
    else
      (Finish(r1, []), t.cursor)
  }

  /** A turn keeps the registers valid and armed; it ends the session
      exactly when a participant is at zero hit points after it, and then
      a participant left standing is the winner. */
  lemma SingleTurnValid(r: Registers, s1: TurnSubmission, s2: TurnSubmission, raw: nat -> int, cursor: nat,
                        now: nat, chain: ChainId)
    requires RegistersValid(r) && Armed(r) && r.status == InProgress
    ensures var (f, _) := SingleTurnSpec(r, s1, s2, raw, cursor, now, chain);
            && RegistersValid(f.regs) && Armed(f.regs)
            && (f.regs.status == Completed <==> f.regs.player1.value.currentHp == 0 || f.regs.player2.value.currentHp == 0)
            && (f.regs.status == Completed && f.regs.player1.value.currentHp > 0 ==> f.regs.winner == Some(r.player1.value.owner))
            && (f.regs.status == Completed && f.regs.player1.value.currentHp == 0 ==>
                  f.regs.winner == Some(r.player2.value.owner))
            && f.regs.currentRound == r.currentRound
            && f.regs.player1.value.currentHp <= r.player1.value.currentHp
            && f.regs.player2.value.currentHp <= r.player2.value.currentHp
  {
    TurnFacts(r.player1.value, r.player2.value, s1, s2, raw, cursor);
    var t := TurnSpec(r.player1.value, r.player2.value, s1, s2, raw, cursor);
    var r1 := r.(player1 := Some(t.p1), player2 := Some(t.p2), randomCounter := r.randomCounter + t.attacks);
    assert RegistersValid(r1);
    if t.p1.currentHp == 0 || t.p2.currentHp == 0 {
      var w := KnockoutWinner(t.p1, t.p2);
      FinalizeValid(r1, w, LoserOf(w, t.p1, t.p2), now, chain);
    }
  }

  /** The draws of a turn: three or four per attack, and the random counter
      counts the attacks. */
  lemma SingleTurnDraws(r: Registers, s1: TurnSubmission, s2: TurnSubmission, raw: nat -> int, cursor: nat,
                        now: nat, chain: ChainId)
    requires r.player1.Some? && r.player2.Some? && Armed(r)
    ensures var (f, c) := SingleTurnSpec(r, s1, s2, raw, cursor, now, chain);
            var attacks := f.regs.randomCounter - r.randomCounter;
            && 0 <= attacks <= 2
            && cursor + 3 * attacks <= c <= cursor + 4 * attacks
            && (attacks == 0 <==> r.player1.value.currentHp == 0 || r.player2.value.currentHp == 0)
  {
    TurnFacts(r.player1.value, r.player2.value, s1, s2, raw, cursor);
  }

  /** A simultaneous knock-out, which a Berserker's self-damage can cause,
      goes to player 2. */
  lemma DoubleKnockoutGoesToPlayer2(p1: Participant, p2: Participant)
    requires p1.currentHp == 0 && p2.currentHp == 0
    ensures KnockoutWinner(p1, p2) == p2.owner
    ensures p1.owner != p2.owner ==> LoserOf(KnockoutWinner(p1, p2), p1, p2) == p1.owner
  {
  }

  // ---------------------------------------------------------------------
  // Turn submission

  /** The registers, submissions and stream position after a submission,
      with the reports sent and whether a turn was executed. */
  datatype SubmitOutcome = SubmitOutcome(regs: Registers, subs: Submissions, cursor: nat, notices: seq<Notice>,
                                         executed: bool)

  predicate BothSubmitted(r: Registers, subs: Submissions, turn: nat)
  {
    r.player1.Some? && r.player2.Some? && (r.player1.value.owner, turn) in subs && (r.player2.value.owner, turn) in subs
  }

  /** `execute_single_turn`: runs the turn of slot `turn` when the session is
      in progress and both participants' submissions for the slot exist.
      Submissions are left in place. */
  function ExecuteTurnSpec(r: Registers, subs: Submissions, turn: nat, raw: nat -> int, cursor: nat,
                           now: nat, chain: ChainId): (o: SubmitOutcome)
    requires Armed(r)
    ensures o.subs == subs
    ensures !o.executed ==> o.regs == r && o.cursor == cursor && o.notices == []
    ensures o.executed <==> r.status == InProgress && BothSubmitted(r, subs, turn)
  {
    if r.status == InProgress && BothSubmitted(r, subs, turn) then
      var (f, c) := SingleTurnSpec(r, subs[(r.player1.value.owner, turn)], subs[(r.player2.value.owner, turn)],
                                   raw, cursor, now, chain);
      SubmitOutcome(f.regs, subs, c, f.notices, true)
    else
      SubmitOutcome(r, subs, cursor, [], false)
  }

  /** The acceptance conditions of `submit_turn`. */
  predicate Accepts(r: Registers, subs: Submissions, caller: Owner, round: nat, turn: nat, stanceName: string)
  {
    && r.status == InProgress
    && round == r.currentRound
    && turn < TURNS_PER_ROUND
    && ParseStance(stanceName).Some?
    && (caller, turn) !in subs
  }

  /** `submit_turn` as written: an accepted submission is stored, and the
      slot's turn runs whenever both participants' submissions for it exist,
      whoever submitted. */
  function SubmitTurnAsWritten(r: Registers, subs: Submissions, caller: Owner, round: nat, turn: nat,
                               stanceName: string, useSpecial: bool, raw: nat -> int, cursor: nat,
                               now: nat, chain: ChainId): (o: SubmitOutcome)
    requires Armed(r)
    ensures !Accepts(r, subs, caller, round, turn, stanceName) ==> o == SubmitOutcome(r, subs, cursor, [], false)
    ensures Accepts(r, subs, caller, round, turn, stanceName) ==>
              && o.subs == subs[(caller, turn) := TurnSubmission(round, turn, ParseStance(stanceName).value, useSpecial)]
              && (o.executed <==> BothSubmitted(r, o.subs, turn))
  {
    if !Accepts(r, subs, caller, round, turn, stanceName) then SubmitOutcome(r, subs, cursor, [], false)
    else
      var subs' := subs[(caller, turn) := TurnSubmission(round, turn, ParseStance(stanceName).value, useSpecial)];
      ExecuteTurnSpec(r, subs', turn, raw, cursor, now, chain)
  }

  /** `submit_turn` with the slot's turn run only for a participant's own
      submission, which is then the one that completes the pair. */
  function SubmitTurnSpec(r: Registers, subs: Submissions, caller: Owner, round: nat, turn: nat,
                          stanceName: string, useSpecial: bool, raw: nat -> int, cursor: nat,
                          now: nat, chain: ChainId): (o: SubmitOutcome)
    requires Armed(r)
    ensures !Accepts(r, subs, caller, round, turn, stanceName) ==> o == SubmitOutcome(r, subs, cursor, [], false)
    ensures Accepts(r, subs, caller, round, turn, stanceName) ==>
              && o.subs == subs[(caller, turn) := TurnSubmission(round, turn, ParseStance(stanceName).value, useSpecial)]
              && (o.executed <==> IsParticipant(r, caller) && BothSubmitted(r, o.subs, turn))
              && (!o.executed ==> o.regs == r && o.cursor == cursor && o.notices == [])
  {
    if !Accepts(r, subs, caller, round, turn, stanceName) then SubmitOutcome(r, subs, cursor, [], false)
    else
      var subs' := subs[(caller, turn) := TurnSubmission(round, turn, ParseStance(stanceName).value, useSpecial)];
      if IsParticipant(r, caller) then ExecuteTurnSpec(r, subs', turn, raw, cursor, now, chain)
      else SubmitOutcome(r, subs', cursor, [], false)
  }

  /** As written, once both participants have filled a slot, anyone else's
      submission for that slot runs the same turn again. */
  lemma SubmitReplaysFilledSlot(r: Registers, subs: Submissions, outsider: Owner, turn: nat, stanceName: string,
                                useSpecial: bool, raw: nat -> int, cursor: nat, now: nat, chain: ChainId)
    requires RegistersValid(r) && Armed(r)
    requires BothSubmitted(r, subs, turn) && !IsParticipant(r, outsider)
    requires Accepts(r, subs, outsider, r.currentRound, turn, stanceName)
    requires r.player1.value.currentHp > 0 && r.player2.value.currentHp > 0
    ensures var o := SubmitTurnAsWritten(r, subs, outsider, r.currentRound, turn, stanceName, useSpecial, raw, cursor, now, chain);
            o.executed && o.regs.randomCounter > r.randomCounter && o.cursor >= cursor + 3
    ensures var o := SubmitTurnSpec(r, subs, outsider, r.currentRound, turn, stanceName, useSpecial, raw, cursor, now, chain);
            !o.executed && o.regs == r && o.cursor == cursor
  {
    var subs' := subs[(outsider, turn) := TurnSubmission(r.currentRound, turn, ParseStance(stanceName).value, useSpecial)];
    assert BothSubmitted(r, subs', turn);
    var p1 := r.player1.value;
    var p2 := r.player2.value;
    assert subs'[(p1.owner, turn)] == subs[(p1.owner, turn)];
    assert subs'[(p2.owner, turn)] == subs[(p2.owner, turn)];
    TurnFacts(p1, p2, subs'[(p1.owner, turn)], subs'[(p2.owner, turn)], raw, cursor);
  }

  /** A slot's turn runs exactly once per filling: a submission runs it
      only when the slot was not yet filled by both participants and this
      submission fills it, and a participant's accepted submission that
      fills it always runs it. */
  lemma SubmitRunsOnlyOnCompletion(r: Registers, subs: Submissions, caller: Owner, round: nat, turn: nat,
                                   stanceName: string, useSpecial: bool, raw: nat -> int, cursor: nat,
                                   now: nat, chain: ChainId)
    requires Armed(r)
    ensures var o := SubmitTurnSpec(r, subs, caller, round, turn, stanceName, useSpecial, raw, cursor, now, chain);
            && (o.executed ==> !BothSubmitted(r, subs, turn) && BothSubmitted(r, o.subs, turn) && IsParticipant(r, caller))
            && (Accepts(r, subs, caller, round, turn, stanceName) && IsParticipant(r, caller) && BothSubmitted(r, o.subs, turn) ==>
                  o.executed)
  {
    var o := SubmitTurnSpec(r, subs, caller, round, turn, stanceName, useSpecial, raw, cursor, now, chain);
    if o.executed {
      assert Accepts(r, subs, caller, round, turn, stanceName);
      assert (caller, turn) !in subs;
      assert caller == r.player1.value.owner || caller == r.player2.value.owner;
    }
  }

  /** For a participant's submission, the only kind the battle chain's two
      owners can sign, the corrected definition and the code as written
      coincide. */
  lemma SubmitAgreesForParticipants(r: Registers, subs: Submissions, caller: Owner, round: nat, turn: nat,
                                    stanceName: string, useSpecial: bool, raw: nat -> int, cursor: nat,
                                    now: nat, chain: ChainId)
    requires Armed(r) && IsParticipant(r, caller)
    ensures SubmitTurnSpec(r, subs, caller, round, turn, stanceName, useSpecial, raw, cursor, now, chain)
         == SubmitTurnAsWritten(r, subs, caller, round, turn, stanceName, useSpecial, raw, cursor, now, chain)
  {
  }

  /** A submission keeps the registers valid and armed, and never removes
      a stored submission. */
  lemma SubmitValid(r: Registers, subs: Submissions, caller: Owner, round: nat, turn: nat,
                    stanceName: string, useSpecial: bool, raw: nat -> int, cursor: nat, now: nat, chain: ChainId)
    requires RegistersValid(r) && Armed(r)
    ensures var o := SubmitTurnSpec(r, subs, caller, round, turn, stanceName, useSpecial, raw, cursor, now, chain);
            RegistersValid(o.regs) && Armed(o.regs) && subs.Keys <= o.subs.Keys && o.cursor >= cursor
  {
    if Accepts(r, subs, caller, round, turn, stanceName) && IsParticipant(r, caller) {
      var subs' := subs[(caller, turn) := TurnSubmission(round, turn, ParseStance(stanceName).value, useSpecial)];
      if BothSubmitted(r, subs', turn) {
        SingleTurnValid(r, subs'[(r.player1.value.owner, turn)], subs'[(r.player2.value.owner, turn)], raw, cursor, now, chain);
      }
    }
  }

  /** Outside of a session in progress nothing is accepted: in particular a
      completed session is never finalized again. */
  lemma SubmitIgnoredUnlessInProgress(r: Registers, subs: Submissions, caller: Owner, round: nat, turn: nat,
                                      stanceName: string, useSpecial: bool, raw: nat -> int, cursor: nat,
                                      now: nat, chain: ChainId)
    requires Armed(r) && r.status != InProgress
    ensures SubmitTurnSpec(r, subs, caller, round, turn, stanceName, useSpecial, raw, cursor, now, chain)
         == SubmitOutcome(r, subs, cursor, [], false)
  {
  }

  // ---------------------------------------------------------------------
  // The round-level ready signal

  /** Removes both participants' submissions for slots 0 to n - 1. */
  function ClearTurns(subs: Submissions, a: Owner, b: Owner, n: nat): Submissions
  {
    if n == 0 then subs else ClearTurns(subs, a, b, n - 1) - {(a, n - 1)} - {(b, n - 1)}
  }

  /** Clearing removes exactly the two participants' first n slots and
      keeps every other submission as it was. */
  lemma {:induction false} ClearTurnsExact(subs: Submissions, a: Owner, b: Owner, n: nat)
    ensures forall key :: key in ClearTurns(subs, a, b, n) <==> key in subs && !((key.0 == a || key.0 == b) && key.1 < n)
    ensures forall key :: key in ClearTurns(subs, a, b, n) ==> ClearTurns(subs, a, b, n)[key] == subs[key]
  {
    if n > 0 {
      ClearTurnsExact(subs, a, b, n - 1);
    }
  }

  /** Closing a round in `execute_3_rounds` once both participants are
      ready: a round result with the current hit points is appended, then the
      session ends by knock-out, ends on the last round with the healthier
      participant winning (player 2 on a tie), or moves to the next round. */
  function CloseRoundSpec(r: Registers, now: nat, chain: ChainId): (f: Finish)
    requires r.player1.Some? && r.player2.Some?
  {
    var p1 := r.player1.value;
    var p2 := r.player2.value;
    var r1 := r.(roundResults := r.roundResults + [RoundResult(r.currentRound, [], [], p1.currentHp, p2.currentHp)]);
    if p1.currentHp == 0 || p2.currentHp == 0 then
      var w := KnockoutWinner(p1, p2);
      FinalizeSpec(r1, w, LoserOf(w, p1, p2), now, chain)
    else if r.currentRound >= r.maxRounds then
      var w := if p1.currentHp > p2.currentHp then p1.owner else p2.owner;
      FinalizeSpec(r1, w, LoserOf(w, p1, p2), now, chain)
    else
      Finish(r1.(currentRound := r.currentRound + 1), [])
  }

  /** Closing a round keeps the registers valid and armed; the session
      either completes or advances exactly one round, and it completes at
      the latest when the last round closes. */
  lemma CloseRoundValid(r: Registers, now: nat, chain: ChainId)
    requires RegistersValid(r) && Armed(r) && r.status == InProgress
    ensures var f := CloseRoundSpec(r, now, chain);
            var p1 := r.player1.value;
            var p2 := r.player2.value;
            && RegistersValid(f.regs) && Armed(f.regs)
            && |f.regs.roundResults| == |r.roundResults| + 1
            && (f.regs.status == InProgress <==> p1.currentHp > 0 && p2.currentHp > 0 && r.currentRound < r.maxRounds)
            && (f.regs.status == InProgress ==> f.regs.currentRound == r.currentRound + 1)
            && (f.regs.status != InProgress ==> f.regs.status == Completed)
            && (r.currentRound == r.maxRounds ==> f.regs.status == Completed)
            && (p1.currentHp > 0 && p2.currentHp > 0 && r.currentRound >= r.maxRounds ==>
                  f.regs.winner == Some(if p1.currentHp > p2.currentHp then p1.owner else p2.owner))
            && (p1.currentHp == 0 ==> f.regs.winner == Some(p2.owner))
            && (p1.currentHp > 0 && p2.currentHp == 0 ==> f.regs.winner == Some(p1.owner))
  {
    var p1 := r.player1.value;
    var p2 := r.player2.value;
    var r1 := r.(roundResults := r.roundResults + [RoundResult(r.currentRound, [], [], p1.currentHp, p2.currentHp)]);
    assert NoActionsRecorded(r1.roundResults);
    if p1.currentHp == 0 || p2.currentHp == 0 {
      FinalizeValid(r1, KnockoutWinner(p1, p2), LoserOf(KnockoutWinner(p1, p2), p1, p2), now, chain);
    } else if r.currentRound >= r.maxRounds {
      var w := if p1.currentHp > p2.currentHp then p1.owner else p2.owner;
      FinalizeValid(r1, w, LoserOf(w, p1, p2), now, chain);
    }
  }

  datatype ReadyOutcome = ReadyOutcome(regs: Registers, subs: Submissions, log: seq<ReadySignal>, notices: seq<Notice>)

  /** `execute_3_rounds`: a participant's ready signal for the current round
      is logged once; when both participants' signals are in the log the
      round closes and their submissions are cleared. */
  function ReadySpec(r: Registers, subs: Submissions, log: seq<ReadySignal>, caller: Owner, now: nat,
                     chain: ChainId): (o: ReadyOutcome)
  {
    if r.status != InProgress || !IsParticipant(r, caller) || ReadySignal(r.currentRound, caller) in log then
      ReadyOutcome(r, subs, log, [])
    else
      var log' := log + [ReadySignal(r.currentRound, caller)];
      var p1 := r.player1.value;
      var p2 := r.player2.value;
      if ReadySignal(r.currentRound, p1.owner) in log' && ReadySignal(r.currentRound, p2.owner) in log' then
        var f := CloseRoundSpec(r, now, chain);
        ReadyOutcome(f.regs, ClearTurns(subs, p1.owner, p2.owner, TURNS_PER_ROUND), log', f.notices)
      else
        ReadyOutcome(r, subs, log', [])
  }

  /** A signal is logged at most once per participant and round; the round
      closes on the signal that completes the pair, and then neither
      participant has a submission left in the round's slots. */
  lemma ReadyClosesOnce(r: Registers, subs: Submissions, log: seq<ReadySignal>, caller: Owner, now: nat, chain: ChainId)
    requires RegistersValid(r) && Armed(r)
    ensures var o := ReadySpec(r, subs, log, caller, now, chain);
            && RegistersValid(o.regs) && Armed(o.regs)
            && (ReadySignal(r.currentRound, caller) in log ==> o == ReadyOutcome(r, subs, log, []))
            && (o.regs != r ==>
                  && IsParticipant(r, caller)
                  && !(ReadySignal(r.currentRound, r.player1.value.owner) in log && ReadySignal(r.currentRound, r.player2.value.owner) in log)
                  && (forall t :: 0 <= t < TURNS_PER_ROUND ==>
                        (r.player1.value.owner, t) !in o.subs && (r.player2.value.owner, t) !in o.subs))
  {
    var o := ReadySpec(r, subs, log, caller, now, chain);
    if r.status == InProgress && IsParticipant(r, caller) && ReadySignal(r.currentRound, caller) !in log {
      var p1 := r.player1.value;
      var p2 := r.player2.value;
      var log' := log + [ReadySignal(r.currentRound, caller)];
      if ReadySignal(r.currentRound, p1.owner) in log' && ReadySignal(r.currentRound, p2.owner) in log' {
        CloseRoundValid(r, now, chain);
        ClearTurnsExact(subs, p1.owner, p2.owner, TURNS_PER_ROUND);
      }
    }
  }

  /** A ready signal from anyone but a participant of a session in
      progress changes nothing. */
  lemma ReadyIgnoredUnlessParticipant(r: Registers, subs: Submissions, log: seq<ReadySignal>, caller: Owner,
                                      now: nat, chain: ChainId)
    requires r.status != InProgress || !IsParticipant(r, caller)
    ensures ReadySpec(r, subs, log, caller, now, chain) == ReadyOutcome(r, subs, log, [])
  {
  }

  /** A participant's first signal for the round is appended to the log; if
      it completes the pair the round is closed, exactly as `close_round`
      does, and the round's submissions are cleared; otherwise nothing else
      changes. */
  lemma ReadyClosesOnCompletingSignal(r: Registers, subs: Submissions, log: seq<ReadySignal>, caller: Owner,
                                      now: nat, chain: ChainId)
    requires RegistersValid(r) && Armed(r) && r.status == InProgress && IsParticipant(r, caller)
    requires ReadySignal(r.currentRound, caller) !in log
    ensures var o := ReadySpec(r, subs, log, caller, now, chain);
            var log' := log + [ReadySignal(r.currentRound, caller)];
            var p1 := r.player1.value;
            var p2 := r.player2.value;
            var both := ReadySignal(r.currentRound, p1.owner) in log' && ReadySignal(r.currentRound, p2.owner) in log';
            && o.log == log'
            && (both ==>
                  && o.regs == CloseRoundSpec(r, now, chain).regs
                  && o.notices == CloseRoundSpec(r, now, chain).notices
                  && o.subs == ClearTurns(subs, p1.owner, p2.owner, TURNS_PER_ROUND)
                  && |o.regs.roundResults| == |r.roundResults| + 1)
            && (!both ==> o.regs == r && o.subs == subs && o.notices == [])
  {
    var log' := log + [ReadySignal(r.currentRound, caller)];
    if ReadySignal(r.currentRound, r.player1.value.owner) in log' && ReadySignal(r.currentRound, r.player2.value.owner) in log' {
      CloseRoundValid(r, now, chain);
    }
  }

  // ---------------------------------------------------------------------
  // The session

  class BattleSession {
    /** The chain the session runs on, reported in its results. */
    const battleChain: ChainId
    /** The session's registers (players, status, rounds, winner, results,
        lobby, fee, treasury, random counter, timestamps). */
    var regs: Registers
    var turnSubmissions: Submissions
    var battleLog: seq<ReadySignal>

    ghost predicate Valid()
      reads this
    {
      RegistersValid(regs)
    }

    constructor (battleChain: ChainId)
      ensures Valid() && Armed(regs)
      ensures this.battleChain == battleChain
      ensures regs == Registers(None, None, WaitingForPlayers, 0, 0, None, [], None, 0, None, 0, None, None)
      ensures turnSubmissions == map[] && battleLog == []
    {
      this.battleChain := battleChain;
      regs := Registers(None, None, WaitingForPlayers, 0, 0, None, [], None, 0, None, 0, None, None);
      turnSubmissions := map[];
      battleLog := [];
    }

    /** `initialize_battle`. A message from any chain other than the lobby
        it names aborts the whole operation. */
    method InitializeBattle(origin: Option<ChainId>, p1: Entrant, p2: Entrant, lobby: ChainId, feeBps: nat,
                            treasury: Owner, now: nat) returns (aborted: bool)
      requires Valid()
      modifies this
      ensures Valid()
      ensures aborted <==> origin != Some(lobby)
      ensures aborted ==> unchanged(this)
      ensures !aborted ==> regs == InitializeSpec(old(regs), p1, p2, lobby, feeBps, treasury, now)
      ensures turnSubmissions == old(turnSubmissions) && battleLog == old(battleLog)
    {
      if origin != Some(lobby) {
        return true;
      }
      aborted := false;
      InitializeValid(regs, p1, p2, lobby, feeBps, treasury, now);
      if regs.player1.Some? || regs.player2.Some? {
        return;
      }
      regs := regs.(player1 := Some(Enter(p1)));
      regs := regs.(player2 := Some(Enter(p2)));
      regs := regs.(status := InProgress);
      regs := regs.(currentRound := FIRST_ROUND);
      regs := regs.(maxRounds := DEFAULT_MAX_ROUNDS);
      regs := regs.(winner := None);
      regs := regs.(roundResults := []);
      regs := regs.(lobbyChainId := Some(lobby));
      regs := regs.(platformFeeBps := feeBps);
      regs := regs.(treasuryOwner := Some(treasury));
      regs := regs.(randomCounter := 0);
      regs := regs.(startedAt := Some(now));
      regs := regs.(completedAt := None);
    }

    /** `execute_attack`: one attack, with the draws it takes from `rng`. */
    method ExecuteAttack(attacker: Participant, defender: Participant, turn: TurnSubmission,
                         defenderStance: Stance, rng: DrawSource)
      returns (a: Participant, d: Participant, action: CombatAction)
      requires WellFormed(attacker.character)
      modifies this, rng
      ensures var x := ExchangeSpec(attacker, defender, turn, defenderStance, rng.raw, old(rng.cursor));
              a == x.attacker && d == x.defender && action == x.action && rng.cursor == x.cursor
      ensures a.character == attacker.character && d.character == defender.character
      ensures regs == old(regs).(randomCounter := old(regs).randomCounter + 1)
      ensures turnSubmissions == old(turnSubmissions) && battleLog == old(battleLog)
    {
      a, d := attacker, defender;
      var specialUsed := false;
      if turn.useSpecial && a.specialCooldown == 0 {
        a := a.(specialCooldown := 3);
        specialUsed := true;
      }

      var out := CalculateDamage(a, d, turn.stance, defenderStance, specialUsed, rng);

      var wasCountered := false;
      if turn.stance == Berserker && !out.wasDodged {
        a := a.(currentHp := SaturatingSub(a.currentHp, out.damage / 4));
      }
      if !out.wasDodged {
        d := d.(currentHp := SaturatingSub(d.currentHp, out.damage));
      }
      a := a.(comboStack := NextCombo(a.comboStack, out.wasCrit, out.wasDodged));
      if defenderStance == Counter && !out.wasDodged && d.currentHp > 0 {
        var roll := rng.Value(0, 9999);
        if roll < COUNTER_CHANCE {
          wasCountered := true;
          a := a.(currentHp := SaturatingSub(a.currentHp, out.damage * 4 / 10));
        }
      }
      a := a.(specialCooldown := Tick(a.specialCooldown));
      d := d.(specialCooldown := Tick(d.specialCooldown));
      regs := regs.(randomCounter := regs.randomCounter + 1);
      action := CombatAction(attacker.owner, defender.owner, out.damage, out.wasCrit, out.wasDodged,
                             wasCountered, specialUsed, d.currentHp);
    }

    /** `finalize_battle`. */
    method FinalizeBattle(winner: Owner, loser: Owner, now: nat) returns (notices: seq<Notice>)
      requires regs.player1.Some? && regs.player2.Some?
      modifies this
      ensures var f := FinalizeSpec(old(regs), winner, loser, now, battleChain);
              regs == f.regs && notices == f.notices
      ensures turnSubmissions == old(turnSubmissions) && battleLog == old(battleLog)
    {
      regs := regs.(winner := Some(winner));
      regs := regs.(status := Completed);
      regs := regs.(completedAt := Some(now));

      var p1, p2 := regs.player1.value, regs.player2.value;
      var totalStake := SaturatingAdd(p1.stake, p2.stake, AMOUNT_MAX);
      var platformFee := (totalStake * regs.platformFeeBps) / 10000;
      var winnerPayout := SaturatingSub(totalStake, platformFee);

      var winnerStats, loserStats := CalculateCombatStats(regs.roundResults, winner);

      notices := [];
      if regs.lobbyChainId.Some? {
        notices := [
          BattleResult(winner, loser, winnerPayout, WINNER_XP, winnerStats, battleChain),
          BattleResult(winner, loser, 0, LOSER_XP, loserStats, battleChain),
          BattleCompleted(winner, loser, regs.currentRound, totalStake, winnerStats, loserStats)];
      }
    }

    /** The two attacks of `execute_single_turn`, on private copies of the
        participants. */
    method Fight(p1: Participant, p2: Participant, s1: TurnSubmission, s2: TurnSubmission, rng: DrawSource)
      returns (p1Mut: Participant, p2Mut: Participant)
      requires WellFormed(p1.character) && WellFormed(p2.character)
      modifies this, rng
      ensures var t := TurnSpec(p1, p2, s1, s2, rng.raw, old(rng.cursor));
              p1Mut == t.p1 && p2Mut == t.p2 && rng.cursor == t.cursor
              && regs == old(regs).(randomCounter := old(regs).randomCounter + t.attacks)
      ensures turnSubmissions == old(turnSubmissions) && battleLog == old(battleLog)
    {
      p1Mut, p2Mut := p1, p2;
      if p1Mut.currentHp > 0 && p2Mut.currentHp > 0 {
        var action;
        p1Mut, p2Mut, action := ExecuteAttack(p1Mut, p2Mut, s1, s2.stance, rng);
      }
      if p2Mut.currentHp > 0 && p1Mut.currentHp > 0 {
        var action;
        p2Mut, p1Mut, action := ExecuteAttack(p2Mut, p1Mut, s2, s1.stance, rng);
      }
    }

    /** `execute_single_turn`. */
    method ExecuteSingleTurn(turn: nat, rng: DrawSource, now: nat) returns (notices: seq<Notice>)
      requires Armed(regs)
      modifies this, rng
      ensures var o := ExecuteTurnSpec(old(regs), old(turnSubmissions), turn, rng.raw, old(rng.cursor), now, battleChain);
              regs == o.regs && rng.cursor == o.cursor && notices == o.notices
      ensures turnSubmissions == old(turnSubmissions) && battleLog == old(battleLog)
    {
      notices := [];
      if regs.status != InProgress {
        return;
      }
      if regs.player1.None? || regs.player2.None? {
        return;
      }
      var p1, p2 := regs.player1.value, regs.player2.value;
      var p1Key, p2Key := (p1.owner, turn), (p2.owner, turn);
      if p1Key !in turnSubmissions || p2Key !in turnSubmissions {
        return;
      }
      var s1, s2 := turnSubmissions[p1Key], turnSubmissions[p2Key];
      var p1Mut, p2Mut := Fight(p1, p2, s1, s2, rng);
      regs := regs.(player1 := Some(p1Mut));
      regs := regs.(player2 := Some(p2Mut));

      if p1Mut.currentHp == 0 || p2Mut.currentHp == 0 {
        var w := if p1Mut.currentHp > 0 then p1Mut.owner else p2Mut.owner;
        var l := if w == p1Mut.owner then p2Mut.owner else p1Mut.owner;
        notices := FinalizeBattle(w, l, now);
      }
    }

    /** `submit_turn`, for the authenticated `caller`; the slot's turn runs
        only on a participant's submission. */
    method SubmitTurn(caller: Owner, round: nat, turn: nat, stanceName: string, useSpecial: bool,
                      rng: DrawSource, now: nat) returns (notices: seq<Notice>)
      requires Valid() && Armed(regs)
      modifies this, rng
      ensures Valid() && Armed(regs)
      ensures var o := SubmitTurnSpec(old(regs), old(turnSubmissions), caller, round, turn, stanceName, useSpecial,
                                      rng.raw, old(rng.cursor), now, battleChain);
              regs == o.regs && turnSubmissions == o.subs && rng.cursor == o.cursor && notices == o.notices
      ensures battleLog == old(battleLog)
    {
      SubmitValid(regs, turnSubmissions, caller, round, turn, stanceName, useSpecial, rng.raw, rng.cursor, now, battleChain);
      notices := [];
      if regs.status != InProgress || round != regs.currentRound || turn >= TURNS_PER_ROUND {
        return;
      }
      var stance := ParseStance(stanceName);
      if stance.None? {
        return;
      }
      var turnKey := (caller, turn);
      if turnKey in turnSubmissions {
        return;
      }
      turnSubmissions := turnSubmissions[turnKey := TurnSubmission(round, turn, stance.value, useSpecial)];

      if regs.player1.Some? && regs.player2.Some? {
        var p1, p2 := regs.player1.value, regs.player2.value;
        if caller == p1.owner || caller == p2.owner {
          var p1Submitted := (p1.owner, turn) in turnSubmissions;
          var p2Submitted := (p2.owner, turn) in turnSubmissions;
          if p1Submitted && p2Submitted {
            notices := ExecuteSingleTurn(turn, rng, now);
          }
        }
      }
    }

    /** Clearing both participants' submissions for the three slots, as the
        loop of `execute_3_rounds` does. */
    method ClearRoundTurns(a: Owner, b: Owner)
      modifies this`turnSubmissions
      ensures turnSubmissions == ClearTurns(old(turnSubmissions), a, b, TURNS_PER_ROUND)
    {
      ghost var subs0 := turnSubmissions;
      for t := 0 to TURNS_PER_ROUND
        invariant turnSubmissions == ClearTurns(subs0, a, b, t)
      {
        turnSubmissions := turnSubmissions - {(a, t)};
        turnSubmissions := turnSubmissions - {(b, t)};
      }
    }

    /** The part of `execute_3_rounds` that runs once both participants are
        ready: store the round result, clear the submissions, then finish
        the session or advance the round. */
    method CloseRound(now: nat) returns (notices: seq<Notice>)
      requires regs.player1.Some? && regs.player2.Some?
      modifies this
      ensures var f := CloseRoundSpec(old(regs), now, battleChain);
              regs == f.regs && notices == f.notices
      ensures turnSubmissions == ClearTurns(old(turnSubmissions), old(regs).player1.value.owner,
                                            old(regs).player2.value.owner, TURNS_PER_ROUND)
      ensures battleLog == old(battleLog)
    {
      var round := regs.currentRound;
      var p1, p2 := regs.player1.value, regs.player2.value;
      regs := regs.(roundResults := regs.roundResults + [RoundResult(round, [], [], p1.currentHp, p2.currentHp)]);
      ClearRoundTurns(p1.owner, p2.owner);

      notices := [];
      if p1.currentHp == 0 || p2.currentHp == 0 {
        var w := if p1.currentHp > 0 then p1.owner else p2.owner;
        var l := if w == p1.owner then p2.owner else p1.owner;
        notices := FinalizeBattle(w, l, now);
      } else if round >= regs.maxRounds {
        var w := if p1.currentHp > p2.currentHp then p1.owner else p2.owner;
        var l := if w == p1.owner then p2.owner else p1.owner;
        notices := FinalizeBattle(w, l, now);
      } else {
        regs := regs.(currentRound := round + 1);
      }
    }

    /** `execute_3_rounds`, for the authenticated `caller`. */
    method Execute3Rounds(caller: Owner, now: nat) returns (notices: seq<Notice>)
      requires Valid() && Armed(regs)
      modifies this
      ensures Valid() && Armed(regs)
      ensures var o := ReadySpec(old(regs), old(turnSubmissions), old(battleLog), caller, now, battleChain);
              regs == o.regs && turnSubmissions == o.subs && battleLog == o.log && notices == o.notices
    {
      ReadyClosesOnce(regs, turnSubmissions, battleLog, caller, now, battleChain);
      notices := [];
      if regs.status != InProgress {
        return;
      }
      var isParticipant := regs.player1.Some? && regs.player2.Some? &&
                           (caller == regs.player1.value.owner || caller == regs.player2.value.owner);
      if !isParticipant {
        return;
      }
      var round := regs.currentRound;
      var executeKey := ReadySignal(round, caller);
      if executeKey in battleLog {
        return;
      }
      battleLog := battleLog + [executeKey];

      var p1, p2 := regs.player1.value, regs.player2.value;
      var p1Wants := ReadySignal(round, p1.owner) in battleLog;
      var p2Wants := ReadySignal(round, p2.owner) in battleLog;
      if p1Wants && p2Wants {
        notices := CloseRound(now);
      }
    }
  }
}
