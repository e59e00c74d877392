/** The records of a battle session, reconstructed from their uses in
    src/battle_contract.rs (the battle state module itself is not part of this
    model). */
module BattleTypes {
  import opened Common

  datatype Stance = Balanced | Aggressive | Defensive | Berserker | Counter

  datatype BattleStatus = WaitingForPlayers | InProgress | Completed | Cancelled

  datatype CharacterClass = Warrior | Assassin | Mage | Tank | Trickster

  /** The immutable character a participant brings to the battle. Chances are
      in basis points out of 10000, `critMultiplier` in basis points (15000 is
      x1.5), `defense` in percent, the three trait modifiers signed basis
      points. */
  datatype CharacterSnapshot = CharacterSnapshot(
    nftId: string,
    charClass: CharacterClass,
    level: nat,
    hpMax: nat,
    minDamage: nat,
    maxDamage: nat,
    critChance: nat,
    critMultiplier: nat,
    dodgeChance: nat,
    defense: nat,
    attackBps: int,
    defenseBps: int,
    critBps: int)

  /** The crit threshold out of 10000 (`crit_chance + crit_bps.max(0)`). */
  function CritThreshold(c: CharacterSnapshot): nat
  {
    c.critChance + (if c.critBps > 0 then c.critBps else 0)
  }

  /** What the engine assumes of a snapshot: a non-empty damage range for the
      base draw (an empty one panics), an attack trait that does not turn the
      damage negative (a negative one wraps silently in the `u128` cast), and
      a crit threshold within `u16` (a larger one overflows). */
  predicate WellFormed(c: CharacterSnapshot)
  {
    && c.minDamage <= c.maxDamage
    && c.attackBps >= -10000
    && CritThreshold(c) <= 0xFFFF
  }

  datatype TurnSubmission = TurnSubmission(round: nat, turn: nat, stance: Stance, useSpecial: bool)

  /** A participant as the lobby sends it in `InitializeBattle`. */
  datatype Entrant = Entrant(owner: Owner, chain: ChainId, character: CharacterSnapshot, stake: nat)

  /** A participant of the session: the entrant plus its mutable combat state. */
  datatype Participant = Participant(
    owner: Owner,
    chain: ChainId,
    character: CharacterSnapshot,
    stake: nat,
    currentHp: nat,
    comboStack: nat,
    specialCooldown: nat,
    turnsSubmitted: seq<Option<TurnSubmission>>)

  datatype CombatAction = CombatAction(
    attacker: Owner,
    defender: Owner,
    damage: nat,
    wasCrit: bool,
    wasDodged: bool,
    wasCountered: bool,
    specialUsed: bool,
    defenderHpRemaining: nat)

  datatype RoundResult = RoundResult(
    round: nat,
    player1Actions: seq<CombatAction>,
    player2Actions: seq<CombatAction>,
    player1Hp: nat,
    player2Hp: nat)

  datatype CombatStats = CombatStats(damageDealt: nat, damageTaken: nat, crits: nat, dodges: nat, highestCrit: nat)

  const ZeroStats := CombatStats(0, 0, 0, 0, 0)

  /** The messages a finished session sends to its lobby. */
  datatype Notice =
    | BattleResult(winner: Owner, loser: Owner, winnerPayout: nat, xpGained: nat,
                   battleStats: CombatStats, battleChain: ChainId)
    | BattleCompleted(winner: Owner, loser: Owner, roundsPlayed: nat, totalStake: nat,
                      winnerStats: CombatStats, loserStats: CombatStats)

  /** The registers of a session other than the turn-submission map and the
      ready-signal log. */
  datatype Registers = Registers(
    player1: Option<Participant>,
    player2: Option<Participant>,
    status: BattleStatus,
    currentRound: nat,
    maxRounds: nat,
    winner: Option<Owner>,
    roundResults: seq<RoundResult>,
    lobbyChainId: Option<ChainId>,
    platformFeeBps: nat,
    treasuryOwner: Option<Owner>,
    randomCounter: nat,
    startedAt: Option<nat>,
    completedAt: Option<nat>)
}
