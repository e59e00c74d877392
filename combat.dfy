/** One attack (`execute_attack`) and one turn of two attacks
    (`execute_single_turn`) of src/battle_contract.rs, as functions of the
    participants and of the random stream. */
module Combat {
  import opened Common
  import opened Draws
  import opened BattleTypes
  import opened Damage

  /** The counter-attack chance out of 10000. */
  const COUNTER_CHANCE: nat := 4000

  /** Cooldown tick: down by one, never below zero. */
  function Tick(cooldown: nat): (c: nat)
    ensures cooldown > 0 ==> c + 1 == cooldown
    ensures cooldown == 0 ==> c == 0
  {
    if cooldown > 0 then cooldown - 1 else 0
  }

  /** The attacker and defender after one attack, the action recorded for it
      and the stream position after its draws. */
  datatype Exchange = Exchange(attacker: Participant, defender: Participant, action: CombatAction, cursor: nat)

  /** The combo stack after an attack: a crit raises it (up to 5), a dodge
      that is not also a crit below 5 resets it. */
  function NextCombo(comboStack: nat, wasCrit: bool, wasDodged: bool): nat
  {
    if wasCrit && comboStack < 5 then comboStack + 1
    else if wasDodged then 0
    else comboStack
  }

  /** `execute_attack` reading the stream `raw` from position `cursor`: three
      draws for the damage, and a fourth for the counter-attack roll when the
      defender is in Counter stance, the hit landed and the defender lives. */
  function ExchangeSpec(attacker: Participant, defender: Participant, turn: TurnSubmission,
                        defenderStance: Stance, raw: nat -> int, cursor: nat): (x: Exchange)
    requires WellFormed(attacker.character)
    ensures x.cursor >= cursor + 3
  {
    var ch := attacker.character;
    var specialUsed := turn.useSpecial && attacker.specialCooldown == 0;
    var cooldown := if specialUsed then 3 else attacker.specialCooldown;
    var out := DamageSpec(ch, attacker.comboStack, defender.character, turn.stance, defenderStance, specialUsed,
                          Pick(raw(cursor), ch.minDamage, ch.maxDamage),
                          Pick(raw(cursor + 1), 0, 9999),
                          Pick(raw(cursor + 2), 0, 9999));
    var selfHp := if turn.stance == Berserker && !out.wasDodged
                  then SaturatingSub(attacker.currentHp, out.damage / 4) else attacker.currentHp;
    var defenderHp := if !out.wasDodged then SaturatingSub(defender.currentHp, out.damage) else defender.currentHp;
    var combo := NextCombo(attacker.comboStack, out.wasCrit, out.wasDodged);
    var checked := defenderStance == Counter && !out.wasDodged && defenderHp > 0;
    var countered := checked && Pick(raw(cursor + 3), 0, 9999) < COUNTER_CHANCE;
    var attackerHp := if countered then SaturatingSub(selfHp, out.damage * 4 / 10) else selfHp;
    Exchange(
      attacker.(currentHp := attackerHp, comboStack := combo, specialCooldown := Tick(cooldown)),
      defender.(currentHp := defenderHp, specialCooldown := Tick(defender.specialCooldown)),
      CombatAction(attacker.owner, defender.owner, out.damage, out.wasCrit, out.wasDodged, countered,
                   specialUsed, defenderHp),
      if checked then cursor + 4 else cursor + 3)
  }

  /** What one attack does: the draws it consumes, the hit points it
      takes, the combo and cooldown bookkeeping, and that nothing else of
      either participant changes. */
  lemma ExchangeFacts(attacker: Participant, defender: Participant, turn: TurnSubmission,
                      defenderStance: Stance, raw: nat -> int, cursor: nat)
    requires WellFormed(attacker.character)
    ensures var x := ExchangeSpec(attacker, defender, turn, defenderStance, raw, cursor);
            && (x.cursor == cursor + 3 || x.cursor == cursor + 4)
            && (x.cursor == cursor + 4 <==>
                 defenderStance == Counter && !x.action.wasDodged && x.defender.currentHp > 0)
            && (x.action.wasCountered ==> x.cursor == cursor + 4)
            && (x.action.wasDodged ==> x.action.damage == 0 && x.defender.currentHp == defender.currentHp)
            && (!x.action.wasDodged ==>
                 x.action.damage >= 1 && x.defender.currentHp == SaturatingSub(defender.currentHp, x.action.damage))
            && (x.action.defenderHpRemaining == x.defender.currentHp)
            && (x.attacker.currentHp <= attacker.currentHp)
            && (x.action.wasDodged ==> x.attacker.currentHp == attacker.currentHp)
            && (attacker.comboStack <= 5 ==> x.attacker.comboStack <= 5)
            && (x.action.specialUsed <==> turn.useSpecial && attacker.specialCooldown == 0)
            && (x.action.specialUsed ==> x.attacker.specialCooldown == 2)
            && (!x.action.specialUsed ==> x.attacker.specialCooldown == Tick(attacker.specialCooldown))
            && (x.defender.specialCooldown == Tick(defender.specialCooldown))
            && (x.action.attacker == attacker.owner && x.action.defender == defender.owner)
            && (x.attacker == attacker.(currentHp := x.attacker.currentHp, comboStack := x.attacker.comboStack,
                 specialCooldown := x.attacker.specialCooldown))
            && (x.defender == defender.(currentHp := x.defender.currentHp, specialCooldown := x.defender.specialCooldown))
  {
  }

  /** A crit raises the combo stack below 5 even when the hit is dodged; at 5
      a dodged crit resets it to zero. */
  lemma DodgedCritCombo(comboStack: nat)
    ensures comboStack < 5 ==> NextCombo(comboStack, true, true) == comboStack + 1
    ensures comboStack >= 5 ==> NextCombo(comboStack, true, true) == 0
    ensures NextCombo(comboStack, false, true) == 0
    ensures NextCombo(comboStack, false, false) == comboStack
  {
  }

  /** A Counter defender that is dodged never counter-attacks, and one that
      does not counter leaves the attacker's hit points as the self-damage
      left them. */
  lemma NoCounterWhenDodged(attacker: Participant, defender: Participant, turn: TurnSubmission,
                            raw: nat -> int, cursor: nat)
    requires WellFormed(attacker.character)
    ensures var x := ExchangeSpec(attacker, defender, turn, Counter, raw, cursor);
            x.action.wasDodged ==> !x.action.wasCountered && x.cursor == cursor + 3
  {
  }

  /** The result of one turn: both participants, the stream position after it
      and how many attacks were carried out. */
  datatype TurnOutcome = TurnOutcome(p1: Participant, p2: Participant, cursor: nat, attacks: nat)

  /** Shared per-participant facts a turn preserves. */
  predicate SameEntrant(before: Participant, after: Participant)
  {
    && after.owner == before.owner
    && after.chain == before.chain
    && after.character == before.character
    && after.stake == before.stake
    && after.turnsSubmitted == before.turnsSubmitted
    && after.currentHp <= before.currentHp
  }

  /** The combat part of `execute_single_turn`: player 1 attacks if both are
      alive, then player 2 strikes back if both are still alive. */
  function TurnSpec(p1: Participant, p2: Participant, s1: TurnSubmission, s2: TurnSubmission,
                    raw: nat -> int, cursor: nat): (t: TurnOutcome)
    requires WellFormed(p1.character) && WellFormed(p2.character)
    ensures t.cursor >= cursor
  {
    if p1.currentHp > 0 && p2.currentHp > 0 then
      var x := ExchangeSpec(p1, p2, s1, s2.stance, raw, cursor);
      ExchangeFacts(p1, p2, s1, s2.stance, raw, cursor);
      if x.defender.currentHp > 0 && x.attacker.currentHp > 0 then
        var y := ExchangeSpec(x.defender, x.attacker, s2, s1.stance, raw, x.cursor);
        TurnOutcome(y.defender, y.attacker, y.cursor, 2)
      else
        TurnOutcome(x.attacker, x.defender, x.cursor, 1)
    else
      TurnOutcome(p1, p2, cursor, 0)
  }

  /** A turn makes at most two attacks and none when a participant is
      already down, takes three or four draws per attack, keeps each
      participant's identity, snapshot and stake, never raises hit points,
      keeps the combo cap, and stops after one attack only on a knock-out. */
  lemma TurnFacts(p1: Participant, p2: Participant, s1: TurnSubmission, s2: TurnSubmission,
                  raw: nat -> int, cursor: nat)
    requires WellFormed(p1.character) && WellFormed(p2.character)
    ensures var t := TurnSpec(p1, p2, s1, s2, raw, cursor);
            && t.attacks <= 2
            && (t.attacks == 0 <==> p1.currentHp == 0 || p2.currentHp == 0)
            && (t.attacks == 0 ==> t.p1 == p1 && t.p2 == p2 && t.cursor == cursor)
            && cursor + 3 * t.attacks <= t.cursor <= cursor + 4 * t.attacks
            && SameEntrant(p1, t.p1) && SameEntrant(p2, t.p2)
            && (p1.comboStack <= 5 ==> t.p1.comboStack <= 5)
            && (p2.comboStack <= 5 ==> t.p2.comboStack <= 5)
            && (t.attacks == 1 ==> t.p1.currentHp == 0 || t.p2.currentHp == 0)
  {
    if p1.currentHp > 0 && p2.currentHp > 0 {
      ExchangeFacts(p1, p2, s1, s2.stance, raw, cursor);
      var x := ExchangeSpec(p1, p2, s1, s2.stance, raw, cursor);
      if x.defender.currentHp > 0 && x.attacker.currentHp > 0 {
        ExchangeFacts(x.defender, x.attacker, s2, s1.stance, raw, x.cursor);
      }
    }
  }

  /** Player 2 strikes back exactly when both survive player 1's attack. */
  lemma StrikeBackIffBothAlive(p1: Participant, p2: Participant, s1: TurnSubmission, s2: TurnSubmission,
                               raw: nat -> int, cursor: nat)
    requires WellFormed(p1.character) && WellFormed(p2.character)
    requires p1.currentHp > 0 && p2.currentHp > 0
    ensures var x := ExchangeSpec(p1, p2, s1, s2.stance, raw, cursor);
            TurnSpec(p1, p2, s1, s2, raw, cursor).attacks == 2 <==>
              x.attacker.currentHp > 0 && x.defender.currentHp > 0
  {
  }
}
