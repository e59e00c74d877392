/** The damage-resolution pipeline of src/battle_contract.rs: one attacker's hit
    on one defender, in fixed point with six decimal digits. */
module Damage {
  import opened Common
  import opened Draws
  import opened BattleTypes

  /** One unit in fixed point (`FP_SCALE`). */
  const FP_SCALE: nat := 1_000_000

  /** Fixed-point product, truncated (`mul_fp`). */
  function MulFp(a: nat, b: nat): nat
  {
    (a * b) / FP_SCALE
  }

  /** The truncation loses less than one unit. */
  lemma MulFpBounds(a: nat, b: nat)
    ensures MulFp(a, b) * FP_SCALE <= a * b < MulFp(a, b) * FP_SCALE + FP_SCALE
  {
  }

  lemma MulFpByUnit(a: nat)
    ensures MulFp(a, FP_SCALE) == a
  {
  }

  /** A factor of at most one unit never increases a fixed-point value. */
  lemma MulFpAtMostUnit(a: nat, b: nat)
    requires b <= FP_SCALE
    ensures MulFp(a, b) <= a
  {
    assert a * b <= a * FP_SCALE by {
      MulMonotone(a, b, FP_SCALE);
    }
  }

  lemma MulMonotone(a: nat, b: nat, c: nat)
    requires b <= c
    ensures a * b <= a * c
  {
  }

  lemma NonNegProduct(a: nat, b: int)
    requires b >= 0
    ensures a * b >= 0
  {
  }

  /** Step 2: the attacker's signed attack trait, `1 + attack_bps / 10000`. */
  function AttackTrait(damage: nat, attackBps: int): nat
    requires attackBps >= -10000
  {
    if attackBps == 0 then damage
    else
      var attackMod := FP_SCALE + (attackBps * FP_SCALE) / 10000;
      NonNegProduct(damage, attackMod);
      (damage * attackMod) / FP_SCALE
  }

  /** Step 3: the attacker's stance multiplier. */
  function AttackerStance(damage: nat, stance: Stance): nat
  {
    match stance
    case Balanced => damage
    case Aggressive => MulFp(damage, 13 * FP_SCALE / 10)
    case Defensive => MulFp(damage, 7 * FP_SCALE / 10)
    case Berserker => MulFp(damage, 2 * FP_SCALE)
    case Counter => MulFp(damage, 9 * FP_SCALE / 10)
  }

  /** Step 4: the combo bonus, `1 + combo_stack / 20`. */
  function ComboBonus(damage: nat, comboStack: nat): nat
  {
    if comboStack > 0 then MulFp(damage, FP_SCALE + comboStack * FP_SCALE / 20) else damage
  }

  /** Step 5: the crit multiplier (basis points over 10000). */
  function CritBonus(damage: nat, critMultiplier: nat, wasCrit: bool): nat
  {
    if wasCrit then MulFp(damage, critMultiplier * FP_SCALE / 10000) else damage
  }

  /** Step 6: the special ability, x1.5. */
  function SpecialBonus(damage: nat, specialUsed: bool): nat
  {
    if specialUsed then MulFp(damage, 15 * FP_SCALE / 10) else damage
  }

  /** Step 8: flat defense in percent; 100 or more leaves exactly one unit. */
  function DefenseReduction(damage: nat, defense: nat): nat
  {
    var reduction := defense * FP_SCALE / 100;
    if reduction < FP_SCALE then MulFp(damage, FP_SCALE - reduction) else FP_SCALE
  }

  /** Step 9: the defender's stance multiplier. */
  function DefenderStance(damage: nat, stance: Stance): nat
  {
    match stance
    case Balanced => damage
    case Aggressive => MulFp(damage, 15 * FP_SCALE / 10)
    case Defensive => MulFp(damage, 5 * FP_SCALE / 10)
    case Berserker => damage
    case Counter => MulFp(damage, 6 * FP_SCALE / 10)
  }

  /** Step 10: the defender's signed defense trait, `1 - defense_bps / 10000`,
      clamped to one unit when that factor is not positive. */
  function DefenseTrait(damage: nat, defenseBps: int): nat
  {
    if defenseBps == 0 then damage
    else
      var defMod := FP_SCALE - (defenseBps * FP_SCALE) / 10000;
      if defMod > 0 then
        NonNegProduct(damage, defMod);
        (damage * defMod) / FP_SCALE
      else FP_SCALE
  }

  /** Step 11: truncate to whole hit points, at least one. */
  function WholeDamage(damage: nat): nat
  {
    Max(damage / FP_SCALE, 1)
  }

  /** Whether a crit roll in [0, 9999] is a crit for this attacker. */
  predicate IsCrit(attacker: CharacterSnapshot, critRoll: int)
  {
    critRoll < CritThreshold(attacker)
  }

  /** Steps 1 to 6: the attacker's damage in fixed point before the dodge. */
  function Offense(attacker: CharacterSnapshot, comboStack: nat, stance: Stance, specialUsed: bool,
                   base: nat, wasCrit: bool): nat
    requires attacker.attackBps >= -10000
  {
    var d := AttackTrait(base * FP_SCALE, attacker.attackBps);
    var d := AttackerStance(d, stance);
    var d := ComboBonus(d, comboStack);
    var d := CritBonus(d, attacker.critMultiplier, wasCrit);
    SpecialBonus(d, specialUsed)
  }

  /** Steps 8 to 10: what the defender's armour makes of a hit that landed. */
  function Mitigation(defender: CharacterSnapshot, stance: Stance, damage: nat): nat
  {
    DefenseTrait(DefenderStance(DefenseReduction(damage, defender.defense), stance), defender.defenseBps)
  }

  datatype DamageOutcome = DamageOutcome(damage: nat, wasCrit: bool, wasDodged: bool)

  /** The pipeline for given values of the three draws: the base damage, the
      crit roll and the dodge roll. */
  function DamageSpec(attacker: CharacterSnapshot, comboStack: nat, defender: CharacterSnapshot,
                      attackerStance: Stance, defenderStance: Stance, specialUsed: bool,
                      base: nat, critRoll: int, dodgeRoll: int): (r: DamageOutcome)
    requires attacker.attackBps >= -10000
    ensures r.wasCrit <==> IsCrit(attacker, critRoll)
    ensures r.wasDodged <==> dodgeRoll < defender.dodgeChance
    ensures r.wasDodged ==> r.damage == 0
    ensures !r.wasDodged ==> r.damage >= 1
  {
    var wasCrit := IsCrit(attacker, critRoll);
    var offense := Offense(attacker, comboStack, attackerStance, specialUsed, base, wasCrit);
    if dodgeRoll < defender.dodgeChance then DamageOutcome(0, wasCrit, true)
    else DamageOutcome(WholeDamage(Mitigation(defender, defenderStance, offense)), wasCrit, false)
  }

  /** `calculate_damage`: draws the base damage, the crit roll and the dodge
      roll, in that order, and rewrites one fixed-point value stage by stage;
      a dodge skips the defense stages. */
  method CalculateDamage(attacker: Participant, defender: Participant, attackerStance: Stance,
                         defenderStance: Stance, specialUsed: bool, rng: DrawSource)
    returns (r: DamageOutcome)
    requires WellFormed(attacker.character)
    modifies rng
    ensures rng.cursor == old(rng.cursor) + 3
    ensures r == DamageSpec(attacker.character, attacker.comboStack, defender.character,
                            attackerStance, defenderStance, specialUsed,
                            Pick(rng.raw(old(rng.cursor)), attacker.character.minDamage, attacker.character.maxDamage),
                            Pick(rng.raw(old(rng.cursor) + 1), 0, 9999),
                            Pick(rng.raw(old(rng.cursor) + 2), 0, 9999))
  {
    var ch := attacker.character;
    var baseDamage := rng.Value(ch.minDamage, ch.maxDamage);
    var damage := AttackTrait(baseDamage * FP_SCALE, ch.attackBps);
    damage := AttackerStance(damage, attackerStance);
    damage := ComboBonus(damage, attacker.comboStack);

    var critRoll := rng.Value(0, 9999);
    var wasCrit := critRoll < CritThreshold(ch);
    damage := CritBonus(damage, ch.critMultiplier, wasCrit);
    damage := SpecialBonus(damage, specialUsed);

    var dodgeRoll := rng.Value(0, 9999);
    if dodgeRoll < defender.character.dodgeChance {
      return DamageOutcome(0, wasCrit, true);
    }

    damage := DefenseReduction(damage, defender.character.defense);
    damage := DefenderStance(damage, defenderStance);
    damage := DefenseTrait(damage, defender.character.defenseBps);
    r := DamageOutcome(WholeDamage(damage), wasCrit, false);
  }

  /** A dodged hit deals nothing and skips the whole defense part: the result
      is fixed by the crit roll alone, whatever the defender's armour. */
  lemma DodgeIgnoresArmour(attacker: CharacterSnapshot, comboStack: nat, defender: CharacterSnapshot,
                           otherDefender: CharacterSnapshot,
                           attackerStance: Stance, defenderStance: Stance, otherStance: Stance,
                           specialUsed: bool, base: nat, critRoll: int, dodgeRoll: int)
    requires attacker.attackBps >= -10000
    requires dodgeRoll < defender.dodgeChance && dodgeRoll < otherDefender.dodgeChance
    ensures DamageSpec(attacker, comboStack, defender, attackerStance, defenderStance, specialUsed, base, critRoll, dodgeRoll)
         == DamageOutcome(0, IsCrit(attacker, critRoll), true)
         == DamageSpec(attacker, comboStack, otherDefender, attackerStance, otherStance, specialUsed, base, critRoll, dodgeRoll)
  {
  }

  /** A defense of 100 or more replaces the hit by exactly one unit. */
  lemma FullDefenseLeavesOneUnit(damage: nat, defense: nat)
    requires defense >= 100
    ensures DefenseReduction(damage, defense) == FP_SCALE
  {
  }

  /** A defense trait of 10000 basis points or more makes its factor
      non-positive: the hit is clamped to one unit, i.e. one hit point. */
  lemma FullDefenseTraitDealsOne(defender: CharacterSnapshot, stance: Stance, damage: nat)
    requires defender.defenseBps >= 10000
    ensures Mitigation(defender, stance, damage) == FP_SCALE
    ensures WholeDamage(Mitigation(defender, stance, damage)) == 1
  {
  }

  /** A defense trait that is not negative never increases a hit. */
  lemma DefenseTraitNoIncrease(damage: nat, defenseBps: int)
    requires defenseBps >= 0
    ensures DefenseTrait(damage, defenseBps) <= Max(damage, FP_SCALE)
  {
    if defenseBps != 0 {
      var defMod := FP_SCALE - (defenseBps * FP_SCALE) / 10000;
      if defMod > 0 {
        MulFpAtMostUnit(damage, defMod);
      }
    }
  }

  /** The defender's stance at most multiplies a hit by 1.5. */
  lemma DefenderStanceBound(damage: nat, stance: Stance)
    ensures 2 * DefenderStance(damage, stance) <= 3 * damage
  {
    match stance {
      case Balanced =>
      case Aggressive =>
        MulFpBounds(damage, 1_500_000);
      case Defensive =>
        MulFpAtMostUnit(damage, 500_000);
      case Berserker =>
      case Counter =>
        MulFpAtMostUnit(damage, 600_000);
    }
  }

  /** Against a defense of 100 or more and a defense trait that is not
      negative, every hit that is not dodged deals exactly one hit point,
      whatever the attacker does. */
  lemma HeavyArmourDealsOne(attacker: CharacterSnapshot, comboStack: nat, defender: CharacterSnapshot,
                            attackerStance: Stance, defenderStance: Stance, specialUsed: bool,
                            base: nat, critRoll: int, dodgeRoll: int)
    requires attacker.attackBps >= -10000
    requires defender.defense >= 100 && defender.defenseBps >= 0
    requires dodgeRoll >= defender.dodgeChance
    ensures DamageSpec(attacker, comboStack, defender, attackerStance, defenderStance, specialUsed,
                       base, critRoll, dodgeRoll).damage == 1
  {
    var offense := Offense(attacker, comboStack, attackerStance, specialUsed, base, IsCrit(attacker, critRoll));
    FullDefenseLeavesOneUnit(offense, defender.defense);
    var staged := DefenderStance(FP_SCALE, defenderStance);
    DefenderStanceBound(FP_SCALE, defenderStance);
    DefenseTraitNoIncrease(staged, defender.defenseBps);
    var m := Mitigation(defender, defenderStance, offense);
    assert m == DefenseTrait(staged, defender.defenseBps);
    assert m < 2 * FP_SCALE;
  }

  /** A plain hit: no traits, no combo, no crit, no special, no armour, both
      Balanced. The fixed-point pipeline returns the base damage exactly. */
  lemma PlainHitIsBaseDamage(attacker: CharacterSnapshot, defender: CharacterSnapshot,
                             base: nat, critRoll: int, dodgeRoll: int)
    requires attacker.attackBps == 0 && defender.defenseBps == 0 && defender.defense == 0
    requires !IsCrit(attacker, critRoll) && dodgeRoll >= defender.dodgeChance
    requires base >= 1
    ensures DamageSpec(attacker, 0, defender, Balanced, Balanced, false, base, critRoll, dodgeRoll)
         == DamageOutcome(base, false, false)
  {
    MulFpByUnit(base * FP_SCALE);
    assert DefenseReduction(base * FP_SCALE, 0) == base * FP_SCALE;
    assert (base * FP_SCALE) / FP_SCALE == base;
  }

  /** The scenario of a base draw of 10 with a non-crit, non-dodge roll,
      Balanced against Balanced, against no defense: the hit deals 10. */
  lemma ScenarioTenDamage()
    ensures
      var a := CharacterSnapshot("a", Warrior, 1, 100, 8, 15, 1500, 15000, 0, 0, 0, 0, 0);
      var b := CharacterSnapshot("b", Tank, 1, 100, 8, 15, 1500, 15000, 0, 0, 0, 0, 0);
      DamageSpec(a, 0, b, Balanced, Balanced, false, 10, 5000, 5000) == DamageOutcome(10, false, false)
  {
    var a := CharacterSnapshot("a", Warrior, 1, 100, 8, 15, 1500, 15000, 0, 0, 0, 0, 0);
    var b := CharacterSnapshot("b", Tank, 1, 100, 8, 15, 1500, 15000, 0, 0, 0, 0, 0);
    PlainHitIsBaseDamage(a, b, 10, 5000, 5000);
  }
}
