/** The fighter library of src/fighter_lib.rs: fighter progression, tier
    mapping and matchmaking, the alternating-turn strike of a free-play or
    staked battle, the combo tracker and the prediction pool.

    The library's structs are plain values that their owner (a map of the
    fighter contract) clones, mutates and stores back; each `&mut self`
    method is modelled as a method taking the old value and returning the
    new one. */
module FighterLib {
  import opened Common

  /** A fighter or tournament name as UTF-8 bytes (`len()` counts bytes). */
  type Name = seq<bv8>

  datatype Result<T> = Ok(value: T) | Err(message: string)

  datatype FighterTier = Bronze | Silver | Gold | Platinum | Diamond | Legendary

  datatype MatchmakingTier = Novice | Intermediate | Advanced | Expert | Master

  datatype Fighter = Fighter(
    owner: Owner,
    name: Name,
    level: nat,
    xp: nat,
    totalWins: nat,
    totalLosses: nat,
    totalDamageDealt: nat,
    totalDamageTaken: nat,
    currentStreak: nat,
    highestStreak: nat,
    maxHp: nat,
    baseAttack: nat,
    defense: nat,
    criticalChance: nat,
    criticalMultiplier: nat,
    nftTier: FighterTier,
    specialAbilities: seq<string>,
    visualTraits: seq<string>,
    createdAt: nat,
    lastBattle: Option<nat>)

  // ---------------------------------------------------------------------
  // Tiers

  function FighterTierFromLevel(level: nat): FighterTier
  {
    if 1 <= level <= 10 then Bronze
    else if 11 <= level <= 25 then Silver
    else if 26 <= level <= 50 then Gold
    else if 51 <= level <= 75 then Platinum
    else if 76 <= level <= 99 then Diamond
    else Legendary
  }

  function FighterTierIndex(t: FighterTier): nat
  {
    match t
    case Bronze => 0
    case Silver => 1
    case Gold => 2
    case Platinum => 3
    case Diamond => 4
    case Legendary => 5
  }

  /** From level 1 on, the NFT tier never falls as the level rises; level 0
      falls through to the catch-all arm and is Legendary. */
  lemma FighterTierMonotone(a: nat, b: nat)
    requires 1 <= a <= b
    ensures FighterTierIndex(FighterTierFromLevel(a)) <= FighterTierIndex(FighterTierFromLevel(b))
    ensures FighterTierFromLevel(0) == Legendary
  {
  }

  function MatchmakingTierFromLevel(level: nat): MatchmakingTier
  {
    if 1 <= level <= 10 then Novice
    else if 11 <= level <= 25 then Intermediate
    else if 26 <= level <= 50 then Advanced
    else if 51 <= level <= 100 then Expert
    else Master
  }

  /** The enum discriminant the source casts to `i32`. */
  function MatchmakingIndex(t: MatchmakingTier): int
  {
    match t
    case Novice => 0
    case Intermediate => 1
    case Advanced => 2
    case Expert => 3
    case Master => 4
  }

  /** Same or adjacent matchmaking tier. */
  function CanMatch(a: MatchmakingTier, b: MatchmakingTier): bool
  {
    var diff := MatchmakingIndex(a) - MatchmakingIndex(b);
    (if diff < 0 then -diff else diff) <= 1
  }

  /** `can_match` is reflexive and symmetric, and holds exactly when the tier
      indices differ by at most one. */
  lemma CanMatchFacts(a: MatchmakingTier, b: MatchmakingTier)
    ensures CanMatch(a, a)
    ensures CanMatch(a, b) == CanMatch(b, a)
    ensures CanMatch(a, b) <==> -1 <= MatchmakingIndex(a) - MatchmakingIndex(b) <= 1
  {
  }

  /** Fighters one level apart can always be matched, and from level 1 on
      the matchmaking tier never falls as the level rises. */
  lemma NeighbouringLevelsMatch(level: nat)
    requires level >= 1
    ensures CanMatch(MatchmakingTierFromLevel(level), MatchmakingTierFromLevel(level + 1))
    ensures MatchmakingIndex(MatchmakingTierFromLevel(level)) <= MatchmakingIndex(MatchmakingTierFromLevel(level + 1))
  {
  }

  /** A novice (levels 1 to 10) is never matched with an expert or above
      (levels 51 and up). */
  lemma NoviceNeverMeetsExpert(a: nat, b: nat)
    requires 1 <= a <= 10 && b >= 51
    ensures !CanMatch(MatchmakingTierFromLevel(a), MatchmakingTierFromLevel(b))
  {
  }

  // ---------------------------------------------------------------------
  // Fighter arithmetic

  /** A freshly registered fighter. */
  function NewFighter(owner: Owner, name: Name, createdAt: nat): (f: Fighter)
    ensures Progressed(f) && f.level == 1
    ensures f.owner == owner && f.name == name && f.createdAt == createdAt
    ensures f.xp == 0 && f.totalWins == 0 && f.totalLosses == 0 && f.currentStreak == 0 && f.highestStreak == 0
  {
    Fighter(owner, name, 1, 0, 0, 0, 0, 0, 0, 0, 100, 10, 5, 5, 150, Bronze, [], [], createdAt, None)
  }

  /** The damage range widens by three points per level. */
  function DamageRange(f: Fighter): (r: (nat, nat))
    ensures r.0 <= r.1 && r.1 - r.0 == 3 * f.level
    ensures r.0 == f.baseAttack + 2 * f.level
  {
    (f.baseAttack + f.level * 2, f.baseAttack + f.level * 5)
  }

  /** A fresh fighter's range is (12, 15). */
  lemma FreshDamageRange(owner: Owner, name: Name, createdAt: nat)
    ensures DamageRange(NewFighter(owner, name, createdAt)) == (12, 15)
  {
  }

  /** Defense is a percentage taken off the incoming damage. */
  function ApplyDefense(f: Fighter, incomingDamage: nat): (r: nat)
    ensures r <= incomingDamage
    ensures f.defense == 0 ==> r == incomingDamage
    ensures f.defense >= 100 ==> r == 0
  {
    var reduction := (incomingDamage * f.defense) / 100;
    PercentAtLeast(incomingDamage, f.defense);
    SaturatingSub(incomingDamage, reduction)
  }

  /** `p` percent of `x` is at least `x` when `p >= 100`. */
  lemma PercentAtLeast(x: nat, p: nat)
    ensures p >= 100 ==> (x * p) / 100 >= x
    ensures p == 100 ==> (x * p) / 100 == x
  {
    if p >= 100 {
      assert x * p >= x * 100;
    }
  }

  function IsCriticalHit(f: Fighter, randomValue: nat): bool
  {
    randomValue % 100 < f.criticalChance
  }

  /** A crit chance of 100 or more always crits, zero never does. */
  lemma CritChanceExtremes(f: Fighter, randomValue: nat)
    ensures f.criticalChance >= 100 ==> IsCriticalHit(f, randomValue)
    ensures f.criticalChance == 0 ==> !IsCriticalHit(f, randomValue)
  {
  }

  /** The critical multiplier is in percent (150 is x1.5). */
  function ApplyCritical(f: Fighter, baseDamage: nat): (r: nat)
    ensures f.criticalMultiplier >= 100 ==> r >= baseDamage
    ensures f.criticalMultiplier == 100 ==> r == baseDamage
    ensures r * 100 <= baseDamage * f.criticalMultiplier < r * 100 + 100
  {
    PercentAtLeast(baseDamage, f.criticalMultiplier);
    (baseDamage * f.criticalMultiplier) / 100
  }

  /** XP needed to level up from `level`: 100 * level^2. */
  function XpForNextLevel(level: nat): nat
  {
    100 * level * level
  }

  /** The threshold grows strictly with the level. */
  lemma XpThresholdGrows(a: nat, b: nat)
    requires a < b
    ensures XpForNextLevel(a) < XpForNextLevel(b)
  {
    assert a * a <= a * b;
    assert a * b < b * b;
  }

  /** The ability unlocked on reaching `level`, if any. */
  function Milestone(level: nat): seq<string>
  {
    if level == 10 then ["Power Strike"]
    else if level == 25 then ["Defensive Stance"]
    else if level == 50 then ["Berserker Mode"]
    else []
  }

  /** The fighter after `level_up`. */
  function LevelledUp(f: Fighter): Fighter
  {
    var level := f.level + 1;
    f.(level := level,
       maxHp := f.maxHp + 10,
       baseAttack := f.baseAttack + 3,
       defense := f.defense + 1,
       criticalChance := if level % 5 == 0 then Min(f.criticalChance + 2, 30) else f.criticalChance,
       nftTier := FighterTierFromLevel(level),
       specialAbilities := f.specialAbilities + Milestone(level))
  }

  /** Every ability unlocked up to `level`. */
  function AbilitiesAt(level: nat): seq<string>
  {
    (if level >= 10 then ["Power Strike"] else [])
    + (if level >= 25 then ["Defensive Stance"] else [])
    + (if level >= 50 then ["Berserker Mode"] else [])
  }

  /** What registration followed by level-ups alone makes of a fighter: its
      stats, crit chance, tier and abilities are determined by its level. */
  predicate Progressed(f: Fighter)
  {
    && f.level >= 1
    && f.maxHp == 90 + 10 * f.level
    && f.baseAttack == 7 + 3 * f.level
    && f.defense == 4 + f.level
    && f.criticalChance == Min(30, 5 + 2 * (f.level / 5))
    && f.criticalMultiplier == 150
    && f.nftTier == FighterTierFromLevel(f.level)
    && f.specialAbilities == AbilitiesAt(f.level)
  }

  /** `level_up` adds a level, 10 hit points, 3 attack and 1 defense, raises
      the crit chance by 2 (capped at 30) on every fifth level, recomputes
      the tier and unlocks the milestone abilities once each; it keeps a
      progressed fighter progressed. */
  lemma LevelUpKeepsProgress(f: Fighter)
    ensures var g := LevelledUp(f);
            && g.level == f.level + 1 && g.maxHp == f.maxHp + 10
            && g.baseAttack == f.baseAttack + 3 && g.defense == f.defense + 1
            && (f.criticalChance <= 30 ==> g.criticalChance <= 30)
            && g.criticalChance >= Min(f.criticalChance, 30)
            && g.nftTier == FighterTierFromLevel(g.level)
            && g.xp == f.xp && g.owner == f.owner
    ensures Progressed(f) ==> Progressed(LevelledUp(f))
  {
    var g := LevelledUp(f);
    if Progressed(f) {
      var l := f.level;
      assert AbilitiesAt(l + 1) == AbilitiesAt(l) + Milestone(l + 1);
      if (l + 1) % 5 == 0 {
        assert (l + 1) / 5 == l / 5 + 1;
      } else {
        assert (l + 1) / 5 == l / 5;
      }
    }
  }

  /** A progressed fighter's damage range and crit chance follow from its
      level alone, and the crit chance never exceeds 30. */
  lemma ProgressedStats(f: Fighter)
    requires Progressed(f)
    ensures DamageRange(f) == (7 + 5 * f.level, 7 + 8 * f.level)
    ensures f.criticalChance <= 30
  {
  }

  /** The fighter after `add_xp`. */
  function AfterXp(f: Fighter, xpGain: nat): Fighter
  {
    var g := f.(xp := f.xp + xpGain);
    if g.xp >= XpForNextLevel(g.level) then LevelledUp(g) else g
  }

  /** The fighter after `k` level-ups. */
  function Promote(f: Fighter, k: nat): Fighter
  {
    if k == 0 then f else LevelledUp(Promote(f, k - 1))
  }

  /** `k` level-ups add `k` levels, 10 hit points, 3 attack and 1 defense per
      level, keep the owner, the name and the XP, and keep a progressed
      fighter progressed. */
  lemma {:induction false} PromoteFacts(f: Fighter, k: nat)
    ensures var g := Promote(f, k);
            && g.level == f.level + k && g.maxHp == f.maxHp + 10 * k
            && g.baseAttack == f.baseAttack + 3 * k && g.defense == f.defense + k
            && g.owner == f.owner && g.name == f.name && g.xp == f.xp
    ensures Progressed(f) ==> Progressed(Promote(f, k))
  {
    if k > 0 {
      PromoteFacts(f, k - 1);
      LevelUpKeepsProgress(Promote(f, k - 1));
    }
  }

  /** `level_up`. */
  method LevelUp(f: Fighter) returns (g: Fighter)
    ensures g == LevelledUp(f)
  {
    g := f;
    g := g.(level := g.level + 1);
    g := g.(maxHp := g.maxHp + 10);
    g := g.(baseAttack := g.baseAttack + 3);
    g := g.(defense := g.defense + 1);
    if g.level % 5 == 0 {
      g := g.(criticalChance := Min(g.criticalChance + 2, 30));
    }
    g := g.(nftTier := FighterTierFromLevel(g.level));
    if g.level == 10 {
      g := g.(specialAbilities := g.specialAbilities + ["Power Strike"]);
    } else if g.level == 25 {
      g := g.(specialAbilities := g.specialAbilities + ["Defensive Stance"]);
    } else if g.level == 50 {
      g := g.(specialAbilities := g.specialAbilities + ["Berserker Mode"]);
    }
  }

  /** `add_xp`: the gain is added, and the fighter levels up (at most once)
      exactly when the new total reaches the threshold of its level. */
  method AddXp(f: Fighter, xpGain: nat) returns (g: Fighter, leveledUp: bool)
    ensures g == AfterXp(f, xpGain)
    ensures g.xp == f.xp + xpGain
    ensures leveledUp <==> f.xp + xpGain >= XpForNextLevel(f.level)
    ensures g.level == f.level + (if leveledUp then 1 else 0)
    ensures Progressed(f) ==> Progressed(g)
  {
    g := f.(xp := f.xp + xpGain);
    var requiredXp := XpForNextLevel(g.level);
    if g.xp >= requiredXp {
      g := LevelUp(g);
      leveledUp := true;
    } else {
      leveledUp := false;
    }
    LevelUpKeepsProgress(f.(xp := f.xp + xpGain));
  }

  /** A fresh fighter given 100 XP reaches level 2 with 110 hit points. */
  method FirstLevelUp(owner: Owner, name: Name, createdAt: nat) returns (f: Fighter, leveledUp: bool)
    ensures leveledUp && f.level == 2 && f.maxHp == 110 && f.xp == 100
  {
    f := NewFighter(owner, name, createdAt);
    f, leveledUp := AddXp(f, 100);
  }

  // ---------------------------------------------------------------------
  // Combo tracker

  datatype ComboTracker = ComboTracker(lastDamageRange: Option<nat>, comboCount: nat)

  const NewComboTracker := ComboTracker(None, 0)

  /** The tracker after a hit and the bonus percentage it earns. */
  datatype ComboStep = ComboStep(tracker: ComboTracker, bonus: Option<nat>)

  /** `check_combo` as a function of the tracker and the hit's damage. */
  function ComboNext(t: ComboTracker, damage: nat): ComboStep
  {
    var bucket := (damage / 10) * 10;
    if t.lastDamageRange == Some(bucket) then
      var count := t.comboCount + 1;
      ComboStep(ComboTracker(Some(bucket), count), Some(if count == 2 then 150 else 200))
    else
      ComboStep(ComboTracker(Some(bucket), 1), None)
  }

  /** A hit in the previous hit's ten-point bucket extends the combo and earns
      150% on the second hit and 200% after; any other hit restarts the
      combo at one and earns nothing. The bucket is always remembered. */
  lemma ComboFacts(t: ComboTracker, damage: nat)
    ensures var s := ComboNext(t, damage);
            && s.tracker.lastDamageRange == Some(damage - damage % 10)
            && (s.bonus.Some? <==> t.lastDamageRange == Some(damage - damage % 10))
            && (s.bonus.Some? ==> s.tracker.comboCount == t.comboCount + 1
                                  && s.bonus.value == (if t.comboCount == 1 then 150 else 200))
            && (s.bonus.None? ==> s.tracker.comboCount == 1)
            && s.tracker.comboCount >= 1
  {
  }

  /** The hits 45, 48, 42, 55 on a new tracker earn nothing, 150%, 200%,
      nothing. */
  lemma ComboSequence()
    ensures var s1 := ComboNext(NewComboTracker, 45);
            var s2 := ComboNext(s1.tracker, 48);
            var s3 := ComboNext(s2.tracker, 42);
            var s4 := ComboNext(s3.tracker, 55);
            s1.bonus == None && s2.bonus == Some(150) && s3.bonus == Some(200) && s4.bonus == None
  {
  }

  /** `check_combo`. */
  method CheckCombo(t: ComboTracker, damage: nat) returns (nt: ComboTracker, bonus: Option<nat>)
    ensures ComboStep(nt, bonus) == ComboNext(t, damage)
  {
    nt := t;
    var damageRange := (damage / 10) * 10;
    if nt.lastDamageRange.Some? {
      var lastRange := nt.lastDamageRange.value;
      if lastRange == damageRange {
        nt := nt.(comboCount := nt.comboCount + 1);
        var b := if nt.comboCount == 2 then 150 else 200;
        nt := nt.(lastDamageRange := Some(damageRange));
        return nt, Some(b);
      }
    }
    nt := nt.(comboCount := 1);
    nt := nt.(lastDamageRange := Some(damageRange));
    bonus := None;
  }

  // ---------------------------------------------------------------------
  // Prediction pool

  datatype Prediction = Prediction(predictor: Owner, predictedWinner: Owner, amount: nat, claimed: bool)

  datatype PredictionPool = PredictionPool(
    battleId: nat,
    predictions: map<Owner, Prediction>,
    totalPool: nat,
    fighter1Pool: nat,
    fighter2Pool: nat,
    isLocked: bool)

  function NewPredictionPool(battleId: nat): PredictionPool
  {
    PredictionPool(battleId, map[], 0, 0, 0, false)
  }

  /** The pool a prediction for `predictedWinner` was added to. */
  function SidePool(p: PredictionPool, predictedWinner: Owner, fighter1: Owner): nat
  {
    if predictedWinner == fighter1 then p.fighter1Pool else p.fighter2Pool
  }

  /** What the additions keep true of a pool: every amount fits a `u128`, is
      contained in its side's pool, and each side's pool in the total. */
  predicate PoolValid(p: PredictionPool, fighter1: Owner)
  {
    && p.totalPool <= AMOUNT_MAX
    && p.fighter1Pool <= p.totalPool
    && p.fighter2Pool <= p.totalPool
    && forall k :: k in p.predictions ==>
         p.predictions[k].amount <= SidePool(p, p.predictions[k].predictedWinner, fighter1)
  }

  /** `add_prediction`: nothing when locked; otherwise the predictor's entry
      is (re)placed, unclaimed, and the total and exactly one side pool grow
      by the amount, saturating. */
  method AddPrediction(p: PredictionPool, predictor: Owner, predictedWinner: Owner, amount: nat, fighter1: Owner)
    returns (q: PredictionPool)
    ensures p.isLocked ==> q == p
    ensures !p.isLocked ==>
              q == p.(predictions := p.predictions[predictor := Prediction(predictor, predictedWinner, amount, false)],
                      totalPool := SaturatingAdd(p.totalPool, amount, AMOUNT_MAX),
                      fighter1Pool := if predictedWinner == fighter1
                                      then SaturatingAdd(p.fighter1Pool, amount, AMOUNT_MAX) else p.fighter1Pool,
                      fighter2Pool := if predictedWinner == fighter1
                                      then p.fighter2Pool else SaturatingAdd(p.fighter2Pool, amount, AMOUNT_MAX))
    ensures PoolValid(p, fighter1) && amount <= AMOUNT_MAX ==> PoolValid(q, fighter1)
  {
    q := p;
    if q.isLocked {
      return;
    }
    q := q.(predictions := q.predictions[predictor := Prediction(predictor, predictedWinner, amount, false)]);
    q := q.(totalPool := SaturatingAdd(q.totalPool, amount, AMOUNT_MAX));
    if predictedWinner == fighter1 {
      q := q.(fighter1Pool := SaturatingAdd(q.fighter1Pool, amount, AMOUNT_MAX));
    } else {
      q := q.(fighter2Pool := SaturatingAdd(q.fighter2Pool, amount, AMOUNT_MAX));
    }
  }

  /** Multiplication saturating at the `u128` maximum. */
  function SaturatingMul(a: nat, b: nat): (r: nat)
    ensures r <= a * b && r <= AMOUNT_MAX
    ensures a * b <= AMOUNT_MAX ==> r == a * b
    ensures a * b > AMOUNT_MAX ==> r == AMOUNT_MAX
  {
    if a * b > AMOUNT_MAX then AMOUNT_MAX else a * b
  }

  /** The pool less the platform fee of `platformFee` percent, the fee being
      taken on the saturated product and the difference floored at zero. */
  function PoolAfterFee(p: PredictionPool, platformFee: nat): (r: nat)
    ensures r <= p.totalPool
    ensures var fee := Min(p.totalPool * platformFee, AMOUNT_MAX) / 100;
            && (fee <= p.totalPool ==> r + fee == p.totalPool)
            && (fee > p.totalPool ==> r == 0)
    ensures platformFee == 0 ==> r == p.totalPool
  {
    SaturatingSub(p.totalPool, SaturatingMul(p.totalPool, platformFee) / 100)
  }

  /** `calculate_winnings`: a pro-rata share of the pool after the fee, and
      zero unless the predictor has an unclaimed entry on the winner and the
      winning side's pool is not empty. */
  function CalculateWinnings(p: PredictionPool, predictor: Owner, winner: Owner, fighter1: Owner,
                             platformFee: nat): (w: nat)
    ensures w > 0 ==> && predictor in p.predictions
                      && p.predictions[predictor].predictedWinner == winner
                      && !p.predictions[predictor].claimed
                      && SidePool(p, winner, fighter1) > 0
  {
    if predictor in p.predictions then
      var prediction := p.predictions[predictor];
      if prediction.predictedWinner == winner && !prediction.claimed then
        var winningPool := if winner == fighter1 then p.fighter1Pool else p.fighter2Pool;
        if winningPool > 0 then
          var totalAfterFee := PoolAfterFee(p, platformFee);
          SaturatingMul(prediction.amount, totalAfterFee) / winningPool
        else 0
      else 0
    else 0
  }

  /** `x * y / d <= y` when `x <= d`. */
  lemma ShareBound(x: nat, y: nat, d: nat)
    requires 0 < d && x <= d
    ensures (x * y) / d <= y
  {
    assert x * y <= d * y;
    assert (d * y) / d == y;
    DivMonotone(x * y, d * y, d);
  }

  lemma DivMonotone(a: nat, b: nat, d: nat)
    requires 0 < d && a <= b
    ensures a / d <= b / d
  {
    var qa, qb := a / d, b / d;
    assert qa * d <= a;
    assert b < (qb + 1) * d;
    MulCancel(qa, qb + 1, d);
  }

  lemma MulCancel(x: nat, y: nat, d: nat)
    requires 0 < d && x * d < y * d
    ensures x < y
  {
  }

  /** In a valid pool no single claim exceeds the pool after the fee. */
  lemma WinningsBounded(p: PredictionPool, predictor: Owner, winner: Owner, fighter1: Owner, platformFee: nat)
    requires PoolValid(p, fighter1)
    ensures CalculateWinnings(p, predictor, winner, fighter1, platformFee) <= PoolAfterFee(p, platformFee)
  {
    if predictor in p.predictions {
      var prediction := p.predictions[predictor];
      var winningPool := if winner == fighter1 then p.fighter1Pool else p.fighter2Pool;
      if prediction.predictedWinner == winner && !prediction.claimed && winningPool > 0 {
        var taf := PoolAfterFee(p, platformFee);
        assert prediction.amount <= winningPool;
        ShareBound(prediction.amount, taf, winningPool);
        DivMonotone(SaturatingMul(prediction.amount, taf), prediction.amount * taf, winningPool);
      }
    }
  }

  // ---------------------------------------------------------------------
  // Battle

  datatype BattleType = FreePlay | Staked | Tournament | Ranked

  datatype BattleStatus = Active | Finished | Cancelled | TimedOut

  datatype ActionType = Strike | CriticalStrike | ComboBonus | SpecialAbility

  datatype BattleAction = BattleAction(turn: nat, attacker: Owner, actionType: ActionType, damage: nat, timestamp: nat)

  datatype Battle = Battle(
    battleId: nat,
    fighter1: Owner,
    fighter2: Owner,
    fighter1Hp: nat,
    fighter2Hp: nat,
    fighter1MaxHp: nat,
    fighter2MaxHp: nat,
    currentTurn: Owner,
    turnNumber: nat,
    stakeAmount: nat,
    isFreePlay: bool,
    battleType: BattleType,
    status: BattleStatus,
    winner: Option<Owner>,
    comboTracker: ComboTracker,
    battleLog: seq<BattleAction>,
    startedAt: nat,
    lastActionAt: nat,
    predictionPool: PredictionPool)

  /** What every battle keeps true: the turn belongs to one of its fighters,
      hit points stay within their maxima, an active battle has no winner,
      a finished one is won by one of its fighters, and its pool is valid. */
  predicate BattleValid(b: Battle)
  {
    && (b.currentTurn == b.fighter1 || b.currentTurn == b.fighter2)
    && b.fighter1Hp <= b.fighter1MaxHp && b.fighter2Hp <= b.fighter2MaxHp
    && (b.status == Active ==> b.winner == None)
    && (b.status.Finished? ==> b.winner == Some(b.fighter1) || b.winner == Some(b.fighter2))
    && PoolValid(b.predictionPool, b.fighter1)
  }

  /** `Battle::new`: both fighters at full health, the initiator to strike
      first, free play exactly when nothing is staked. */
  function NewBattle(battleId: nat, f1: Fighter, f2: Fighter, stakeAmount: nat, startedAt: nat): (b: Battle)
    ensures BattleValid(b) && b.status == Active && b.turnNumber == 1
    ensures b.fighter1 == f1.owner && b.fighter2 == f2.owner && b.currentTurn == f1.owner
    ensures b.fighter1Hp == f1.maxHp && b.fighter2Hp == f2.maxHp
    ensures b.isFreePlay <==> stakeAmount == 0
    ensures b.battleType == (if stakeAmount == 0 then FreePlay else Staked)
    ensures b.battleLog == [] && b.predictionPool.totalPool == 0 && b.lastActionAt == startedAt
  {
    Battle(battleId, f1.owner, f2.owner, f1.maxHp, f2.maxHp, f1.maxHp, f2.maxHp, f1.owner, 1, stakeAmount,
           stakeAmount == 0, if stakeAmount == 0 then FreePlay else Staked, Active, None, NewComboTracker, [],
           startedAt, startedAt, NewPredictionPool(battleId))
  }

  /** The base damage of a strike: the low end of the range plus the seed
      modulo the range's width, so it never reaches the high end. */
  function BaseDamage(f: Fighter, randomSeed: nat): (d: nat)
    requires f.level >= 1
    ensures DamageRange(f).0 <= d < DamageRange(f).1
  {
    var (minDmg, maxDmg) := DamageRange(f);
    minDmg + randomSeed % (maxDmg - minDmg)
  }

  /** The strike's damage before the defender's defense: the base, the crit
      multiplier on a crit, and the combo bonus when one is earned. */
  function StrikePower(f: Fighter, randomSeed: nat, comboBonus: Option<nat>): nat
    requires f.level >= 1
  {
    var base := BaseDamage(f, randomSeed);
    var power := if IsCriticalHit(f, randomSeed) then ApplyCritical(f, base) else base;
    if comboBonus.Some? then (power * comboBonus.value) / 100 else power
  }

  /** The battle log entries of a strike before its Strike entry: one for a
      crit and one for a combo bonus. */
  function PowerLog(f: Fighter, randomSeed: nat, comboBonus: Option<nat>, turn: nat, attacker: Owner,
                    timestamp: nat): seq<BattleAction>
    requires f.level >= 1
  {
    (if IsCriticalHit(f, randomSeed)
     then [BattleAction(turn, attacker, CriticalStrike, ApplyCritical(f, BaseDamage(f, randomSeed)), timestamp)]
     else [])
    + (if comboBonus.Some?
       then [BattleAction(turn, attacker, ComboBonus, StrikePower(f, randomSeed, comboBonus), timestamp)]
       else [])
  }

  /** The first half of a strike: the crit multiplier and the combo bonus,
      each logged when it applies; returns the damage before defense. */
  method PowerUp(b: Battle, attacker: Owner, attackerFighter: Fighter, randomSeed: nat, timestamp: nat)
    returns (nb: Battle, finalDamage: nat)
    requires attackerFighter.level >= 1
    ensures var step := ComboNext(b.comboTracker, BaseDamage(attackerFighter, randomSeed));
            && finalDamage == StrikePower(attackerFighter, randomSeed, step.bonus)
            && nb == b.(comboTracker := step.tracker,
                        battleLog := b.battleLog + PowerLog(attackerFighter, randomSeed, step.bonus, b.turnNumber,
                                                            attacker, timestamp))
  {
    nb := b;
    var (minDmg, maxDmg) := DamageRange(attackerFighter);
    var damageRange := maxDmg - minDmg;
    var baseDamage := minDmg + randomSeed % damageRange;
    if IsCriticalHit(attackerFighter, randomSeed) {
      var critDamage := ApplyCritical(attackerFighter, baseDamage);
      nb := nb.(battleLog := nb.battleLog + [BattleAction(nb.turnNumber, attacker, CriticalStrike, critDamage, timestamp)]);
      finalDamage := critDamage;
    } else {
      finalDamage := baseDamage;
    }
    var tracker, comboBonus := CheckCombo(nb.comboTracker, baseDamage);
    nb := nb.(comboTracker := tracker);
    if comboBonus.Some? {
      finalDamage := (finalDamage * comboBonus.value) / 100;
      nb := nb.(battleLog := nb.battleLog + [BattleAction(nb.turnNumber, attacker, ComboBonus, finalDamage, timestamp)]);
    }
  }

  /** `Battle::execute_strike`. The attacker's level must be at least one:
      at level zero the damage range is empty and the source divides by
      zero. */
  method ExecuteStrike(b: Battle, attacker: Owner, attackerFighter: Fighter, defenderFighter: Fighter,
                       randomSeed: nat, timestamp: nat)
    returns (nb: Battle, r: Result<nat>)
    requires attackerFighter.level >= 1
    ensures r.Err? <==> b.status != Active || b.currentTurn != attacker
    ensures r.Err? ==> nb == b
    ensures r.Ok? ==>
              var step := ComboNext(b.comboTracker, BaseDamage(attackerFighter, randomSeed));
              && r.value == ApplyDefense(defenderFighter, StrikePower(attackerFighter, randomSeed, step.bonus))
              && nb.comboTracker == step.tracker
              && nb.battleLog == b.battleLog + PowerLog(attackerFighter, randomSeed, step.bonus, b.turnNumber,
                                                        attacker, timestamp)
                                 + [BattleAction(b.turnNumber, attacker, Strike, r.value, timestamp)]
    ensures r.Ok? && attacker == b.fighter1 ==>
              nb.fighter2Hp == SaturatingSub(b.fighter2Hp, r.value) && nb.fighter1Hp == b.fighter1Hp
    ensures r.Ok? && attacker != b.fighter1 ==>
              nb.fighter1Hp == SaturatingSub(b.fighter1Hp, r.value) && nb.fighter2Hp == b.fighter2Hp
    ensures r.Ok? ==> (nb.status.Finished? <==> nb.fighter1Hp == 0 || nb.fighter2Hp == 0)
    ensures r.Ok? && nb.fighter1Hp == 0 ==> nb.winner == Some(b.fighter2)
    ensures r.Ok? && nb.fighter1Hp > 0 && nb.fighter2Hp == 0 ==> nb.winner == Some(b.fighter1)
    ensures r.Ok? && nb.status.Finished? ==> nb.currentTurn == b.currentTurn && nb.turnNumber == b.turnNumber
    ensures r.Ok? && !nb.status.Finished? ==>
              && nb.status == Active && nb.winner == b.winner && nb.turnNumber == b.turnNumber + 1
              && nb.currentTurn == (if b.currentTurn == b.fighter1 then b.fighter2 else b.fighter1)
    ensures r.Ok? ==>
              nb == b.(fighter1Hp := nb.fighter1Hp, fighter2Hp := nb.fighter2Hp, currentTurn := nb.currentTurn,
                       turnNumber := nb.turnNumber, status := nb.status, winner := nb.winner,
                       comboTracker := nb.comboTracker, battleLog := nb.battleLog, lastActionAt := timestamp)
    ensures BattleValid(b) ==> BattleValid(nb)
  {
    nb := b;
    if nb.status != Active {
      return nb, Err("Battle is not active");
    }
    if nb.currentTurn != attacker {
      return nb, Err("Not attacker's turn");
    }
    var finalDamage;
    nb, finalDamage := PowerUp(nb, attacker, attackerFighter, randomSeed, timestamp);
    var effectiveDamage := ApplyDefense(defenderFighter, finalDamage);
    if attacker == nb.fighter1 {
      nb := nb.(fighter2Hp := SaturatingSub(nb.fighter2Hp, effectiveDamage));
    } else {
      nb := nb.(fighter1Hp := SaturatingSub(nb.fighter1Hp, effectiveDamage));
    }
    nb := nb.(battleLog := nb.battleLog + [BattleAction(nb.turnNumber, attacker, Strike, effectiveDamage, timestamp)]);
    if nb.fighter1Hp == 0 {
      nb := nb.(status := BattleStatus.Finished, winner := Some(nb.fighter2));
    } else if nb.fighter2Hp == 0 {
      nb := nb.(status := BattleStatus.Finished, winner := Some(nb.fighter1));
    } else {
      nb := nb.(currentTurn := if nb.currentTurn == nb.fighter1 then nb.fighter2 else nb.fighter1,
                turnNumber := nb.turnNumber + 1);
    }
    nb := nb.(lastActionAt := timestamp);
    r := Ok(effectiveDamage);
  }

  // ---------------------------------------------------------------------
  // Tournaments and outcomes

  datatype TournamentStatus = Registration | InProgress | Finished | Cancelled

  datatype TournamentBracket = TournamentBracket(round: nat, matches: seq<nat>)

  datatype Tournament = Tournament(
    tournamentId: nat,
    name: Name,
    entryFee: nat,
    prizePool: nat,
    startTime: nat,
    maxParticipants: nat,
    participants: seq<Owner>,
    brackets: seq<TournamentBracket>,
    status: TournamentStatus,
    winner: Option<Owner>,
    prizeDistribution: seq<nat>)

  datatype FighterOutcome =
    | Success
    | BattleStarted(battleId: nat)
    | StrikeExecuted(damage: nat, strikeWinner: Option<Owner>)
    | FighterRegistered(fighter: Fighter)
    | LevelUpOutcome(newLevel: nat)
    | TournamentCreated(tournamentId: nat)
    | Error(message: string)
}
