/** What `finalize_battle` of src/battle_contract.rs computes when a session
    ends: the split of the stakes and the per-side combat statistics. */
module Settlement {
  import opened Common
  import opened BattleTypes

  datatype Payout = Payout(totalStake: nat, platformFee: nat, winnerPayout: nat)

  /** The stakes are added with saturation, the platform takes `feeBps`
      basis points of the total, and the winner receives the rest. */
  function SettlePayout(stake1: nat, stake2: nat, feeBps: nat): (p: Payout)
    ensures p.totalStake == SaturatingAdd(stake1, stake2, AMOUNT_MAX)
    ensures p.platformFee * 10000 <= p.totalStake * feeBps < p.platformFee * 10000 + 10000
    ensures p.winnerPayout <= p.totalStake
    ensures feeBps <= 10000 ==> p.winnerPayout + p.platformFee == p.totalStake
    ensures feeBps >= 10000 ==> p.winnerPayout == 0
    ensures feeBps == 0 ==> p.winnerPayout == p.totalStake
  {
    var total := SaturatingAdd(stake1, stake2, AMOUNT_MAX);
    var fee := (total * feeBps) / 10000;
    FeeBounds(total, feeBps);
    Payout(total, fee, SaturatingSub(total, fee))
  }

  lemma FeeBounds(total: nat, feeBps: nat)
    ensures feeBps <= 10000 ==> (total * feeBps) / 10000 <= total
    ensures feeBps >= 10000 ==> (total * feeBps) / 10000 >= total
  {
    if feeBps <= 10000 {
      assert total * feeBps <= total * 10000;
    } else {
      assert total * feeBps >= total * 10000;
    }
  }

  /** Every action of the session in the order the statistics visit them:
      round by round, player 1's actions before player 2's. */
  function Actions(rounds: seq<RoundResult>): seq<CombatAction>
  {
    if rounds == [] then []
    else
      var last := rounds[|rounds| - 1];
      Actions(rounds[..|rounds| - 1]) + last.player1Actions + last.player2Actions
  }

  /** The winner's and the loser's statistics. */
  datatype StatsPair = StatsPair(winner: CombatStats, loser: CombatStats)

  /** What one action adds to the attacking and the defending side. */
  function Credit(acc: StatsPair, a: CombatAction, winner: Owner): StatsPair
  {
    var att := if a.attacker == winner then acc.winner else acc.loser;
    var def := if a.attacker == winner then acc.loser else acc.winner;
    var att := if !a.wasDodged then att.(damageDealt := att.damageDealt + a.damage) else att;
    var def := if !a.wasDodged then def.(damageTaken := def.damageTaken + a.damage) else def;
    var att := if a.wasCrit then att.(crits := att.crits + 1, highestCrit := Max(a.damage, att.highestCrit)) else att;
    var def := if a.wasDodged then def.(dodges := def.dodges + 1) else def;
    if a.attacker == winner then StatsPair(att, def) else StatsPair(def, att)
  }

  /** Damage of the actions that landed. */
  function Landed(actions: seq<CombatAction>): nat
  {
    if actions == [] then 0
    else Landed(actions[..|actions| - 1]) + (if actions[|actions| - 1].wasDodged then 0 else actions[|actions| - 1].damage)
  }

  function CountCrits(actions: seq<CombatAction>): nat
  {
    if actions == [] then 0
    else CountCrits(actions[..|actions| - 1]) + (if actions[|actions| - 1].wasCrit then 1 else 0)
  }

  function CountDodges(actions: seq<CombatAction>): nat
  {
    if actions == [] then 0
    else CountDodges(actions[..|actions| - 1]) + (if actions[|actions| - 1].wasDodged then 1 else 0)
  }

  /** The statistics of a sequence of actions, credited left to right.
      Whatever one side deals the other takes; the two sides together deal
      the landed damage, score every crit and record every dodge. */
  function StatsOf(actions: seq<CombatAction>, winner: Owner): (s: StatsPair)
    ensures s.winner.damageDealt == s.loser.damageTaken
    ensures s.loser.damageDealt == s.winner.damageTaken
    ensures s.winner.damageDealt + s.loser.damageDealt == Landed(actions)
    ensures s.winner.crits + s.loser.crits == CountCrits(actions)
    ensures s.winner.dodges + s.loser.dodges == CountDodges(actions)
  {
    if actions == [] then StatsPair(ZeroStats, ZeroStats)
    else Credit(StatsOf(actions[..|actions| - 1], winner), actions[|actions| - 1], winner)
  }

  lemma StatsOfSnoc(actions: seq<CombatAction>, a: CombatAction, winner: Owner)
    ensures StatsOf(actions + [a], winner) == Credit(StatsOf(actions, winner), a, winner)
  {
    assert (actions + [a])[..|actions|] == actions;
  }

  lemma ActionsSnoc(rounds: seq<RoundResult>, i: nat)
    requires i < |rounds|
    ensures Actions(rounds[..i + 1]) == Actions(rounds[..i]) + rounds[i].player1Actions + rounds[i].player2Actions
  {
    assert rounds[..i + 1][..i] == rounds[..i];
  }

  lemma PrefixSnoc<T>(before: seq<T>, xs: seq<T>, j: nat)
    requires j < |xs|
    ensures before + xs[..j + 1] == before + xs[..j] + [xs[j]]
  {
    assert xs[..j + 1] == xs[..j] + [xs[j]];
  }

  /** Rounds in which nothing was recorded: `execute_3_rounds` stores every
      round result with empty action lists. */
  predicate NoActionsRecorded(rounds: seq<RoundResult>)
  {
    forall i :: 0 <= i < |rounds| ==> rounds[i].player1Actions == [] && rounds[i].player2Actions == []
  }

  lemma {:induction false} NoActionsMeansNone(rounds: seq<RoundResult>)
    requires NoActionsRecorded(rounds)
    ensures Actions(rounds) == []
  {
    if rounds != [] {
      NoActionsMeansNone(rounds[..|rounds| - 1]);
    }
  }

  /** With no recorded actions both sides' statistics are all zero, whoever
      is named winner. */
  lemma StatsOfSilentRounds(rounds: seq<RoundResult>, winner: Owner)
    requires NoActionsRecorded(rounds)
    ensures StatsOf(Actions(rounds), winner) == StatsPair(ZeroStats, ZeroStats)
  {
    NoActionsMeansNone(rounds);
  }

  /** The body of the innermost loop of `calculate_combat_stats`: credit one
      action to the attacking and the defending side. */
  method CreditAction(w0: CombatStats, l0: CombatStats, action: CombatAction, winner: Owner)
    returns (w: CombatStats, l: CombatStats)
    ensures StatsPair(w, l) == Credit(StatsPair(w0, l0), action, winner)
  {
    w, l := w0, l0;
    var attackerIsWinner := action.attacker == winner;
    var att := if attackerIsWinner then w else l;
    var def := if attackerIsWinner then l else w;
    if !action.wasDodged {
      att := att.(damageDealt := att.damageDealt + action.damage);
      def := def.(damageTaken := def.damageTaken + action.damage);
    }
    if action.wasCrit {
      att := att.(crits := att.crits + 1);
      if action.damage > att.highestCrit {
        att := att.(highestCrit := action.damage);
      }
    }
    if action.wasDodged {
      def := def.(dodges := def.dodges + 1);
    }
    if attackerIsWinner {
      w, l := att, def;
    } else {
      w, l := def, att;
    }
  }

  /** `calculate_combat_stats`: three nested loops over the rounds, the two
      players' action lists and the actions. */
  method CalculateCombatStats(rounds: seq<RoundResult>, winner: Owner) returns (w: CombatStats, l: CombatStats)
    ensures StatsPair(w, l) == StatsOf(Actions(rounds), winner)
    ensures w.damageDealt == l.damageTaken && l.damageDealt == w.damageTaken
  {
    w := ZeroStats;
    l := ZeroStats;
    for i := 0 to |rounds|
      invariant StatsPair(w, l) == StatsOf(Actions(rounds[..i]), winner)
    {
      var round := rounds[i];
      var lists := [round.player1Actions, round.player2Actions];
      ghost var done := Actions(rounds[..i]);
      for k := 0 to 2
        invariant k == 0 ==> StatsPair(w, l) == StatsOf(done, winner)
        invariant k == 1 ==> StatsPair(w, l) == StatsOf(done + lists[0], winner)
        invariant k == 2 ==> StatsPair(w, l) == StatsOf(done + lists[0] + lists[1], winner)
      {
        var actions := lists[k];
        ghost var before := if k == 0 then done else done + lists[0];
        assert before + actions[..0] == before;
        for j := 0 to |actions|
          invariant StatsPair(w, l) == StatsOf(before + actions[..j], winner)
        {
          var action := actions[j];
          w, l := CreditAction(w, l, action, winner);
          StatsOfSnoc(before + actions[..j], action, winner);
          PrefixSnoc(before, actions, j);
        }
        assert actions[..|actions|] == actions;
      }
      ActionsSnoc(rounds, i);
    }
    assert rounds[..|rounds|] == rounds;
  }
}
