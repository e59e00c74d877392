/** The dice match contract of src/contract.rs: player profiles, the match
    id counter, settlement of a match from the players' seeds, and the XP and
    level effects of a result. The SHA-256 digest is a parameter that maps a
    message to its first four bytes; the system time is a parameter too. */
module DiceContract {
  import opened Common

  /** The default owner of a profile that was never written:
      `AccountOwner::Reserved(9)`. */
  const DEFAULT_OWNER: Owner := Reserved(9)

  datatype PlayerProfile = PlayerProfile(
    owner: Owner,
    xp: nat,
    level: nat,
    hpMax: nat,
    minDamage: nat,
    maxDamage: nat,
    wins: nat,
    losses: nat)

  const DefaultProfile := PlayerProfile(DEFAULT_OWNER, 0, 1, 30, 1, 6, 0, 0)

  datatype MatchRecord = MatchRecord(
    matchId: nat,
    players: seq<Owner>,
    rounds: nat,
    hitsPlayer0: seq<nat>,
    hitsPlayer1: seq<nat>,
    winner: Option<Owner>,
    settled: bool)

  datatype SettleOutcome = SettleOutcome(success: bool, winner: Option<Owner>, message: string)

  /** `get_mut_or_default` read as a value. */
  function Lookup(profiles: map<Owner, PlayerProfile>, owner: Owner): PlayerProfile
  {
    if owner in profiles then profiles[owner] else DefaultProfile
  }

  /** Every profile is stored under its own owner. */
  predicate Keyed(profiles: map<Owner, PlayerProfile>)
  {
    forall o :: o in profiles ==> profiles[o].owner == o
  }

  // ---------------------------------------------------------------------
  // Settlement effects

  /** A profile still carrying `sentinel` as its owner is claimed. */
  function Claim(p: PlayerProfile, owner: Owner, sentinel: Owner): PlayerProfile
  {
    if p.owner == sentinel then p.(owner := owner) else p
  }

  /** A win is worth 100 XP and a loss 20. */
  function Tally(p: PlayerProfile, won: bool): PlayerProfile
  {
    if won then p.(xp := p.xp + 100, wins := p.wins + 1) else p.(xp := p.xp + 20, losses := p.losses + 1)
  }

  /** The level is one plus the XP over 200 and only ever rises; each level
      gained adds 1 maximum damage and 5 maximum hit points, saturating at
      the `u32` maximum. */
  function Raise(p: PlayerProfile): PlayerProfile
  {
    var newLevel := 1 + p.xp / 200;
    if newLevel > p.level then
      var leveled := newLevel - p.level;
      p.(level := newLevel,
         maxDamage := SaturatingAdd(p.maxDamage, leveled, U32_MAX),
         hpMax := SaturatingAdd(p.hpMax, leveled * 5, U32_MAX))
    else p
  }

  /** One player's profile after a result, where `sentinel` is the owner
      value that marks a profile never written before. */
  function SettleEffect(p: PlayerProfile, owner: Owner, won: bool, sentinel: Owner): PlayerProfile
  {
    Raise(Tally(Claim(p, owner, sentinel), won))
  }

  /** The effect as written: it compares with `Reserved(4)`, which is not the
      default owner. */
  function CreditedAsWritten(p: PlayerProfile, owner: Owner, won: bool): PlayerProfile
  {
    SettleEffect(p, owner, won, Reserved(4))
  }

  /** The effect as intended: a default profile is claimed by its player. */
  function Credited(p: PlayerProfile, owner: Owner, won: bool): PlayerProfile
  {
    SettleEffect(p, owner, won, DEFAULT_OWNER)
  }

  /** What a result does to a profile. */
  lemma CreditedFacts(p: PlayerProfile, owner: Owner, won: bool)
    ensures var q := Credited(p, owner, won);
            && q.xp == p.xp + (if won then 100 else 20)
            && q.wins == p.wins + (if won then 1 else 0)
            && q.losses == p.losses + (if won then 0 else 1)
            && q.level == Max(p.level, 1 + q.xp / 200) && q.level >= p.level
            && (q.level > p.level ==> q.maxDamage == SaturatingAdd(p.maxDamage, q.level - p.level, U32_MAX))
            && (q.level > p.level ==> q.hpMax == SaturatingAdd(p.hpMax, 5 * (q.level - p.level), U32_MAX))
            && (q.level == p.level ==> q.maxDamage == p.maxDamage && q.hpMax == p.hpMax)
            && q.minDamage == p.minDamage
            && (p.owner == DEFAULT_OWNER ==> q.owner == owner)
            && (p.owner != DEFAULT_OWNER ==> q.owner == p.owner)
  {
  }

  /** The body of one iteration of `apply_settlement_effects`: a default
      profile is claimed, the result credited and the level raised. */
  method CreditProfile(p: PlayerProfile, owner: Owner, won: bool) returns (q: PlayerProfile)
    ensures q == Credited(p, owner, won)
  {
    q := p;
    if q.owner == DEFAULT_OWNER {
      q := q.(owner := owner);
    }
    assert q == Claim(p, owner, DEFAULT_OWNER);
    if won {
      q := q.(xp := q.xp + 100, wins := q.wins + 1);
    } else {
      q := q.(xp := q.xp + 20, losses := q.losses + 1);
    }
    ghost var tallied := q;
    assert tallied == Tally(Claim(p, owner, DEFAULT_OWNER), won);
    var newLevel := 1 + q.xp / 200;
    if newLevel > q.level {
      var leveled := newLevel - q.level;
      q := q.(level := newLevel,
              maxDamage := SaturatingAdd(q.maxDamage, leveled, U32_MAX),
              hpMax := SaturatingAdd(q.hpMax, leveled * 5, U32_MAX));
    }
  }

  /** The profiles map after one loop iteration of
      `apply_settlement_effects`. */
  function Settled(profiles: map<Owner, PlayerProfile>, owner: Owner, won: bool): map<Owner, PlayerProfile>
  {
    profiles[owner := Credited(Lookup(profiles, owner), owner, won)]
  }

  function SettledAsWritten(profiles: map<Owner, PlayerProfile>, owner: Owner, won: bool): map<Owner, PlayerProfile>
  {
    profiles[owner := CreditedAsWritten(Lookup(profiles, owner), owner, won)]
  }

  /** The first `i` iterations of `apply_settlement_effects` over the two
      players, `winnerIndex` naming the winner. */
  function EffectsUpTo(profiles: map<Owner, PlayerProfile>, players: seq<Owner>, winnerIndex: nat, i: nat)
    : map<Owner, PlayerProfile>
    requires i <= |players|
  {
    if i == 0 then profiles
    else Settled(EffectsUpTo(profiles, players, winnerIndex, i - 1), players[i - 1], winnerIndex == i - 1)
  }

  /** As written, a player settling without a profile gets one that still
      carries the default owner. */
  lemma AsWrittenLosesOwner(owner: Owner)
    requires owner != DEFAULT_OWNER
    ensures Keyed(map[])
    ensures var m := SettledAsWritten(map[], owner, true);
            owner in m && m[owner].owner == DEFAULT_OWNER && !Keyed(m)
  {
    var m := SettledAsWritten(map[], owner, true);
    assert owner in m && m[owner].owner != owner;
  }

  /** As intended, settlement keeps every profile under its own owner. */
  lemma {:induction false} EffectsKeepKeyed(profiles: map<Owner, PlayerProfile>, players: seq<Owner>,
                                            winnerIndex: nat, i: nat)
    requires i <= |players| && Keyed(profiles)
    ensures Keyed(EffectsUpTo(profiles, players, winnerIndex, i))
  {
    if i > 0 {
      EffectsKeepKeyed(profiles, players, winnerIndex, i - 1);
      var m := EffectsUpTo(profiles, players, winnerIndex, i - 1);
      CreditedFacts(Lookup(m, players[i - 1]), players[i - 1], winnerIndex == i - 1);
    }
  }

  /** With two distinct players the winner is credited the win and the
      other the loss; nobody else's profile changes. */
  lemma EffectsOnTwoPlayers(profiles: map<Owner, PlayerProfile>, players: seq<Owner>, winnerIndex: nat)
    requires |players| == 2 && players[0] != players[1] && winnerIndex < 2
    ensures var m := EffectsUpTo(profiles, players, winnerIndex, 2);
            && m.Keys == profiles.Keys + {players[0], players[1]}
            && m[players[winnerIndex]] == Credited(Lookup(profiles, players[winnerIndex]), players[winnerIndex], true)
            && m[players[1 - winnerIndex]]
                 == Credited(Lookup(profiles, players[1 - winnerIndex]), players[1 - winnerIndex], false)
            && (forall o :: o in profiles && o != players[0] && o != players[1] ==> m[o] == profiles[o])
  {
    var m1 := Settled(profiles, players[0], winnerIndex == 0);
    assert EffectsUpTo(profiles, players, winnerIndex, 1) == m1;
    assert Lookup(m1, players[1]) == Lookup(profiles, players[1]);
    var m2 := Settled(m1, players[1], winnerIndex == 1);
    assert EffectsUpTo(profiles, players, winnerIndex, 2) == m2;
    assert m2[players[0]] == m1[players[0]];
  }

  // ---------------------------------------------------------------------
  // Hits from seeds

  /** `u64::to_be_bytes`. */
  function BigEndian64(n: nat): seq<bv8>
  {
    seq(8, k requires 0 <= k < 8 => ((n / Pow256(7 - k)) % 256) as bv8)
  }

  function Pow256(e: nat): (p: nat)
    ensures p > 0
  {
    if e == 0 then 1 else 256 * Pow256(e - 1)
  }

  /** The digested message for round `r`:
      `seed_self || seed_other || match_id || r`. */
  function HitMessage(seedSelf: seq<bv8>, seedOther: seq<bv8>, matchId: nat, r: nat): seq<bv8>
    requires r <= 255
  {
    seedSelf + seedOther + BigEndian64(matchId) + [r as bv8]
  }

  /** A digest word mapped into the damage range; the width saturates at
      the `u32` maximum. */
  function MapHit(d: nat, minDamage: nat, maxDamage: nat): (h: nat)
    ensures minDamage <= maxDamage ==> minDamage <= h <= maxDamage
    ensures minDamage > maxDamage ==> h == minDamage
  {
    var range := SaturatingAdd(SaturatingSub(maxDamage, minDamage), 1, U32_MAX);
    if range == 0 then minDamage else minDamage + d % range
  }

  /** The hits of `compute_hits_from_seeds` for rounds `0 .. rounds`. */
  function HitsFor(seedSelf: seq<bv8>, seedOther: seq<bv8>, matchId: nat, rounds: nat,
                   minDamage: nat, maxDamage: nat, digest: seq<bv8> -> bv32): (hits: seq<nat>)
    requires rounds <= 255
    ensures |hits| == rounds
    ensures forall r :: 0 <= r < rounds ==>
              hits[r] == MapHit(digest(HitMessage(seedSelf, seedOther, matchId, r)) as nat, minDamage, maxDamage)
  {
    if rounds == 0 then []
    else HitsFor(seedSelf, seedOther, matchId, rounds - 1, minDamage, maxDamage, digest)
         + [MapHit(digest(HitMessage(seedSelf, seedOther, matchId, rounds - 1)) as nat, minDamage, maxDamage)]
  }

  /** Every recomputed hit lies in the damage range. */
  lemma HitsInRange(seedSelf: seq<bv8>, seedOther: seq<bv8>, matchId: nat, rounds: nat,
                    minDamage: nat, maxDamage: nat, digest: seq<bv8> -> bv32)
    requires rounds <= 255 && minDamage <= maxDamage
    ensures var hits := HitsFor(seedSelf, seedOther, matchId, rounds, minDamage, maxDamage, digest);
            forall r :: 0 <= r < rounds ==> minDamage <= hits[r] <= maxDamage
  {
  }

  /** The total of `rounds` hits lies between `rounds` times the minimum and
      `rounds` times the maximum. */
  lemma {:induction false} SumBounds(hits: seq<nat>, lo: nat, hi: nat)
    requires forall r :: 0 <= r < |hits| ==> lo <= hits[r] <= hi
    ensures lo * |hits| <= Sum(hits) <= hi * |hits|
  {
    if hits != [] {
      var n := |hits| - 1;
      var init := hits[..n];
      assert forall r :: 0 <= r < |init| ==> init[r] == hits[r];
      SumBounds(init, lo, hi);
      MulSucc(lo, n);
      MulSucc(hi, n);
    }
  }

  /** The totals `settle_match` compares lie between `rounds` and six times
      `rounds`, so they fit the `u32` sum the contract computes. */
  lemma VerifiedTotals(seedSelf: seq<bv8>, seedOther: seq<bv8>, matchId: nat, rounds: nat,
                       digest: seq<bv8> -> bv32)
    requires rounds <= 255
    ensures var total := Sum(HitsFor(seedSelf, seedOther, matchId, rounds, 1, 6, digest));
            rounds <= total <= 6 * rounds && total <= U32_MAX
  {
    HitsInRange(seedSelf, seedOther, matchId, rounds, 1, 6, digest);
    SumBounds(HitsFor(seedSelf, seedOther, matchId, rounds, 1, 6, digest), 1, 6);
  }

  lemma MulSucc(a: nat, n: nat)
    ensures a * (n + 1) == a * n + a
  {
  }

  /** `compute_hits_from_seeds`: one hit per round, each the round's digest
      word mapped into the damage range, whatever the digest. */
  method ComputeHitsFromSeeds(seedSelf: seq<bv8>, seedOther: seq<bv8>, matchId: nat, rounds: nat,
                              minDamage: nat, maxDamage: nat, digest: seq<bv8> -> bv32)
    returns (hits: seq<nat>)
    requires rounds <= 255
    ensures hits == HitsFor(seedSelf, seedOther, matchId, rounds, minDamage, maxDamage, digest)
    ensures |hits| == rounds
    ensures minDamage <= maxDamage ==> forall r :: 0 <= r < |hits| ==> minDamage <= hits[r] <= maxDamage
  {
    hits := [];
    for r := 0 to rounds
      invariant |hits| == r
      invariant forall k :: 0 <= k < r ==>
                  hits[k] == MapHit(digest(HitMessage(seedSelf, seedOther, matchId, k)) as nat, minDamage, maxDamage)
    {
      var d := digest(HitMessage(seedSelf, seedOther, matchId, r)) as nat;
      var range := SaturatingAdd(SaturatingSub(maxDamage, minDamage), 1, U32_MAX);
      var mapped := if range == 0 then minDamage else minDamage + d % range;
      hits := hits + [mapped];
    }
  }

  /** The winner of verified hits: the player with the strictly larger
      total, none on a tie. */
  function WinnerIndex(total0: nat, total1: nat): (w: nat)
    ensures w <= 2
    ensures w == 0 <==> total0 > total1
    ensures w == 1 <==> total1 > total0
    ensures w == 2 <==> total0 == total1
  {
    if total0 > total1 then 0 else if total1 > total0 then 1 else 2
  }

  // ---------------------------------------------------------------------
  // The contract

  class DiceGame {
    var profiles: map<Owner, PlayerProfile>
    var matches: map<nat, MatchRecord>
    var nextMatchId: nat

    /** Profiles are stored under their owners; every match has two players
        and an id below the counter, under which it is stored. */
    ghost predicate Valid()
      reads this
    {
      && Keyed(profiles)
      && forall id :: id in matches ==>
           id < nextMatchId && matches[id].matchId == id && |matches[id].players| == 2 && matches[id].rounds <= 255
    }

    /** `instantiate`: nothing stored, the counter at zero. */
    constructor ()
      ensures Valid() && profiles == map[] && matches == map[] && nextMatchId == 0
    {
      profiles := map[];
      matches := map[];
      nextMatchId := 0;
    }

    /** `register_player`: the profile, existing or default, is stored under
        its owner; existing XP and statistics are kept. */
    method RegisterPlayer(owner: Owner)
      requires Valid()
      modifies this`profiles
      ensures Valid()
      ensures profiles == old(profiles)[owner := Lookup(old(profiles), owner).(owner := owner)]
    {
      var profile := Lookup(profiles, owner);
      profile := profile.(owner := owner);
      profiles := profiles[owner := profile];
    }

    /** `start_match`: the counter's current value is the new match's id, it
        was not in use, and the counter advances by one. */
    method StartMatch(players: seq<Owner>, rounds: nat) returns (matchId: nat)
      requires Valid() && |players| == 2 && rounds <= 255
      modifies this`matches, this`nextMatchId
      ensures Valid()
      ensures matchId == old(nextMatchId) && nextMatchId == old(nextMatchId) + 1
      ensures matchId !in old(matches)
      ensures matches == old(matches)[matchId := MatchRecord(matchId, players, rounds, [], [], None, false)]
    {
      matchId := nextMatchId;
      nextMatchId := nextMatchId + 1;
      var record := MatchRecord(matchId, players, rounds, [], [], None, false);
      matches := matches[matchId := record];
    }

    /** `apply_settlement_effects`: both players in turn, the one at
        `winnerIndex` credited the win. */
    method ApplySettlementEffects(players: seq<Owner>, winnerIndex: nat)
      requires Valid() && |players| == 2
      modifies this`profiles
      ensures Valid()
      ensures profiles == EffectsUpTo(old(profiles), players, winnerIndex, 2)
    {
      for i := 0 to 2
        invariant profiles == EffectsUpTo(old(profiles), players, winnerIndex, i)
      {
        var owner := players[i];
        var profile := CreditProfile(Lookup(profiles, owner), owner, i == winnerIndex);
        profiles := profiles[owner := profile];
      }
      EffectsKeepKeyed(old(profiles), players, winnerIndex, 2);
    }

    /** `settle_match`. An unknown or already settled match fails and
        changes nothing; otherwise the match is settled. When the submitted
        hits differ from the ones recomputed from the seeds, the winner is
        the player at `now % 2`; otherwise the strictly larger total wins,
        and a tie has no winner and no profile effects. */
    method SettleMatch(matchId: nat, seed0: seq<bv8>, seed1: seq<bv8>, hits0: seq<nat>, hits1: seq<nat>,
                       now: nat, digest: seq<bv8> -> bv32)
      returns (outcome: SettleOutcome)
      requires Valid()
      modifies this`matches, this`profiles
      ensures Valid()
      ensures !outcome.success <==> matchId !in old(matches) || old(matches)[matchId].settled
      ensures !outcome.success ==> outcome.winner == None && matches == old(matches) && profiles == old(profiles)
      ensures outcome.success ==>
                var r := old(matches)[matchId];
                var h0 := HitsFor(seed0, seed1, matchId, r.rounds, 1, 6, digest);
                var h1 := HitsFor(seed1, seed0, matchId, r.rounds, 1, 6, digest);
                if h0 != hits0 || h1 != hits1 then
                  && outcome.winner == Some(r.players[now % 2])
                  && matches == old(matches)[matchId := r.(winner := outcome.winner, settled := true)]
                  && profiles == EffectsUpTo(old(profiles), r.players, now % 2, 2)
                else
                  var w := WinnerIndex(Sum(h0), Sum(h1));
                  && outcome.winner == (if w < 2 then Some(r.players[w]) else None)
                  && matches == old(matches)[matchId := r.(hitsPlayer0 := h0, hitsPlayer1 := h1,
                                                           winner := outcome.winner, settled := true)]
                  && profiles == (if w < 2 then EffectsUpTo(old(profiles), r.players, w, 2) else old(profiles))
    {
      if matchId !in matches {
        return SettleOutcome(false, None, "Match not found");
      }
      var record := matches[matchId];
      if record.settled {
        return SettleOutcome(false, None, "Match already settled");
      }
      var recomputed0 := ComputeHitsFromSeeds(seed0, seed1, matchId, record.rounds, 1, 6, digest);
      var recomputed1 := ComputeHitsFromSeeds(seed1, seed0, matchId, record.rounds, 1, 6, digest);
      if recomputed0 != hits0 || recomputed1 != hits1 {
        var winnerIndex := now % 2;
        var winner := record.players[winnerIndex];
        Conclude(matchId, record.(winner := Some(winner), settled := true), winnerIndex);
        return SettleOutcome(true, Some(winner), "Seeds mismatched: mock VRF fallback used to pick winner");
      }
      var total0 := Sum(recomputed0);
      var total1 := Sum(recomputed1);
      var winnerIndex := WinnerIndex(total0, total1);
      var winnerOpt := if winnerIndex == 0 then Some(record.players[0])
                       else if winnerIndex == 1 then Some(record.players[1])
                       else None;
      Conclude(matchId, record.(hitsPlayer0 := recomputed0, hitsPlayer1 := recomputed1,
                                winner := winnerOpt, settled := true), winnerIndex);
      if winnerIndex < 2 {
        return SettleOutcome(true, winnerOpt, "Match settled on-chain");
      }
      outcome := SettleOutcome(true, None, "Tie: no winner");
    }

    /** The end of `settle_match`: the updated record is stored and, when
        there is a winner, the settlement effects applied. */
    method Conclude(matchId: nat, record: MatchRecord, winnerIndex: nat)
      requires Valid() && matchId in matches
      requires record.matchId == matchId && |record.players| == 2 && record.rounds <= 255
      modifies this`matches, this`profiles
      ensures Valid()
      ensures matches == old(matches)[matchId := record]
      ensures profiles == if winnerIndex < 2 then EffectsUpTo(old(profiles), record.players, winnerIndex, 2)
                          else old(profiles)
    {
      matches := matches[matchId := record];
      if winnerIndex < 2 {
        ApplySettlementEffects(record.players, winnerIndex);
      }
    }
  }

  /** Two matches started on a fresh contract leave the counter at two, with
      ids zero and one. */
  method TwoStartsLeaveCounterAtTwo(a: seq<Owner>, b: seq<Owner>) returns (first: nat, second: nat, next: nat)
    requires |a| == 2 && |b| == 2
    ensures first == 0 && second == 1 && next == 2
  {
    var game := new DiceGame();
    first := game.StartMatch(a, 2);
    second := game.StartMatch(b, 2);
    next := game.nextMatchId;
  }
}
