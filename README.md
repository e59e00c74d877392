# Majorules / fighter game / dice match contracts, modelled in Dafny

This project models the game logic of a set of Linera applications:

- **The two-player battle engine** (`src/battle_contract.rs`), in modules `Draws`, `BattleTypes`, `Damage`, `Combat`, `Settlement` and `BattleEngine`:
  - a battle chain is initialised once by its lobby;
  - the two players submit one stance per turn slot;
  - each turn runs two directional exchanges through a fixed-point damage pipeline (six decimal digits);
  - rounds close when both players signal readiness;
  - the battle ends in a settlement that splits the stake between the winner and a platform fee.
- **The fighter library** (`src/fighter_lib.rs`), in module `FighterLib`:
  - fighter progression;
  - tier mapping and matchmaking;
  - the alternating-turn `Battle::execute_strike`;
  - the combo tracker;
  - the prediction pool.
- **The fighter contract** (`src/fighter_contract.rs`), in module `FighterContract`: registration, starting battles, timeout claims, tournaments, upgrades, the `BattleResult` message, XP rewards, stake distribution and the seed fold.
- **The dice match contract** (`src/contract.rs`), in module `DiceContract`: profiles, the match id counter, settle-once behaviour, the winner by hit totals, and the XP and level effects.
- `Common` holds the shared `Option`, the `Owner` (an `AccountOwner`), and the saturating arithmetic of Rust's `saturating_add` and `saturating_sub`.

Modelling choices:

- **The battle engine's state** (the registers of `BattleState`) is a class `BattleSession`:
  - one `Registers` record holds the single-value registers;
  - a map holds the turn submissions;
  - a sequence holds the ready signals.
  Each method is proved equal to a pure specification function of the old state (`InitializeSpec`, `SingleTurnSpec`, `SubmitTurnSpec`, `CloseRoundSpec`, `ReadySpec`, ...). The properties are lemmas about those functions.
- **The random generator** is an arbitrary stream of values read through `Draws.DrawSource`. The n-th draw is the n-th stream value, clamped into the requested inclusive range. Every value of the range can occur. A draw counter lets contracts state exactly how many draws an operation consumes.
- **The fighter contract and the dice contract** are classes whose fields are the maps and registers of their views. Their operations are methods with frames on exactly the fields they change.
- **Callers, time and chain data** (`authenticated_signer`, `system_time`, the chain id) are parameters. A missing authenticated owner is `None`.
- **Amounts** are natural numbers of attos. Saturating amount arithmetic caps at `u128::MAX`.

## Model

| member | source | states |
|---|---|---|
| Draws.Pick | src/random.rs:18-25 | a draw lies in the requested inclusive range, and every value of the range is delivered unchanged |
| Draws.DrawSource.Value | src/random.rs:18-25 | `random_value` consumes exactly one draw and returns a value of the range |
| Damage.MulFpBounds | src/battle_contract.rs:11-13 | the truncated fixed-point product loses less than one unit |
| Damage.MulFpByUnit | src/battle_contract.rs:11-13 | multiplying by `FP_SCALE` is the identity |
| Damage.MulFpAtMostUnit | src/battle_contract.rs:11-13 | a factor of at most one unit never increases a value |
| Damage.DamageSpec | src/battle_contract.rs:342-424 | the hit is a crit iff the crit roll is below chance plus non-negative crit bonus; it is dodged iff the dodge roll is below the defender's dodge chance; a dodge deals 0, any other hit at least 1 |
| Damage.CalculateDamage | src/battle_contract.rs:342-424 | consumes exactly three draws (base in [min,max], crit and dodge in [0,9999]) even when dodged, and returns the pipeline's result on them |
| Damage.DodgeIgnoresArmour | src/battle_contract.rs:388-393 | a dodge returns exactly `(0, was_crit, true)` whatever the defender's defense, traits and stance |
| Damage.FullDefenseLeavesOneUnit | src/battle_contract.rs:395-401 | a defense of 100 or more sets the running damage to exactly one unit |
| Damage.FullDefenseTraitDealsOne | src/battle_contract.rs:412-422 | a defense trait of 10000 bps or more makes `def_mod <= 0`, leaving exactly one unit and a final damage of 1 |
| Damage.DefenseTraitNoIncrease | src/battle_contract.rs:412-420 | a non-negative defense trait never raises the damage above the larger of its input and one unit |
| Damage.DefenderStanceBound | src/battle_contract.rs:403-410 | the defender's stance at most multiplies the damage by 1.5 |
| Damage.HeavyArmourDealsOne | src/battle_contract.rs:395-423 | against defense of 100 or more and a non-negative defense trait, an undodged hit deals exactly 1 whatever the attacker does |
| Damage.PlainHitIsBaseDamage | src/battle_contract.rs:349-423 | with no traits, combo, crit, special or armour, Balanced against Balanced, the hit deals exactly the base draw |
| Damage.ScenarioTenDamage | src/battle_contract.rs:349-423 | a base draw of 10 with neither crit nor dodge between two plain characters deals 10 |
| Combat.Tick | src/battle_contract.rs:324-326 | a cooldown tick lowers a positive cooldown by one and never goes below zero |
| Combat.ExchangeSpec | src/battle_contract.rs:276-340 | an exchange consumes at least the three damage draws |
| Combat.ExchangeFacts | src/battle_contract.rs:286-339 | consumes three draws, or four exactly when the defender is in Counter, the hit was not dodged and the defender survived; HP saturates; a dodge changes no HP; combo stays at most 5; the special is used iff requested with cooldown 0 and then leaves cooldown 2; both cooldowns tick; nothing else changes |
| Combat.DodgedCritCombo | src/battle_contract.rs:309-314 | a dodged crit still raises a combo below 5 (and a combo at 5 or more resets); a dodge without crit resets the combo; a plain hit keeps it |
| Combat.NoCounterWhenDodged | src/battle_contract.rs:316-322 | a dodged hit is never countered and draws no fourth value |
| Combat.TurnSpec | src/battle_contract.rs:177-186 | a turn never rewinds the draw stream |
| Combat.TurnFacts | src/battle_contract.rs:177-186 | at most two exchanges, none iff someone is already at 0 HP, 3 to 4 draws per exchange, a single exchange only when it knocked someone out; the entrants and combo bound are kept |
| Combat.StrikeBackIffBothAlive | src/battle_contract.rs:180-186 | the second exchange runs iff both players are alive after the first |
| Settlement.SettlePayout | src/battle_contract.rs:435-441 | total is the saturating sum of the stakes, the fee is total·bps/10000 truncated, payout + fee == total when bps <= 10000, payout is 0 when bps >= 10000 and the whole total when bps is 0 |
| Settlement.FeeBounds | src/battle_contract.rs:438-441 | the fee is at most the total iff the fee rate is at most 100% |
| Settlement.StatsOf | src/battle_contract.rs:481-512 | damage dealt by one side equals damage taken by the other; the totals are the undodged damage, the crit count and the dodge count of all actions |
| Settlement.StatsOfSnoc | src/battle_contract.rs:485-508 | the statistics of a log are built by crediting its actions one at a time |
| Settlement.NoActionsMeansNone | src/battle_contract.rs:235-241 | rounds recorded with empty action lists contribute no actions |
| Settlement.StatsOfSilentRounds | src/battle_contract.rs:481-512 | with the empty action lists the engine records, both statistics are all zero |
| Settlement.CreditAction | src/battle_contract.rs:487-507 | one action credits damage only when not dodged, crits and the highest crit to the attacker, and dodges to the defender |
| Settlement.CalculateCombatStats | src/battle_contract.rs:481-512 | the loop's accumulators equal the statistics of all actions in round order, dealt-by-one equal to taken-by-the-other |
| BattleEngine.ParseStance | src/battle_contract.rs:119-126 | exactly the five stance names parse |
| BattleEngine.ParseStanceName | src/battle_contract.rs:119-126 | parsing inverts naming, and a name parses to a stance only if it is that stance's name |
| BattleEngine.Enter | src/battle_contract.rs:60-89 | an entrant starts at full HP, combo 0, cooldown 0 and no turns, keeping owner, chain, character and stake |
| BattleEngine.InitializeValid | src/battle_contract.rs:53-103 | initialisation of a waiting battle sets InProgress, round 1, no winner and both entrants; it is a no-op otherwise; it keeps the register invariant |
| BattleEngine.InitializeOnce | src/battle_contract.rs:56-58 | a second initialisation changes nothing |
| BattleEngine.FinalizeSpec | src/battle_contract.rs:426-479 | finalisation sets Completed, the winner and the completion time and changes no other register; it sends notices iff a lobby is set |
| BattleEngine.FinalizeReports | src/battle_contract.rs:448-477 | three notices to the lobby: winner result (150 XP, the payout), loser result (50 XP, no payout), completion with the total stake and rounds played, payout + fee == total when bps <= 10000 |
| BattleEngine.FinalizeStatsAreZero | src/battle_contract.rs:443-445 | every reported statistic is zero, since no round records actions |
| BattleEngine.FinalizeValid | src/battle_contract.rs:432-434 | finalisation keeps the register invariant |
| BattleEngine.SingleTurnSpec | src/battle_contract.rs:155-196 | a turn never rewinds the draw stream |
| BattleEngine.SingleTurnValid | src/battle_contract.rs:177-193 | the battle completes iff an HP reaches 0, with player1 the winner iff its HP is positive (a double knock-out goes to player2); the round is unchanged and HP never rises |
| BattleEngine.SingleTurnDraws | src/battle_contract.rs:177-186 | `random_counter` grows by the number of exchanges (0 to 2, none iff someone is at 0 HP), each taking 3 or 4 draws |
| BattleEngine.DoubleKnockoutGoesToPlayer2 | src/battle_contract.rs:189-191 | when both HPs are 0, player2 wins and player1 loses |
| BattleEngine.ExecuteTurnSpec | src/battle_contract.rs:160-195 | a turn runs iff the battle is in progress and both submissions exist; submissions are never consumed; otherwise nothing changes |
| BattleEngine.SubmitTurnAsWritten | src/battle_contract.rs:114-152 | a refused submission (wrong status, round or slot, unknown stance, taken slot) changes nothing; an accepted one stores exactly one submission under (caller, slot), and the turn runs iff both players' slots for it are then filled, whoever the caller is |
| BattleEngine.SubmitTurnSpec | src/battle_contract.rs:114-152 | (corrected participant test) a refused submission changes nothing; an accepted one stores exactly one submission under (caller, slot), and the turn runs iff the caller is a participant and both players' slots are then filled; otherwise nothing else changes |
| BattleEngine.SubmitAgreesForParticipants | src/battle_contract.rs:114-152 | for a submission signed by either player, the corrected definition and the code as written give the same outcome: state, submissions, draws and notices |
| BattleEngine.SubmitReplaysFilledSlot | src/battle_contract.rs:130-151 | as written, an outsider's submission into a slot both players filled runs the turn again; the corrected definition does not |
| BattleEngine.SubmitRunsOnlyOnCompletion | src/battle_contract.rs:139-151 | (corrected participant test) a turn runs exactly once per slot: only on the submission that completes the pair, made by a participant, and always on such a submission |
| BattleEngine.SubmitValid | src/battle_contract.rs:114-152 | submission keeps the invariant, never removes a submission and never rewinds the draws |
| BattleEngine.SubmitIgnoredUnlessInProgress | src/battle_contract.rs:114-116 | outside InProgress a submission changes nothing |
| BattleEngine.ClearTurnsExact | src/battle_contract.rs:255-259 | clearing removes exactly slots 0..2 of both players and keeps every other entry |
| BattleEngine.CloseRoundValid | src/battle_contract.rs:231-271 | closing appends one round result; the battle continues (round + 1) iff both are alive below max rounds, and completes otherwise; a knock-out of player1 (also a double one) goes to player2, of player2 alone to player1; at max rounds player1 wins iff strictly more HP |
| BattleEngine.ReadyClosesOnce | src/battle_contract.rs:198-272 | every ready signal keeps the invariant; a repeated one changes nothing; a change comes only from a participant while the round was still open, and a closing round clears both players' slots |
| BattleEngine.ReadyIgnoredUnlessParticipant | src/battle_contract.rs:202-217 | outside `InProgress`, or from a caller who is not a participant, a ready signal changes nothing, the log included |
| BattleEngine.ReadyClosesOnCompletingSignal | src/battle_contract.rs:219-272 | a participant's first signal of the round is logged; if both signals are then logged the round closes exactly as `close_round` does (one more round result) and both players' slots are cleared, otherwise nothing but the log changes |
| BattleEngine.BattleSession.InitializeBattle | src/battle_contract.rs:44-104 | aborts iff the origin is not the lobby; otherwise the registers become the initialisation of the old ones |
| BattleEngine.BattleSession.ExecuteAttack | src/battle_contract.rs:276-340 | the exchange specification, with `random_counter` + 1 and nothing else changed |
| BattleEngine.BattleSession.FinalizeBattle | src/battle_contract.rs:426-479 | the registers and notices are those of the finalisation specification |
| BattleEngine.BattleSession.Fight | src/battle_contract.rs:180-186 | the two guarded exchanges of a turn, `random_counter` + the exchanges run |
| BattleEngine.BattleSession.ExecuteSingleTurn | src/battle_contract.rs:155-196 | the registers, draws and notices are those of the turn specification; submissions are kept |
| BattleEngine.BattleSession.SubmitTurn | src/battle_contract.rs:106-153 | state, submissions, draws and notices are those of the corrected submission specification |
| BattleEngine.BattleSession.ClearRoundTurns | src/battle_contract.rs:255-259 | the submissions become the cleared map |
| BattleEngine.BattleSession.CloseRound | src/battle_contract.rs:231-271 | registers and notices per the round-closing specification, both players' slots cleared |
| BattleEngine.BattleSession.Execute3Rounds | src/battle_contract.rs:198-274 | registers, submissions, ready log and notices per the ready specification |
| FighterLib.FighterTierMonotone | src/fighter_lib.rs:249-258 | the fighter tier never falls as the level rises from 1; level 0 maps to Legendary |
| FighterLib.CanMatchFacts | src/fighter_lib.rs:282-286 | `can_match` is reflexive and symmetric, true iff the tier indices differ by at most 1 |
| FighterLib.NeighbouringLevelsMatch | src/fighter_lib.rs:272-286 | fighters one level apart can always match, and the tier never falls as the level rises |
| FighterLib.NoviceNeverMeetsExpert | src/fighter_lib.rs:272-286 | a level 1..10 fighter never matches one of level 51 or more |
| FighterLib.NewFighter | src/fighter_lib.rs:140-163 | a new fighter is level 1 with zero XP and record, progressed stats, and the given owner, name and time |
| FighterLib.DamageRange | src/fighter_lib.rs:166-170 | the range is (base+2·level, base+5·level) |
| FighterLib.FreshDamageRange | src/fighter_lib.rs:662-670 | a fresh fighter's range is (12, 15) |
| FighterLib.ApplyDefense | src/fighter_lib.rs:173-176 | defense never increases damage, is the identity at 0 and blocks everything at 100 or more |
| FighterLib.CritChanceExtremes | src/fighter_lib.rs:179-181 | a crit chance of 100 or more always crits, 0 never does |
| FighterLib.ApplyCritical | src/fighter_lib.rs:184-186 | the result is exactly damage·multiplier/100 truncated (r·100 ≤ damage·multiplier < r·100 + 100), hence never smaller than the damage for a multiplier of 100 or more and equal at 100 |
| FighterLib.XpThresholdGrows | src/fighter_lib.rs:189-191 | the XP threshold strictly grows with the level |
| FighterLib.LevelUpKeepsProgress | src/fighter_lib.rs:207-229 | a level-up adds 1 level, 10 max HP, 3 attack, 1 defense, keeps crit at most 30, recomputes the tier, and keeps the progression invariant |
| FighterLib.ProgressedStats | src/fighter_lib.rs:140-229 | a progressed fighter's range is (7+5·level, 7+8·level) and its crit chance at most 30 |
| FighterLib.PromoteFacts | src/fighter_lib.rs:207-229 | k level-ups add k levels, 10k HP, 3k attack and k defense, keep owner, name and XP, and keep the invariant |
| FighterLib.LevelUp | src/fighter_lib.rs:207-229 | the imperative level-up equals the level-up specification |
| FighterLib.AddXp | src/fighter_lib.rs:194-204 | XP grows by the gain; the result is true iff the new XP reaches 100·level², and then exactly one level is gained; progression is kept |
| FighterLib.FirstLevelUp | src/fighter_lib.rs:645-659 | a fresh fighter given 100 XP reaches level 2 with 110 max HP |
| FighterLib.ComboFacts | src/fighter_lib.rs:476-496 | the bucket becomes damage rounded down to ten; the same bucket increments the count and returns 150 at count 2, otherwise 200; a new bucket resets the count to 1 with no bonus |
| FighterLib.ComboSequence | src/fighter_lib.rs:673-687 | the hits 45, 48, 42, 55 give None, 150, 200, None |
| FighterLib.CheckCombo | src/fighter_lib.rs:476-496 | the tracker and bonus are those of the combo specification |
| FighterLib.AddPrediction | src/fighter_lib.rs:540-559 | a no-op when locked; otherwise the entry is stored and the total and exactly one side pool grow by the amount (saturating); pool consistency is kept |
| FighterLib.SaturatingMul | src/fighter_lib.rs:571-572 | the product when it fits in `u128`, `u128::MAX` otherwise |
| FighterLib.PoolAfterFee | src/fighter_lib.rs:571-573 | the total pool less the fee (saturated product / 100), floored at zero; no fee leaves the whole pool |
| FighterLib.CalculateWinnings | src/fighter_lib.rs:561-586 | winnings are zero unless an unclaimed entry picked the winner and the winning side pool is positive |
| FighterLib.WinningsBounded | src/fighter_lib.rs:561-586 | in a consistent pool, one predictor's winnings never exceed the pool after the fee |
| FighterLib.NewBattle | src/fighter_lib.rs:314-346 | a new battle is Active at turn 1 with fighter1 to move, both at full HP, free play iff there is no stake, and an empty log |
| FighterLib.BaseDamage | src/fighter_lib.rs:366-368 | the base damage lies in [min, max−1] of the damage range |
| FighterLib.PowerUp | src/fighter_lib.rs:370-395 | the crit and combo steps: the final damage, the tracker update and the crit and combo log entries |
| FighterLib.ExecuteStrike | src/fighter_lib.rs:349-435 | Err iff not Active or not the attacker's turn, with no change; otherwise defended damage, saturating HP on the defender, Finished iff an HP is 0 with the survivor as winner, else turn swapped and turn number + 1; nothing else changes; battle consistency kept |
| FighterContract.CalculateXpReward | src/fighter_contract.rs:689-699 | 100/20 XP for free battles, 150/30 for staked |
| FighterContract.WinWorthFiveLosses | src/fighter_contract.rs:689-699 | a win is worth five losses |
| FighterContract.SplitStake | src/fighter_contract.rs:701-718 | total = 2·stake (saturating); the fee is the saturated total·pct, divided by 100; the winner gets total − fee, floored at 0, so winner + fee == total when the fee is at most 100%; no fee leaves the whole total to the winner |
| FighterContract.FeeWithinTotal | src/fighter_contract.rs:706-708 | a fee percentage of at most 100 never exceeds the total |
| FighterContract.SeedFoldAppend | src/fighter_contract.rs:683-685 | folding bytes in two parts equals folding them at once |
| FighterContract.GenerateRandomSeed | src/fighter_contract.rs:677-687 | the seed is the wrapping ·31 fold of the chain id bytes over `battle_id ^ timestamp` |
| FighterContract.RecordedFacts | src/fighter_contract.rs:123-141 | the winner gets wins + 1, streak + 1, highest streak at least the streak, and its XP; the loser losses + 1, streak 0 and its XP; both record the time; nobody else changes |
| FighterContract.LevelUpWhilePossible | src/fighter_contract.rs:651-661 | at most 11 level-ups, each earned, none iff XP is below the threshold, and the loop stops early only when the next one is not earned |
| FighterContract.FighterGame.constructor | src/fighter_contract.rs:48-57 | every map empty and every counter zero |
| FighterContract.FighterGame.RegisterFighter | src/fighter_contract.rs:165-196 | an error iff unauthenticated, already registered or a name outside 1..32 bytes, with no change; otherwise the new fighter and a leaderboard entry of 0 are stored |
| FighterContract.FighterGame.StartBattle | src/fighter_contract.rs:199-256 | an error iff unauthenticated, a self-battle, an unregistered fighter or tiers that cannot match, with no change; otherwise the counter grows by 1 and the new battle is stored under it |
| FighterContract.FighterGame.DistributeStakeWinnings | src/fighter_contract.rs:701-718 | the platform balance grows by the fee |
| FighterContract.FighterGame.ClaimTimeout | src/fighter_contract.rs:361-424 | success iff an authenticated caller, an Active timed-out battle and a claimer who is not the one to move; then TimedOut, the claimer the winner, the stake fee collected, and a result with half the loser XP |
| FighterContract.FighterGame.CreateTournament | src/fighter_contract.rs:427-482 | an error iff unauthenticated, a name outside 1..64, a size outside 4..128 or percentages not summing to 100; otherwise a new tournament under the next counter value |
| FighterContract.FighterGame.JoinTournament | src/fighter_contract.rs:485-532 | an error iff unregistered, missing, closed, full or already entered, with no change; otherwise appended once and the entry fee added to the prize pool (saturating) |
| FighterContract.FighterGame.UpgradeFighter | src/fighter_contract.rs:636-673 | an error with no change iff no level was earned; otherwise 1 to 11 earned levels are applied and the leaderboard records the XP |
| FighterContract.FighterGame.RecordWin | src/fighter_contract.rs:123-134 | a registered winner is credited the win |
| FighterContract.FighterGame.RecordLoss | src/fighter_contract.rs:136-141 | a registered loser is credited the loss |
| FighterContract.FighterGame.HandleBattleResult | src/fighter_contract.rs:115-150 | fighters recorded, both leaderboard entries refreshed, one more battle counted |
| DiceContract.CreditedFacts | src/contract.rs:216-247 | (corrected sentinel `Reserved(9)`) a win adds 100 XP and a win, a loss 20 XP and a loss; the level becomes the larger of the old one and 1 + XP/200; each level gained adds 1 max damage and 5 max HP (saturating); a default profile is claimed |
| DiceContract.CreditProfile | src/contract.rs:221-246 | (corrected sentinel `Reserved(9)`) one loop iteration equals the corrected effect |
| DiceContract.AsWrittenLosesOwner | src/contract.rs:226-229 | as written, a new player's profile keeps the default owner, so profiles are no longer keyed by their owner |
| DiceContract.EffectsKeepKeyed | src/contract.rs:216-249 | with the corrected sentinel, settlement keeps every profile under its own owner |
| DiceContract.EffectsOnTwoPlayers | src/contract.rs:216-249 | (corrected sentinel `Reserved(9)`) with distinct players the winner is credited the win, the other the loss, and nobody else changes |
| DiceContract.MapHit | src/contract.rs:276-281 | a mapped hit lies in [min, max], or is min when the range is inverted |
| DiceContract.HitsFor | src/contract.rs:254-283 | exactly `rounds` hits, the r-th the r-th digest word mapped into the range |
| DiceContract.HitsInRange | src/contract.rs:254-283 | every hit lies in [min_damage, max_damage] for any digest |
| DiceContract.SumBounds | src/contract.rs:174-175 | a total of hits in [lo, hi] lies in [lo·n, hi·n] |
| DiceContract.VerifiedTotals | src/contract.rs:152-175 | the compared totals lie in [rounds, 6·rounds], within `u32` |
| DiceContract.ComputeHitsFromSeeds | src/contract.rs:254-283 | the loop produces exactly `rounds` hits, each in range, equal to the hit specification |
| DiceContract.WinnerIndex | src/contract.rs:176-182 | player 0 iff a strictly larger total, player 1 iff strictly smaller, none iff equal |
| DiceContract.DiceGame.constructor | src/contract.rs:39-41 | no profiles, no matches, counter zero |
| DiceContract.DiceGame.RegisterPlayer | src/contract.rs:85-96 | the existing or default profile is stored under its owner with XP and statistics kept |
| DiceContract.DiceGame.StartMatch | src/contract.rs:99-115 | returns the pre-increment counter, which was unused, and increments it by 1, storing a fresh unsettled record |
| DiceContract.DiceGame.ApplySettlementEffects | src/contract.rs:216-249 | (corrected sentinel `Reserved(9)`) the profiles become both players' effects applied in order |
| DiceContract.DiceGame.SettleMatch | src/contract.rs:121-213 | (corrected sentinel `Reserved(9)`) fails with no change iff the match is unknown or settled; on mismatched hits the winner is the player at `now % 2`; otherwise the strictly larger total wins and a tie has no winner and no effects; every success settles the match |
| DiceContract.DiceGame.Conclude | src/contract.rs:161-211 | (corrected sentinel `Reserved(9)`) the settled record is stored and effects applied iff there is a winner |
| DiceContract.TwoStartsLeaveCounterAtTwo | tests/single_chain.rs:6-46 | two starts on a fresh contract return ids 0 and 1 and leave the counter at 2 |

## Left out

- **Integer widths and panics.** Rust's `u8`/`u16`/`u32`/`u64`/`u128` widths are unbounded naturals, except where the code saturates (HP, stakes, pools, prize pools, max damage, hit points) or wraps on purpose (the `u64` seed fold). Arithmetic that would panic on overflow in a debug build is not modelled. In the damage pipeline and the exchange this covers three `u32` operations, where the model keeps the untruncated value: the truncating cast `(damage / FP_SCALE) as u32` of the final damage (src/battle_contract.rs:422), the Berserker self-damage `damage / 4` (:301) taken of that value, and the Counter retaliation `damage * 4 / 10` (:320), whose product would overflow `u32` for a damage above 1073741823. They sit beside the `as u128` wrap named on the `BattleTypes.WellFormed` line. `VerifiedTotals` shows that the dice totals fit a `u32`.
- **The Linera runtime and views.**
  - Message delivery, `send_to`, authentication, `load`/`save`, `system_time` and `chain_id` are not modelled.
  - Outgoing messages are returned as values (`Notice`, `Message`) and not delivered.
  - The caller and the time are parameters.
  - A panic on a missing origin is not modelled: `InitializeBattle` takes the origin as an option and aborts when it is not the lobby.
- **The random generator** (`src/random.rs`) is an arbitrary stream with the inclusive-range contract. The seeded `StdRng` itself is not modelled.
- **SHA-256** in `compute_hits_from_seeds` is not modelled. The digest is a parameter mapping the message to its first four bytes as a `u32`.
- **The mock fallback winner** `now % 2` of `settle_match`, and the current time of `is_timed_out`, are inputs.
- **Default state that is not shown.** `BattleState`'s definition is not part of this model. The battle types are reconstructed from their uses. The registers are assumed to start empty: `WaitingForPlayers`, no players, round 0.
- **The ready log.** `execute_3_rounds` keeps formatted strings in `battle_log` and searches them for substrings. The model keeps (round, caller) pairs and tests exact membership. So a key that is only a substring of another entry is not modelled as a match: in the same round, a caller whose printed owner has a participant's printed owner as a proper prefix would count, in the code, as that participant's signal.
- **Value types.**
  - `Fighter`, `Battle`, `ComboTracker` and `PredictionPool` are value datatypes. Their `&mut self` methods take the old value and return the new one.
  - Rust's ownership forbids aliasing them, and the contract stores them by value in maps.
  - In-place update of a borrowed struct is therefore not captured.
- **`Amount::from_tokens`** wraps the stake fee (src/fighter_contract.rs:706, 724), the prediction fee (src/fighter_lib.rs:572) and the prediction share itself (src/fighter_lib.rs:576). The model assumes it is the identity on the atto count it is given. If the library instead multiplies by 10^18, these fees and shares are 10^18 times larger than intended, a possible unit error that the model does not capture.
- **Operations not covered.**
  - The fighter contract's `Strike`, `PlacePrediction` and `ClaimPredictionWinnings` operations, and `distribute_prediction_winnings`, are not modelled as contract methods. Their library parts (`Battle::execute_strike`, `add_prediction`, `calculate_winnings`) are modelled in `FighterLib`.
  - `Message::TournamentStarted` only logs.
  - `src/lobby_contract.rs`, `src/player_contract.rs`, the services and the integration tests are not part of this model.
- **Strings.** Names are UTF-8 bytes, so `len()` counts bytes. Log messages and `Debug` formatting are left out.
- **ClaimTimeout** follows the code: any authenticated owner who is not the one to move can claim a timed-out battle, even one who is not in the battle.
- **AddPrediction** follows the code: a second prediction by the same predictor replaces the entry, but its first amount stays in the pools.
- BattleTypes.WellFormed: is required of both snapshots (through `Armed`) by every engine operation, with three bounds:
  - `min_damage <= max_damage`, because the base draw over an empty range would panic.
  - `attack_bps >= -10000`. Below it the attack modifier at src/battle_contract.rs:356-357 makes the `i128` damage negative, and `as u128` wraps it silently to a huge value. The model does not capture that wrap.
  - a crit threshold `crit_chance + max(crit_bps, 0)` within `u16`, because the sum would overflow.
  - no bound covers the three `u32` truncations of the damage (the cast at src/battle_contract.rs:422, `damage / 4` at :301, `damage * 4 / 10` at :320); the model returns the untruncated values, as the integer-widths item says.
- BattleEngine.BattleSession.SubmitTurn: models the corrected submission, which runs the turn only for a participant's submission (first row of Findings). The code as written, which runs it for anyone's, is `SubmitTurnAsWritten`. `SubmitAgreesForParticipants` proves the two identical for every submission signed by player1 or player2, which are the only signers the lobby gives the battle chain (src/lobby_contract.rs:261-271), so the difference shows only for a signer the deployment excludes.
- DiceContract.CreditedFacts: states the corrected effect (second row of Findings). A player with no profile is stored under its own owner, where the code keeps `Reserved(9)`. The code as written is `CreditedAsWritten`, and `AsWrittenLosesOwner` shows the difference.
- DiceContract.CreditProfile: one iteration of the corrected effect loop, so a default profile takes the player's owner rather than keeping `Reserved(9)`.
- DiceContract.EffectsOnTwoPlayers: is about the corrected effects; as written (`SettledAsWritten`) the credited default profile would keep owner `Reserved(9)`.
- DiceContract.DiceGame.ApplySettlementEffects: applies the corrected effects; `DiceGame.Valid`'s `Keyed` conjunct, which it keeps, holds only for the corrected code.
- DiceContract.DiceGame.SettleMatch: settles with the corrected effects, so a player with no profile is not stored with owner `Reserved(9)` as the code stores it.
- DiceContract.DiceGame.Conclude: applies the corrected effects, like `SettleMatch`.
- **Level 0.** `FighterTier::from_level` and `MatchmakingTier::from_level` map level 0 to the top tier, as the code does. `execute_strike` would divide by zero for a level-0 attacker, so `ExecuteStrike` requires a level of at least 1, which every registered fighter has.

## Findings

| source | as written | input that shows it | evidently intended | confidence | as-written member | corrected member |
|---|---|---|---|---|---|---|
| src/battle_contract.rs:130-151 | a submission into an empty slot by anyone runs the turn whenever both players' slots for that turn are filled, even if they were filled before | after a turn has run (its submissions are never removed until the round closes), a signer who is not a player submits into the same slot: the turn runs again and draws more values. The battle chain's ownership names only the two players (src/lobby_contract.rs:261-271), so this signer is excluded as deployed; the check lives only in that ownership, not in the battle code | the turn runs once, on the submission that completes the pair, by a participant | low: reachable only by a signer outside the chain's two owners, not executed | BattleEngine.SubmitReplaysFilledSlot | BattleEngine.SubmitRunsOnlyOnCompletion |
| src/contract.rs:226 | a profile is claimed when its owner is `Reserved(4)`, but the default profile's owner is `Reserved(9)` (src/state.rs:33) | `settle_match` for a player with no profile: the stored profile keeps owner `Reserved(9)` | a default profile is claimed by the player it is stored under | high, not executed | DiceContract.AsWrittenLosesOwner | DiceContract.EffectsKeepKeyed |
