# Cubeverse battle game — a verified model of its turn engine

Cubeverse is a React speedcubing battle game. The player types in a solve
time, an opponent's time is drawn, and the faster side hits the slower one.
The hit is `Math.round(diff × multiplier + 5)`, and HP is clamped at 0. The
game has four modes:

- a single-player duel with a combo streak and three Tymon assists;
- a local two-player duel (PvP) in which each side has its own combo;
- a cooperative boss fight with a per-round bonus task;
- an endless infinite mode against AI opponents, each with a quirk, where
  power-ups are collected every second round.

A separate speedcubing timer component drives solves with the Space key.

The model is in Dafny, with one module per part of the engine:

| module | file | models |
|---|---|---|
| `Rules` | `rules.dfy` | the constants `MAX_HP = 50` and `INITIAL_TYMON_COUNT = 3`, `Math.round`, `Math.ceil(d/2)`, the clamped hit and the hit formula |
| `Duel` | `duel.dfy` | the single-player and PvP round resolvers, and the game-over check |
| `Coop` | `coop.dfy` | the boss turn as a specification function; the hit loop and the whole turn are methods proved against it; the bonus task draw |
| `Infinite` | `infinite.dfy` | quirks, power-ups, the ordered damage chain, round progression, power-up offers and picks |
| `InfiniteScreen` | `infinite_screen.dfy` | the AI-time hint, the submit-time prediction and the submit validation of the infinite battle screen |
| `Game` | `game.dfy` | the `App` component: one step function per handler on the state record `GameView`, and a class `Game` whose methods are proved to perform those steps |
| `CSTimer` | `cstimer.dfy` | the timer's phase machine as a step function, and a class `Timer` with one method per key or timeout event |

Modelling choices:

- Times are exact `real`s.
- Every random draw is a parameter of the handler that makes it:
  - the opponent, boss, AI and Tymon times;
  - the AI's quirk;
  - the two draws of the coop task;
  - the shuffled power-up pool.
- "The scramble table is loaded" is a boolean.
- The damage multiplier is any real. The configuration screen accepts any
  number, so the resolvers do not require it to be non-negative; lemmas that
  need that say so.
- The `App` component's state variables are held by `Game.Game` in four
  record fields: screen flow (`ctl`), the duel fighters (`combat`), the coop
  party (`party`) and the infinite run (`run`). Each handler reassigns the
  groups it writes.
- A handler's step function gives the state after all of its setters have
  applied. Where the code reads a value captured before the handler ran,
  the step reads the old value too; for example, the new AI's HP is computed
  from the old round number.
- The follow-up timeouts of a handler are applied at its end:
  - `processing` is cleared after 50 ms;
  - `startInfiniteRound` runs after 0, 300 or 1000 ms.
- `InfiniteScreen.CanSubmit` is the positive-number test of
  `src/components/InfiniteBattleScreen.jsx:87-88`. The same test disables
  the submit button at line 113.

Behaviour of the code that its own in-game descriptions (the `desc`
strings at `src/App.jsx:33-57`) do not tell:

- Shield's description reads "Block all damage next round." Halve, +10 and
  Shield are decided by the raw time comparison, and the reverse quirk then
  flips only the winner. So under reverse a faster player with a Shield
  takes the full hit (`Infinite.ReverseDefeatsShield`).
- Lucky Hit's description reads "First hit this round deals +10 bonus
  damage." The code adds the 10 to the first hit against that AI whichever
  side takes it, once per AI (`Infinite.LuckyHitOncePerAI`).
- The infinite setup screen's start button resets the round but not the HP.

## Model

| member | source | states |
|---|---|---|
| Rules.Round | src/App.jsx:199 | `Math.round`: the integer within half of x, with halves rounding up |
| Rules.CeilHalf | src/App.jsx:476 | `Math.ceil(d / 2)`: the least r with 2r ≥ d |
| Rules.AfterHit | src/App.jsx:203 | `Math.max(0, hp - damage)`: never below 0, and either 0 or exactly hp − damage |
| Rules.HitDamage | src/App.jsx:198-199 | the hit is diff × mult + 5 rounded; it is at least 5 when the gap and the multiplier are non-negative |
| Rules.HitDamageMonotonic | src/App.jsx:198-199 | for every non-negative multiplier, the hit for a larger time gap is at least the hit for a smaller one |
| Rules.AfterHitTwice | src/App.jsx:363-368 | two successive clamped non-negative hits equal one clamped hit of their sum |
| Duel.Faster | src/App.jsx:196-234 | Player iff strictly faster, Enemy iff strictly slower, Tie iff equal times |
| Duel.ResolveTurn | src/App.jsx:196-233 | a win raises the combo by 1, and the enemy loses the hit plus the new combo, clamped; a loss costs the player the plain hit and resets the combo; a tie changes nothing |
| Duel.ResolveDuel | src/App.jsx:766-799 | the faster side's own combo grows by 1 and is added to its hit; the loser's combo becomes 0; only the loser's HP changes, clamped; a tie changes nothing |
| Duel.EndingOf | src/App.jsx:244-245 | the game continues iff both HPs are above 0; it is a defeat iff the player's HP is at or below 0, so a double knock-out is a defeat |
| Duel.TurnKeepsHPInRange | src/App.jsx:196-233 | with a non-negative multiplier, HP never rises or goes below 0, and a decided round deals at least 5 |
| Duel.DuelIsSymmetric | src/App.jsx:766-799 | exchanging the two PvP players exchanges the outcome |
| Duel.DuelExtendsTurn | src/App.jsx:766-799 | PvP equals the single-player round when player 1 wins or ties; player 2's hit carries player 2's new combo on top of the enemy's hit |
| Duel.AlternatingComboOscillates | src/App.jsx:196-224 | alternating 1-second wins and losses at multiplier 5 keeps the combo at 1, 0, 1, …; each win takes 11 HP and each loss 10 |
| Coop.BossStartHP | src/App.jsx:324 | the boss starts with MAX_HP per player |
| Coop.AliveIndices | src/App.jsx:346 | exactly the indices of players with HP above 0, in increasing order |
| Coop.TimesAt | src/App.jsx:347 | the alive players' times, in the alive players' order |
| Coop.Slowest | src/App.jsx:352-353 | the position of the maximum time, the first among equals; None iff there are no times |
| Coop.BossTarget | src/App.jsx:391-394 | the boss hits only an alive player that is slower than the boss, has the slowest alive time and is the lowest index with it; with no target, no alive player is slower than the boss |
| Coop.SlowestAliveTime | src/App.jsx:352-353 | the player found by `find` has the maximum alive time, and every alive player before it is strictly faster |
| Coop.BossAfterHits | src/App.jsx:363-371 | from a non-negative start, the boss HP after the one-by-one clamped hits is never negative, and with a non-negative multiplier never above the start |
| Coop.AfterTask | src/App.jsx:383-384 | without the bonus task the boss HP is unchanged; with it the boss loses exactly 5, or drops to 0 from at most 5 |
| Coop.HitTotal | src/App.jsx:363-371 | the sum of the faster alive players' hits is non-negative for a non-negative multiplier |
| Coop.HitTarget | src/App.jsx:391-394 | only the target's HP changes, to its clamped HP after the boss's hit |
| Coop.EndingOf | src/App.jsx:407-415 | the boss is defeated iff its HP is at or below 0; the players are defeated iff the boss is not defeated and every player is at or below 0 |
| Coop.CoopOutcome | src/App.jsx:346-415 | the boss turn keeps the number of players, changes only alive players' HP (never below 0), and never makes the boss HP negative |
| Coop.HitBoss | src/App.jsx:363-371 | the `forEach` loop over the alive players computes the boss HP of the specification |
| Coop.ResolveCoopTurn | src/App.jsx:332-419 | the boss turn as the code performs it (hit loop, task check, boss hit, ending) equals the specification `CoopOutcome` |
| Coop.BossAfterHitsIsClampedTotal | src/App.jsx:363-371 | the one-by-one clamped hits equal one clamped subtraction of the sum of the hits |
| Coop.HitsThenTask | src/App.jsx:363-385 | the hits followed by the bonus-task reward equal one clamped subtraction of the hits plus 5 |
| Coop.CoopBossDamage | src/App.jsx:363-385 | the boss loses exactly the alive faster players' hits plus 5 when the bonus task is achieved, clamped at 0 |
| Coop.CoopPlayersHit | src/App.jsx:389-394 | only the boss's target loses HP; eliminated players are neither hit nor targeted; no HP rises or goes below 0 |
| Coop.CoopIgnoresEliminatedTimes | src/App.jsx:346-347 | the times entered for eliminated players never change the turn |
| Coop.TaskAchieved | src/App.jsx:372-382 | no task is never achieved; the average task fails with nobody alive and the identical task then holds vacuously; an achieved identical task also has the mean within 0.5 of the target |
| Coop.MeanWithin | src/App.jsx:373-382 | times each within d of the target have their mean within d of the target |
| Coop.AverageTaskExample | src/App.jsx:373-382 | worked cases: the average task is met within 0.3 and missed beyond it; the identical task is met within 0.5 and missed beyond it |
| Coop.GenerateCoopTask | src/App.jsx:291-304 | an average task iff the first draw is below 0.5; its target is in [10, 15] with one decimal; an identical target is a whole number in [10, 15] |
| Infinite.BaseHit | src/App.jsx:469 | the infinite-mode base hit is at least 5 |
| Infinite.ResolveClash | src/App.jsx:455-502 | freeze fixes the AI time at 12; the player wins iff strictly faster, flipped by reverse; the damage is never negative; the lucky hit is used once; combo breaker resets the combo; the damage of each step is fixed by the lemmas below |
| Infinite.AITime | src/App.jsx:456-460 | the AI's time is 12.00 under freeze, whatever was sampled, and the sampled time otherwise |
| Infinite.Advance | src/App.jsx:503-534 | only the loser loses HP; the run is over iff the player is at or below 0; otherwise a cleared AI advances the round by 1, gives the next AI 50 + 5 × old round HP, and offers power-ups iff the new round is even |
| Infinite.KeepPersistent | src/App.jsx:536 | after a turn exactly the persistent power-ups remain, each as often as before |
| Infinite.OfferPowerUps | src/App.jsx:59-63 | any shuffle of the pool offers three different power-ups |
| Infinite.PoolCountsOnce | src/App.jsx:50-57 | every power-up appears exactly once in the pool |
| Infinite.PickEffect | src/App.jsx:551-552 | Heal20 sets HP to min(HP + 20, MAX_HP), so from at most MAX_HP it never lowers HP; PermCombo adds exactly 1 to the permanent bonus; other picks change neither |
| Infinite.PlainClashIsBaseFormula | src/App.jsx:468-469 | without power-ups, bonus or quirk, the hit is the base formula at multiplier 5, and a tie is a loss |
| Infinite.NoQuirkDamage | src/App.jsx:468-481 | without a quirk, a win deals base + bonus (+10 with +10), a loss deals 0 with Shield, else base + bonus halved up with Halve, else base + bonus; +10 only on a win, Halve and Shield only on a loss |
| Infinite.PermBonusOnPlainHit | src/App.jsx:468-470 | without a quirk or a one-turn power-up, the hit is the base hit plus the permanent combo bonus |
| Infinite.FreezeIsNoQuirkAt12 | src/App.jsx:456-470 | under freeze the damage and the winner are those of a quirk-less turn against 12.00, whatever the sampled time |
| Infinite.ComboBreakerDamageIsNoQuirk | src/App.jsx:468-502 | combo breaker deals the quirk-less damage to the quirk-less loser; it only resets the combo |
| Infinite.ShieldBlocksAllButLuckyHit | src/App.jsx:482-502 | a shield on a lost comparison leaves exactly the unused lucky hit's 10, and otherwise 0 |
| Infinite.ReverseFlipsWinnerOnly | src/App.jsx:490-493 | reverse deals the quirk-less damage and only flips who takes it |
| Infinite.ReverseDefeatsShield | src/App.jsx:482-493 | under reverse, a faster player with a shield loses and takes at least 5 plus the permanent bonus |
| Infinite.DoubleDamageDoubles | src/App.jsx:486-489 | double damage doubles the quirk-less damage and keeps the winner |
| Infinite.HalveBeforeBonuses | src/App.jsx:470-477 | halving applies to base plus permanent bonus, rounded up |
| Infinite.Plus10OnWin | src/App.jsx:478-481 | a won hit with +10 is base plus permanent bonus plus 10 |
| Infinite.LuckyHitOncePerAI | src/App.jsx:498-502 | the lucky hit adds 10 on the first turn against an AI and nothing on the next |
| Infinite.ClearedRoundScalesAIHP | src/App.jsx:517-523 | a cleared round gives the next AI 50 + 5 × (new round − 1) HP, at least 55 from round 1, and the player is alive |
| Infinite.SlowerPlayerLosesAsInDuel | src/App.jsx:468-511 | a slower plain player loses exactly the single-player enemy hit at multiplier 5; a tie costs 5 here and nothing in a duel |
| InfiniteScreen.PredictedAITime | src/components/InfiniteBattleScreen.jsx:90 | the predicted AI time is 12.00 under freeze and otherwise 12 + round |
| InfiniteScreen.AITimeHint | src/components/InfiniteBattleScreen.jsx:35-38 | the hint is shown iff the See AI Time flag is set and an AI exists, and then it is the predicted time |
| InfiniteScreen.PredictWin | src/components/InfiniteBattleScreen.jsx:90-92 | a predicted win iff faster than the predicted time, flipped by reverse |
| InfiniteScreen.CanSubmit | src/components/InfiniteBattleScreen.jsx:87-88 | a time is accepted iff it parses to a number above 0, exactly when the submit button at line 113 is enabled |
| InfiniteScreen.Submit | src/components/InfiniteBattleScreen.jsx:85-97 | input is ignored iff it is not a number above 0; an accepted time carries the prediction; the input is cleared exactly when a time is accepted |
| InfiniteScreen.PredictionMatchesResolver | src/components/InfiniteBattleScreen.jsx:90-94 | the prediction equals the real outcome under freeze, or when the sample equals the predicted time |
| InfiniteScreen.PredictionCanMiss | src/components/InfiniteBattleScreen.jsx:90-92 | without freeze the prediction can be wrong: 12.5 in round 1 is predicted a win but loses to 12.0 |
| Game.Conclude | src/App.jsx:244-259 | a game-over message sets the game-over screen and leaves `processing` set; otherwise `processing` is cleared |
| Game.LoadStep | src/App.jsx:130-142 | turns are enabled iff the scramble table has rows; nothing else changes |
| Game.NewAI | src/App.jsx:445-449 | a new AI has the drawn quirk and an unused lucky hit; nothing else in the run changes |
| Game.NameStep | src/App.jsx:308-320 | the chosen mode leads to its setup screen; infinite mode also draws its first AI; fighters and party are unchanged |
| Game.ConfigStep | src/App.jsx:421-438 | a fresh battle: both HPs at MAX_HP, all combos 0, three assists, no message, not processing, the chosen multiplier |
| Game.TurnStep | src/App.jsx:161-260 | no change while processing or before the table loads; otherwise the round is resolved, and the game ends iff either HP is at or below 0 (a defeat whenever the player is); only a continuing game clears `processing`; the state stays sane |
| Game.TymonFires | src/App.jsx:282 | an assist fires only with one left, so the count never goes below 0, and only when the turn's own guard lets it through |
| Game.TymonStep | src/App.jsx:278-288 | an assist fires only with assists left, while not processing and with the table loaded; it uses exactly one and plays an ordinary turn with Tymon's time; otherwise nothing changes |
| Game.DuelStep | src/App.jsx:756-818 | no change while processing; otherwise the PvP round is applied and the game ends iff either HP is at or below 0, with player 1 checked first |
| Game.CoopStartStep | src/App.jsx:322-329 | every player starts at MAX_HP, the boss at MAX_HP per player, with a drawn task |
| Game.CoopStep | src/App.jsx:332-419 | no change while processing or before the table loads; otherwise the boss turn is applied, a new task is always drawn, and the boss's defeat is checked before the players' |
| Game.StartInfiniteStep | src/App.jsx:573-578 | the run restarts at round 1 on the battle screen; HP is untouched |
| Game.AfterClash | src/App.jsx:503-536 | the resolved turn's HP, round and combo are applied; a lost run ends with its message; a cleared round either offers power-ups or draws the next AI; one-shot power-ups are removed |
| Game.InfiniteStep | src/App.jsx:452-537 | no change before an AI exists; otherwise the turn against the current AI is resolved and applied |
| Game.InfiniteTurnKeepsSane | src/App.jsx:503-536 | an infinite turn never raises a non-negative player HP, removes exactly the one-shot power-ups, and keeps the state sane |
| Game.PickStep | src/App.jsx:549-558 | the pick joins the active list and takes its immediate effect; the offer closes and the next AI is drawn on the battle screen |
| Game.GameOverLocksBattle | src/App.jsx:244-259 | once a turn ends the game, further turns and assists change nothing |
| Game.AssistsAreCounted | src/App.jsx:278-288 | over any sequence of turns and assists, assists fired plus assists left is the starting count |
| Game.AtMostThreeAssists | src/App.jsx:278-288 | after the configuration screen, Tymon helps at most three times in a battle |
| Game.OneShotLastsOneTurn | src/App.jsx:536 | a picked one-shot power-up is active for exactly the next turn, and Heal20 and PermCombo stay |
| Game.ClearingARound | src/App.jsx:517-534 | after a cleared round the player is alive and the next AI has 50 + 5 × old round HP; an even new round offers three different power-ups; otherwise the next AI is drawn |
| Game.Game.constructor | src/App.jsx:67-117 | the initial state: both HPs at MAX_HP, three assists, multiplier 5, a boss of 2 × MAX_HP, round 1, no AI |
| Game.Game.LoadData | src/App.jsx:130-142 | performs `LoadStep` and keeps the state sane |
| Game.Game.NameEntered | src/App.jsx:308-320 | performs `NameStep` and keeps the state sane |
| Game.Game.ConfigStart | src/App.jsx:421-438 | performs `ConfigStep` and keeps the state sane |
| Game.Game.Finish | src/App.jsx:244-259 | applies `Conclude` to the screen flow and nothing else, so it keeps the state sane |
| Game.Game.ProcessTurn | src/App.jsx:161-260 | performs `TurnStep` and keeps the state sane |
| Game.Game.UseTymon | src/App.jsx:278-288 | performs `TymonStep` and keeps the state sane |
| Game.Game.ProcessMultiplayerTurn | src/App.jsx:756-818 | performs `DuelStep` and keeps the state sane |
| Game.Game.CoopStart | src/App.jsx:322-329 | performs `CoopStartStep` and keeps the state sane |
| Game.Game.ProcessCoopTurn | src/App.jsx:332-419 | performs `CoopStep` and keeps the state sane |
| Game.Game.StartInfiniteRound | src/App.jsx:445-449 | applies `NewAI` to the run and nothing else, so it keeps the state sane |
| Game.Game.StartInfiniteBattle | src/App.jsx:573-578 | performs `StartInfiniteStep` and keeps the state sane |
| Game.Game.ProcessInfiniteTurn | src/App.jsx:452-537 | performs `InfiniteStep` and keeps the state sane |
| Game.Game.ApplyClash | src/App.jsx:503-536 | performs `AfterClash`; an internal step of `ProcessInfiniteTurn`, which re-establishes sanity |
| Game.Game.PickPowerUp | src/App.jsx:549-558 | performs `PickStep` and keeps the state sane |
| CSTimer.Step | src/components/CSTimerUI.jsx:28-63 | other keys change nothing; a solve is reported iff Space is pressed while running, as the elapsed seconds, prepended to the history and stopping the timer; otherwise the history is unchanged; the hold timeout is armed exactly in Hold |
| CSTimer.StepTable | src/components/CSTimerUI.jsx:28-81 | every event either leaves the timer unchanged or is one of the six transitions Idle→Hold, Hold→Ready, Hold→Idle, Ready→Running (recording the start), Running→Stopped, Stopped→Idle |
| CSTimer.Run | src/components/CSTimerUI.jsx:36-44 | a sequence of events reports at most one solve per event, and the final history is the reported solves, newest first, in front of the starting history |
| CSTimer.FullSolve | src/components/CSTimerUI.jsx:28-81 | press, hold timeout, release, press and reset timeout report exactly one time, the elapsed seconds, prepend it to the history and end in Idle |
| CSTimer.EarlyReleaseAborts | src/components/CSTimerUI.jsx:29-52 | releasing before the hold timeout returns to Idle; the cleared timeout then does nothing and no time is recorded |
| CSTimer.Displayed | src/components/CSTimerUI.jsx:101 | the five most recent times at most are shown, newest first |
| CSTimer.Timer.constructor | src/components/CSTimerUI.jsx:12-17 | the timer starts Idle with an empty history |
| CSTimer.Timer.KeyDown | src/components/CSTimerUI.jsx:27-46 | performs the key-down `Step` and returns the reported solve |
| CSTimer.Timer.KeyUp | src/components/CSTimerUI.jsx:47-64 | performs the key-up `Step` |
| CSTimer.Timer.HoldTimeout | src/components/CSTimerUI.jsx:32-35 | performs the hold-timeout `Step` |
| CSTimer.Timer.ResetTimeout | src/components/CSTimerUI.jsx:74-82 | performs the reset-timeout `Step` |

## Left out

- `normalRandom` (src/utils/gameLogic.js:2-8) uses floating-point logarithm and cosine on random draws. Every sampled time is a parameter instead.
- The random choices are parameters:
  - `getRandomAI`: the quirk is a parameter; the AI's name and avatar are not modelled.
  - `getRandomPowerUps`: the shuffled pool is a parameter.
  - `generateCoopTask`: its two uniform draws are parameters.
  - `getRandomRow`: not modelled.
- `POWER_UPS.sort` shuffles the shared constant array in place. The model takes the shuffle as a value, so it does not capture that the pool's order persists between offers.
- The CSV `fetch` and `Papa.parse` are I/O, reduced to the row count in `Game.Game.LoadData`. The real-solve option that reads the enemy time from a row is covered by the enemy time being a parameter.
- Presentation is not modelled:
  - audio;
  - the impact and floating-damage animations and the combo flash;
  - the stylesheet effect;
  - the current scramble;
  - the player and coop names;
  - `infinitePlayers`;
  - the HTML log strings of every handler.
- Timeout windows: the 50 ms before `processing` is cleared, and the 0, 300 and 1000 ms before the next AI is drawn, are applied at once. A handler that fires inside such a window is not modelled.
- React's batching of state updates is not modelled. Each step reads the state before the handler ran, as the code's captured values do.
- IEEE double rounding is not modelled; times are exact reals. `toFixed(1)` in the coop task draw and `toFixed(2)` in the hint are modelled as exact decimals.
- NaN times and multipliers are not modelled; every time and the multiplier are reals. NaN arises in these cases:
  - Coop: the coop path never visits the configuration screen, and the built-in difficulty settings (src/utils/gameLogic.js:15-25) define only `DAMAGE_MULTIPLIER`. So `normalRandom(undefined, undefined)` returns NaN for every boss time (src/App.jsx:338-344). Every comparison with NaN is false, so no hit lands either way and the bonus task is the only damage.
  - Single-player: the battle is reached only through `handleConfigStart` (src/App.jsx:421-436), which always installs the configuration screen's values. Real solves are on by default (src/components/ConfigScreen.jsx:7), so the enemy time is `parseFloat` of a row's `rest` (src/App.jsx:171-172). The mean and deviation fields start empty, because the built-in settings define neither, and an empty field parses to NaN (src/components/ConfigScreen.jsx:4-5, 14-15). So the enemy time is NaN when the player turns real solves off, or when a row has no `rest`, and leaves either field empty. A NaN enemy time makes the turn a tie.
  - An emptied multiplier field makes `DAMAGE_MULTIPLIER` NaN (src/components/ConfigScreen.jsx:16), and every hit is then NaN.
- The start screen (src/components/StartScreen.jsx:8) passes only a name, so `handleNameEntered` always selects single-player mode. `Game.NameStep` takes the mode as a parameter and models all three setup paths of src/App.jsx:308-320 as the handler defines them.
- The battle screen passes `processMultiplayerTurn` to `TurnInput` (src/components/BattleScreen.jsx:125), which calls it with one argument (src/components/TurnInput.jsx:12). The opponent's time is then undefined, and `enemyTime.toFixed(2)` at src/App.jsx:761 throws. `Game.DuelStep` takes both times as given; the failing call is not modelled.
- `parseFloat` of the input text is not modelled. `InfiniteScreen.Submit` receives the parsed value (None for NaN).
- The coop boss hit writes a player object shared with the previous player list (src/App.jsx:394). Nothing reads the old list afterwards, so the model works on values.
- Inside the timer, the display time and the `requestAnimationFrame` ticking are not modelled; the clock reading at each key event is a parameter.
- The infinite screen's 700 ms round-result banner is not modelled.
- `handlePlayAgain` reloads the page and is not modelled.
- `Game.Game.ProcessCoopTurn` requires as many times as players. The coop screen builds the times from the player list (src/App.jsx:643-645), so this always holds there.
