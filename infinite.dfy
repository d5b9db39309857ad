/**
 * Infinite mode: an endless run against AI opponents, each with one
 * quirk, while the player collects power-ups every second round.  A turn
 * applies a fixed, ordered chain of adjustments to the base hit; clearing
 * an AI advances the round and gives the next AI more HP.
 */
module Infinite {
  import opened Rules
  import Duel

  /** The AI quirks of src/App.jsx (AI_QUIRKS), by effect. */
  datatype Quirk = DoubleDamage | Reverse | Freeze | ComboBreaker | LuckyHit | NoQuirk

  /** The power-ups of src/App.jsx (POWER_UPS), by effect. */
  datatype PowerUp = Heal20 | HalveNextDamage | SeeAITime | PermCombo | Shield | Plus10Next

  /** The power-up pool in its declared order. */
  const PowerUpPool: seq<PowerUp> := [Heal20, HalveNextDamage, SeeAITime, PermCombo, Shield, Plus10Next]

  /** Power-ups that last one turn; Heal20 and PermCombo stay in the active list. */
  predicate OneShot(p: PowerUp)
  {
    p.HalveNextDamage? || p.SeeAITime? || p.Shield? || p.Plus10Next?
  }

  /** The AI's time: fixed at 12.00 under the freeze quirk, otherwise the sampled time. */
  function AITime(quirk: Quirk, sampled: real): (t: real)
    ensures quirk == Freeze ==> t == 12.0
    ensures quirk != Freeze ==> t == sampled
  {
    if quirk == Freeze then 12.0 else sampled
  }

  /** The base hit of infinite mode: multiplier 5 on the absolute time difference. */
  function BaseHit(playerTime: real, aiTime: real): (r: int)
    ensures r >= 5
  {
    HitDamage(Abs(playerTime - aiTime), 5.0)
  }

  /** What one infinite turn decides before HP is applied. */
  datatype Clash = Clash(aiTime: real, playerWins: bool, damage: int, quirkUsed: bool, comboReset: bool)

  /**
   * The ordered damage chain of src/App.jsx processInfiniteTurn: the
   * base hit (multiplier 5, a tie counts as a loss), the permanent combo
   * bonus, Halve when losing, +10 when winning, Shield when losing, the
   * doubling quirk, then the reverse quirk flips the winner (after every
   * win-dependent step), then the lucky hit adds 10 once per AI.
   */
  function ResolveClash(playerTime: real, sampledAITime: real, permComboBonus: nat,
                        active: seq<PowerUp>, quirk: Quirk, quirkUsed: bool): (c: Clash)
    ensures c.damage >= 0
    ensures quirk == Freeze ==> c.aiTime == 12.0
    ensures quirk != Freeze ==> c.aiTime == sampledAITime
    ensures c.playerWins <==> (if quirk == Reverse then playerTime >= c.aiTime else playerTime < c.aiTime)
    ensures c.quirkUsed <==> quirkUsed || quirk == LuckyHit
    ensures c.comboReset <==> quirk == ComboBreaker
  {
    var aiTime := AITime(quirk, sampledAITime);
    var fasterWins := playerTime < aiTime;
    var base := BaseHit(playerTime, aiTime) + permComboBonus;
    var halved := if HalveNextDamage in active && !fasterWins then CeilHalf(base) else base;
    var boosted := if Plus10Next in active && fasterWins then halved + 10 else halved;
    var shielded := if Shield in active && !fasterWins then 0 else boosted;
    var doubled := if quirk == DoubleDamage then shielded * 2 else shielded;
    var playerWins := if quirk == Reverse then !fasterWins else fasterWins;
    var lucky := quirk == LuckyHit && !quirkUsed;
    var damage := if lucky then doubled + 10 else doubled;
    Clash(aiTime, playerWins, damage, quirkUsed || lucky, quirk == ComboBreaker)
  }

  /** How a run goes on after a turn. */
  datatype RunStatus = Fighting | RunOver | RoundCleared(offerPowerUps: bool)

  datatype Progress = Progress(playerHP: int, aiHP: int, round: int, status: RunStatus)

  /**
   * Applying a clash: only the (possibly reversed) loser loses HP, clamped
   * at 0.  The player at 0 ends the run; otherwise the AI at 0 clears the
   * round: the round grows by 1, the next AI gets 50 + 5 x (old round) HP,
   * and power-ups are offered when the new round is even.
   */
  function Advance(playerHP: int, aiHP: int, round: int, c: Clash): (p: Progress)
    ensures c.playerWins ==> p.playerHP == playerHP
    ensures !c.playerWins ==> p.playerHP == AfterHit(playerHP, c.damage)
    ensures p.status == RunOver <==> p.playerHP <= 0
    ensures p.status.RoundCleared? <==> p.playerHP > 0 && (if c.playerWins then AfterHit(aiHP, c.damage) else aiHP) <= 0
    ensures p.status.RoundCleared? ==> p.round == round + 1 && p.aiHP == MAX_HP + 5 * round
    ensures p.status.RoundCleared? ==> (p.status.offerPowerUps <==> (round + 1) % 2 == 0)
    ensures !p.status.RoundCleared? ==> p.round == round && p.aiHP == (if c.playerWins then AfterHit(aiHP, c.damage) else aiHP)
  {
    var nextPlayerHP := if c.playerWins then playerHP else AfterHit(playerHP, c.damage);
    var nextAIHP := if c.playerWins then AfterHit(aiHP, c.damage) else aiHP;
    if nextPlayerHP <= 0 then Progress(nextPlayerHP, nextAIHP, round, RunOver)
    else if nextAIHP <= 0 then Progress(nextPlayerHP, MAX_HP + 5 * round, round + 1, RoundCleared((round + 1) % 2 == 0))
    else Progress(nextPlayerHP, nextAIHP, round, Fighting)
  }

  /** The active power-ups after a turn: the one-shot ones are removed, the rest kept, each as often as before. */
  function KeepPersistent(active: seq<PowerUp>): (r: seq<PowerUp>)
    ensures forall p :: p in r <==> p in active && !OneShot(p)
    ensures forall p :: !OneShot(p) ==> multiset(r)[p] == multiset(active)[p]
    ensures |r| <= |active|
  {
    if active == [] then []
    else
      var rest := KeepPersistent(active[1..]);
      assert active == [active[0]] + active[1..];
      if OneShot(active[0]) then rest else [active[0]] + rest
  }

  /**
   * `getRandomPowerUps()`: the first three of a shuffle of the pool. The
   * shuffle is an input; whatever it is, three different power-ups are
   * offered.
   */
  function OfferPowerUps(shuffled: seq<PowerUp>): (offer: seq<PowerUp>)
    requires multiset(shuffled) == multiset(PowerUpPool)
    ensures |offer| == 3
    ensures forall i, j :: 0 <= i < j < 3 ==> offer[i] != offer[j]
  {
    assert |shuffled| == 6 by { assert |multiset(shuffled)| == |multiset(PowerUpPool)|; }
    forall i, j | 0 <= i < j < 3 ensures shuffled[i] != shuffled[j] {
      if shuffled[i] == shuffled[j] {
        TwiceCounted(shuffled, i, j);
        PoolCountsOnce(shuffled[i]);
      }
    }
    shuffled[..3]
  }

  lemma TwiceCounted(s: seq<PowerUp>, i: nat, j: nat)
    requires i < j < |s| && s[i] == s[j]
    ensures multiset(s)[s[i]] >= 2
  {
    assert s == s[..j] + s[j..];
    assert s[i] in s[..j];
    assert s[j] in s[j..];
  }

  lemma PoolCountsOnce(p: PowerUp)
    ensures multiset(PowerUpPool)[p] == 1
  {
    match p
    case Heal20 =>
    case HalveNextDamage =>
    case SeeAITime =>
    case PermCombo =>
    case Shield =>
    case Plus10Next =>
  }

  /** What picking a power-up changes besides the active list. */
  datatype Picked = Picked(playerHP: int, permComboBonus: nat)

  /**
   * The power-up button: Heal20 restores 20 HP but never above MAX_HP,
   * PermCombo adds 1 to the permanent combo bonus; the others take effect
   * in the next turn through the active list.
   */
  function PickEffect(pu: PowerUp, playerHP: int, permComboBonus: nat): (r: Picked)
    ensures pu == Heal20 ==> r.playerHP == Min(playerHP + 20, MAX_HP)
    ensures pu == Heal20 && playerHP <= MAX_HP ==> playerHP <= r.playerHP <= MAX_HP
    ensures pu != Heal20 ==> r.playerHP == playerHP
    ensures r.permComboBonus == permComboBonus + (if pu == PermCombo then 1 else 0)
  {
    var hp := if pu == Heal20 then Min(playerHP + 20, MAX_HP) else playerHP;
    var bonus := if pu == PermCombo then permComboBonus + 1 else permComboBonus;
    Picked(hp, bonus)
  }

  /**
   * Without power-ups, permanent bonus or quirk, an infinite turn is the
   * base formula with multiplier 5, and a tie is a loss for the player.
   */
  lemma PlainClashIsBaseFormula(playerTime: real, sampledAITime: real, active: seq<PowerUp>, quirkUsed: bool)
    requires HalveNextDamage !in active && Plus10Next !in active && Shield !in active
    ensures var c := ResolveClash(playerTime, sampledAITime, 0, active, NoQuirk, quirkUsed);
      && c.damage == HitDamage(Abs(playerTime - sampledAITime), 5.0)
      && (c.playerWins <==> playerTime < sampledAITime)
  {
  }

  /**
   * The permanent combo bonus is added to every plain hit: without a
   * quirk or a one-turn power-up, the loser takes the base hit plus the
   * bonus.
   */
  lemma PermBonusOnPlainHit(playerTime: real, sampledAITime: real, permComboBonus: nat,
                            active: seq<PowerUp>, quirkUsed: bool)
    requires HalveNextDamage !in active && Plus10Next !in active && Shield !in active
    ensures ResolveClash(playerTime, sampledAITime, permComboBonus, active, NoQuirk, quirkUsed).damage
      == BaseHit(playerTime, sampledAITime) + permComboBonus
  {
  }

  /**
   * The whole power-up part of the chain without a quirk: a won
   * comparison deals the base hit plus the permanent bonus, plus 10 with
   * +10; a lost one deals nothing with a shield, and otherwise that sum,
   * halved and rounded up with Halve.  +10 applies only to a win, Halve
   * and Shield only to a loss.
   */
  lemma NoQuirkDamage(playerTime: real, sampledAITime: real, permComboBonus: nat,
                      active: seq<PowerUp>, quirkUsed: bool)
    ensures var b := BaseHit(playerTime, sampledAITime) + permComboBonus;
      ResolveClash(playerTime, sampledAITime, permComboBonus, active, NoQuirk, quirkUsed).damage
      == if playerTime < sampledAITime then b + (if Plus10Next in active then 10 else 0)
         else if Shield in active then 0
         else if HalveNextDamage in active then CeilHalf(b)
         else b
  {
  }

  /**
   * Freeze deals exactly what a quirk-less turn against a 12.00 time
   * deals: the sampled time plays no part.
   */
  lemma FreezeIsNoQuirkAt12(playerTime: real, sampledAITime: real, permComboBonus: nat,
                            active: seq<PowerUp>, quirkUsed: bool)
    ensures var f := ResolveClash(playerTime, sampledAITime, permComboBonus, active, Freeze, quirkUsed);
      var n := ResolveClash(playerTime, 12.0, permComboBonus, active, NoQuirk, quirkUsed);
      f.damage == n.damage && f.playerWins == n.playerWins && f.aiTime == n.aiTime
  {
  }

  /**
   * Combo Breaker changes no damage and no winner: its only effect is
   * the reset of the combo counter.
   */
  lemma ComboBreakerDamageIsNoQuirk(playerTime: real, sampledAITime: real, permComboBonus: nat,
                                    active: seq<PowerUp>, quirkUsed: bool)
    ensures var b := ResolveClash(playerTime, sampledAITime, permComboBonus, active, ComboBreaker, quirkUsed);
      var n := ResolveClash(playerTime, sampledAITime, permComboBonus, active, NoQuirk, quirkUsed);
      b.damage == n.damage && b.playerWins == n.playerWins && b.comboReset && !n.comboReset
  {
  }

  /**
   * A shield blocks the whole hit of a lost comparison, whatever halving,
   * bonus or doubling applies; only the lucky hit, applied last, lands.
   */
  lemma ShieldBlocksAllButLuckyHit(playerTime: real, sampledAITime: real, permComboBonus: nat,
                                   active: seq<PowerUp>, quirk: Quirk, quirkUsed: bool)
    requires Shield in active && playerTime >= AITime(quirk, sampledAITime)
    ensures ResolveClash(playerTime, sampledAITime, permComboBonus, active, quirk, quirkUsed).damage
      == (if quirk == LuckyHit && !quirkUsed then 10 else 0)
  {
  }

  /**
   * Reverse flips only who loses HP: the amount is what the same turn
   * without a quirk would deal, so power-ups keyed to losing (Halve,
   * Shield) follow the time comparison, not the reversed outcome.
   */
  lemma ReverseFlipsWinnerOnly(playerTime: real, sampledAITime: real, permComboBonus: nat,
                               active: seq<PowerUp>, quirkUsed: bool)
    ensures var r := ResolveClash(playerTime, sampledAITime, permComboBonus, active, Reverse, quirkUsed);
      var n := ResolveClash(playerTime, sampledAITime, permComboBonus, active, NoQuirk, quirkUsed);
      r.damage == n.damage && r.playerWins == !n.playerWins
  {
  }

  /**
   * Under Reverse a shield does not protect a player who was faster: the
   * player takes the full (boosted) hit.
   */
  lemma ReverseDefeatsShield(playerTime: real, sampledAITime: real, permComboBonus: nat, active: seq<PowerUp>, quirkUsed: bool)
    requires Shield in active && playerTime < sampledAITime
    ensures var c := ResolveClash(playerTime, sampledAITime, permComboBonus, active, Reverse, quirkUsed);
      !c.playerWins && c.damage >= 5 + permComboBonus
  {
  }

  /** The doubling quirk doubles the hit after every power-up adjustment. */
  lemma DoubleDamageDoubles(playerTime: real, sampledAITime: real, permComboBonus: nat,
                            active: seq<PowerUp>, quirkUsed: bool)
    ensures var d := ResolveClash(playerTime, sampledAITime, permComboBonus, active, DoubleDamage, quirkUsed);
      var n := ResolveClash(playerTime, sampledAITime, permComboBonus, active, NoQuirk, quirkUsed);
      d.damage == 2 * n.damage && d.playerWins == n.playerWins
  {
  }

  /**
   * Halve applies to the base hit plus the permanent bonus (rounded up),
   * before the +10 of a win could be added.
   */
  lemma HalveBeforeBonuses(playerTime: real, sampledAITime: real, permComboBonus: nat, active: seq<PowerUp>)
    requires HalveNextDamage in active && Shield !in active && playerTime >= sampledAITime
    ensures var c := ResolveClash(playerTime, sampledAITime, permComboBonus, active, NoQuirk, false);
      && !c.playerWins
      && c.damage == CeilHalf(BaseHit(playerTime, sampledAITime) + permComboBonus)
      && 2 * c.damage >= BaseHit(playerTime, sampledAITime) + permComboBonus
  {
  }

  /** +10 is added to a won hit, on top of the base hit and the permanent bonus. */
  lemma Plus10OnWin(playerTime: real, sampledAITime: real, permComboBonus: nat, active: seq<PowerUp>)
    requires Plus10Next in active && playerTime < sampledAITime
    ensures var c := ResolveClash(playerTime, sampledAITime, permComboBonus, active, NoQuirk, false);
      c.playerWins && c.damage == BaseHit(playerTime, sampledAITime) + permComboBonus + 10
  {
  }

  /**
   * The lucky hit lands once per AI: a second turn against the same AI
   * deals what a quirk-less turn deals, 10 less than it would with the
   * bonus still unused.
   */
  lemma LuckyHitOncePerAI(t1: real, s1: real, t2: real, s2: real, permComboBonus: nat, a1: seq<PowerUp>, a2: seq<PowerUp>)
    ensures var first := ResolveClash(t1, s1, permComboBonus, a1, LuckyHit, false);
      var second := ResolveClash(t2, s2, permComboBonus, a2, LuckyHit, first.quirkUsed);
      && first.damage == ResolveClash(t1, s1, permComboBonus, a1, NoQuirk, false).damage + 10
      && second.damage == ResolveClash(t2, s2, permComboBonus, a2, NoQuirk, false).damage
  {
  }

  /**
   * After a cleared round the next AI starts with 50 + 5 x (new round - 1)
   * HP, so at least 55 from round 1 on, and the player is still alive.
   */
  lemma ClearedRoundScalesAIHP(playerHP: int, aiHP: int, round: int, c: Clash)
    requires Advance(playerHP, aiHP, round, c).status.RoundCleared?
    ensures var p := Advance(playerHP, aiHP, round, c);
      p.aiHP == MAX_HP + 5 * (p.round - 1) && p.playerHP > 0
      && (round >= 1 ==> p.aiHP >= 55)
  {
  }

  /**
   * Against the single-player rules with multiplier 5: a slower player
   * without power-ups, bonus or quirk loses exactly the single-player
   * enemy hit; a tie, harmless there, costs the base 5 HP here.
   */
  lemma SlowerPlayerLosesAsInDuel(playerTime: real, aiTime: real, playerHP: int, aiHP: int, round: int, combo: nat, quirkUsed: bool)
    requires playerTime >= aiTime
    ensures var c := ResolveClash(playerTime, aiTime, 0, [], NoQuirk, quirkUsed);
      var t := Duel.ResolveTurn(playerTime, aiTime, playerHP, aiHP, combo, 5.0);
      && !c.playerWins
      && (playerTime > aiTime ==> Advance(playerHP, aiHP, round, c).playerHP == t.playerHP)
      && (playerTime == aiTime ==> c.damage == 5 && t.damage == 0)
  {
  }
}
