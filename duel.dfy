/**
 * One round of a duel: the single-player turn against the enemy and the
 * local two-player (PvP) turn.  The faster time wins, the winner's combo
 * grows by one, and the loser's HP drops by the base hit (plus the
 * winner's new combo where the mode grants one), clamped at 0.
 */
module Duel {
  import opened Rules

  /** Who won a round; in PvP `Player` is player 1 and `Enemy` player 2. */
  datatype Winner = Player | Enemy | Tie

  /** How a finished round leaves the battle. */
  datatype Ending = Continue | Defeat | Victory

  /** The outcome of a single-player round. */
  datatype Turn = Turn(winner: Winner, damage: int, playerHP: int, enemyHP: int, combo: nat)

  /** The outcome of a PvP round: both sides carry a combo. */
  datatype DuelRound = DuelRound(winner: Winner, damage: int, p1HP: int, p2HP: int, p1Combo: nat, p2Combo: nat)

  function Faster(playerTime: real, enemyTime: real): (w: Winner)
    ensures w == Player <==> playerTime < enemyTime
    ensures w == Enemy <==> enemyTime < playerTime
    ensures w == Tie <==> playerTime == enemyTime
  {
    if playerTime < enemyTime then Player
    else if playerTime > enemyTime then Enemy
    else Tie
  }

  /**
   * The single-player round: the player's streak is the only combo and
   * only ever strengthens the player's hit; the enemy hits with the base
   * damage alone and breaks the player's streak.
   */
  function ResolveTurn(playerTime: real, enemyTime: real, playerHP: int, enemyHP: int, combo: nat, mult: real): (t: Turn)
    ensures t.winner == Faster(playerTime, enemyTime)
    ensures t.winner == Player ==>
      && t.combo == combo + 1
      && t.damage == HitDamage(enemyTime - playerTime, mult) + t.combo
      && t.playerHP == playerHP
      && t.enemyHP == AfterHit(enemyHP, t.damage)
    ensures t.winner == Enemy ==>
      && t.combo == 0
      && t.damage == HitDamage(playerTime - enemyTime, mult)
      && t.enemyHP == enemyHP
      && t.playerHP == AfterHit(playerHP, t.damage)
    ensures t.winner == Tie ==>
      t.damage == 0 && t.playerHP == playerHP && t.enemyHP == enemyHP && t.combo == combo
  {
    if playerTime < enemyTime then
      var nextCombo := combo + 1;
      var totalDamage := HitDamage(enemyTime - playerTime, mult) + nextCombo;
      Turn(Player, totalDamage, playerHP, AfterHit(enemyHP, totalDamage), nextCombo)
    else if playerTime > enemyTime then
      var damage := HitDamage(playerTime - enemyTime, mult);
      Turn(Enemy, damage, AfterHit(playerHP, damage), enemyHP, 0)
    else
      Turn(Tie, 0, playerHP, enemyHP, combo)
  }

  /**
   * The PvP round: the faster side's own combo grows and is added to its
   * hit, the slower side's combo is reset.
   */
  function ResolveDuel(p1Time: real, p2Time: real, p1HP: int, p2HP: int, p1Combo: nat, p2Combo: nat, mult: real): (d: DuelRound)
    ensures d.winner == Faster(p1Time, p2Time)
    ensures d.winner == Player ==>
      && d.p1Combo == p1Combo + 1 && d.p2Combo == 0
      && d.damage == HitDamage(p2Time - p1Time, mult) + d.p1Combo
      && d.p1HP == p1HP && d.p2HP == AfterHit(p2HP, d.damage)
    ensures d.winner == Enemy ==>
      && d.p2Combo == p2Combo + 1 && d.p1Combo == 0
      && d.damage == HitDamage(p1Time - p2Time, mult) + d.p2Combo
      && d.p2HP == p2HP && d.p1HP == AfterHit(p1HP, d.damage)
    ensures d.winner == Tie ==> d == DuelRound(Tie, 0, p1HP, p2HP, p1Combo, p2Combo)
  {
    if p1Time < p2Time then
      var nextP1Combo := p1Combo + 1;
      var totalDamage := HitDamage(p2Time - p1Time, mult) + nextP1Combo;
      DuelRound(Player, totalDamage, p1HP, AfterHit(p2HP, totalDamage), nextP1Combo, 0)
    else if p1Time > p2Time then
      var nextP2Combo := p2Combo + 1;
      var totalDamage := HitDamage(p1Time - p2Time, mult) + nextP2Combo;
      DuelRound(Enemy, totalDamage, AfterHit(p1HP, totalDamage), p2HP, 0, nextP2Combo)
    else
      DuelRound(Tie, 0, p1HP, p2HP, p1Combo, p2Combo)
  }

  /**
   * The game-over check after a round: over as soon as either side is at
   * or below 0, and the player's side is checked first, so a double knock
   * out is a defeat.
   */
  function EndingOf(playerHP: int, enemyHP: int): (e: Ending)
    ensures e == Continue <==> playerHP > 0 && enemyHP > 0
    ensures e == Defeat <==> playerHP <= 0
    ensures e == Victory <==> playerHP > 0 && enemyHP <= 0
  {
    if playerHP <= 0 || enemyHP <= 0 then
      if playerHP <= 0 then Defeat else Victory
    else Continue
  }

  function Swap(w: Winner): Winner
  {
    match w
    case Player => Enemy
    case Enemy => Player
    case Tie => Tie
  }

  /** HP only goes down, and never below 0, in a round with a non-negative multiplier. */
  lemma TurnKeepsHPInRange(playerTime: real, enemyTime: real, playerHP: int, enemyHP: int, combo: nat, mult: real)
    requires mult >= 0.0 && 0 <= playerHP && 0 <= enemyHP
    ensures var t := ResolveTurn(playerTime, enemyTime, playerHP, enemyHP, combo, mult);
      && 0 <= t.playerHP <= playerHP && 0 <= t.enemyHP <= enemyHP
      && (t.winner != Tie ==> t.damage >= 5)
      && (t.winner == Player ==> t.enemyHP < enemyHP || enemyHP == 0)
      && (t.winner == Enemy ==> t.playerHP < playerHP || playerHP == 0)
  {
  }

  /**
   * PvP is symmetric: exchanging the two players exchanges the outcome.
   */
  lemma DuelIsSymmetric(p1Time: real, p2Time: real, p1HP: int, p2HP: int, p1Combo: nat, p2Combo: nat, mult: real)
    ensures var d := ResolveDuel(p1Time, p2Time, p1HP, p2HP, p1Combo, p2Combo, mult);
      ResolveDuel(p2Time, p1Time, p2HP, p1HP, p2Combo, p1Combo, mult)
        == DuelRound(Swap(d.winner), d.damage, d.p2HP, d.p1HP, d.p2Combo, d.p1Combo)
  {
  }

  /**
   * Relation between the two modes: when player 1 wins, PvP is the
   * single-player round; when player 2 wins, player 2's hit carries its
   * own new combo on top of the single-player enemy hit.
   */
  lemma DuelExtendsTurn(p1Time: real, p2Time: real, p1HP: int, p2HP: int, p1Combo: nat, p2Combo: nat, mult: real)
    ensures var d := ResolveDuel(p1Time, p2Time, p1HP, p2HP, p1Combo, p2Combo, mult);
      var t := ResolveTurn(p1Time, p2Time, p1HP, p2HP, p1Combo, mult);
      && d.winner == t.winner
      && (t.winner != Enemy ==> d.damage == t.damage && d.p1HP == t.playerHP && d.p2HP == t.enemyHP && d.p1Combo == t.combo)
      && (t.winner == Enemy ==> d.damage == t.damage + p2Combo + 1 && d.p1Combo == t.combo)
  {
  }

  /** The state after `n` rounds that alternate a 1-second win and a 1-second loss, from a fresh battle. */
  function Alternating(n: nat): Turn
  {
    if n == 0 then Turn(Tie, 0, MAX_HP, MAX_HP, 0)
    else
      var s := Alternating(n - 1);
      if (n - 1) % 2 == 0 then ResolveTurn(10.0, 11.0, s.playerHP, s.enemyHP, s.combo, 5.0)
      else ResolveTurn(11.0, 10.0, s.playerHP, s.enemyHP, s.combo, 5.0)
  }

  /**
   * With multiplier 5, alternating wins and losses by 1 second: the combo
   * oscillates 1, 0, 1, 0, ... and never exceeds 1, each win takes 11 HP
   * (10 + the combo of 1), each loss 10 HP, clamped at 0.
   */
  lemma {:induction false} AlternatingComboOscillates(n: nat)
    ensures Alternating(n).combo == n % 2 && Alternating(n).combo <= 1
    ensures Alternating(n).enemyHP == AfterHit(MAX_HP, 11 * ((n + 1) / 2))
    ensures Alternating(n).playerHP == AfterHit(MAX_HP, 10 * (n / 2))
  {
    if n > 0 {
      AlternatingComboOscillates(n - 1);
      assert HitDamage(1.0, 5.0) == 10;
      var s := Alternating(n - 1);
      if (n - 1) % 2 == 0 {
        assert (n + 1) / 2 == n / 2 + 1 && n / 2 == (n - 1) / 2;
        AfterHitTwice(MAX_HP, 11 * (n / 2), 11);
      } else {
        assert n / 2 == (n - 1) / 2 + 1 && (n + 1) / 2 == n / 2;
        AfterHitTwice(MAX_HP, 10 * ((n - 1) / 2), 10);
      }
    }
  }
}
