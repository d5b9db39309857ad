/**
 * The cooperative boss fight: N players against one boss whose HP is
 * MAX_HP times the number of players.  Each turn every alive player
 * faster than the boss hits it, a shared task may add 5 bonus damage,
 * and the boss hits the slowest alive player if it was faster than them.
 */
module Coop {
  import opened Rules

  /** The per-round bonus objective. `NoTask` stands for the bonus task not being set yet. */
  datatype CoopTask = NoTask | Average(target: real) | Identical(target: real)

  datatype CoopEnding = Continue | BossDefeated | PlayersDefeated

  /**
   * The outcome of a boss turn: the boss's HP, every player's HP, whether
   * the bonus task was achieved, which player the boss hit (if any), and how
   * the battle goes on.
   */
  datatype CoopTurn = CoopTurn(bossHP: int, hps: seq<int>, taskAchieved: bool, bossTarget: Option<nat>, ending: CoopEnding)

  /** The boss HP at the start of a fight with `players` players. */
  function BossStartHP(players: nat): (hp: int)
    ensures hp == MAX_HP * players
    ensures players > 0 ==> hp >= MAX_HP
  {
    MAX_HP * players
  }

  /** The indices of the players still alive (HP above 0), at or after `from`, in increasing order. */
  function AliveFrom(hps: seq<int>, from: nat): (r: seq<nat>)
    decreases |hps| - from
    ensures forall k :: 0 <= k < |r| ==> from <= r[k] < |hps| && hps[r[k]] > 0
    ensures forall i {:trigger i in r} :: from <= i < |hps| && hps[i] > 0 ==> i in r
    ensures forall k, l :: 0 <= k < l < |r| ==> r[k] < r[l]
  {
    if from >= |hps| then []
    else if hps[from] > 0 then [from] + AliveFrom(hps, from + 1)
    else AliveFrom(hps, from + 1)
  }

  /** The indices of the alive players, in increasing order; eliminated players never appear. */
  function AliveIndices(hps: seq<int>): (r: seq<nat>)
    ensures forall k :: 0 <= k < |r| ==> r[k] < |hps| && hps[r[k]] > 0
    ensures forall i {:trigger i in r} :: 0 <= i < |hps| && hps[i] > 0 ==> i in r
    ensures forall k, l :: 0 <= k < l < |r| ==> r[k] < r[l]
  {
    AliveFrom(hps, 0)
  }

  predicate ValidIndices(idxs: seq<nat>, n: nat)
  {
    forall k :: 0 <= k < |idxs| ==> idxs[k] < n
  }

  /** The times of the players at `idxs`, in that order. */
  function TimesAt(times: seq<real>, idxs: seq<nat>): (r: seq<real>)
    requires ValidIndices(idxs, |times|)
    ensures |r| == |idxs| && forall k :: 0 <= k < |idxs| ==> r[k] == times[idxs[k]]
  {
    seq(|idxs|, k requires 0 <= k < |idxs| => times[idxs[k]])
  }

  function Sum(ts: seq<real>): real
  {
    if ts == [] then 0.0 else ts[0] + Sum(ts[1..])
  }

  /**
   * The bonus-task check over the alive players' times: the average task needs
   * their mean within 0.3 of the target (with nobody alive the mean is
   * not a number and the check fails), the identical task needs every
   * time within 0.5 of the target.
   */
  predicate TaskAchieved(task: CoopTask, ts: seq<real>): (ok: bool)
    ensures task.NoTask? ==> !ok
    ensures task.Average? && ts == [] ==> !ok
    ensures task.Identical? && ts == [] ==> ok
    ensures ok && task.Identical? && ts != [] ==> Abs(Sum(ts) / |ts| as real - task.target) <= 0.5
  {
    if task.Identical? && ts != [] && forall k :: 0 <= k < |ts| ==> Abs(ts[k] - task.target) <= 0.5 then
      MeanWithin(ts, task.target, 0.5);
      true
    else
    match task
    case NoTask => false
    case Average(target) => |ts| > 0 && Abs(Sum(ts) / |ts| as real - target) <= 0.3
    case Identical(target) => forall k :: 0 <= k < |ts| ==> Abs(ts[k] - target) <= 0.5
  }

  /** Times all within [lo, hi] sum to within [|ts| x lo, |ts| x hi]. */
  lemma {:induction false} SumBetween(ts: seq<real>, lo: real, hi: real)
    requires forall k :: 0 <= k < |ts| ==> lo <= ts[k] <= hi
    ensures |ts| as real * lo <= Sum(ts) <= |ts| as real * hi
  {
    if ts != [] {
      var m := |ts[1..]| as real;
      SumBetween(ts[1..], lo, hi);
      assert lo <= ts[0] <= hi;
      assert |ts| as real == m + 1.0;
      assert (m + 1.0) * lo == m * lo + lo;
      assert (m + 1.0) * hi == m * hi + hi;
    }
  }

  /** A quotient by a positive divisor keeps the bounds of the dividend, scaled. */
  lemma QuotientBetween(x: real, n: real, lo: real, hi: real)
    requires n > 0.0 && n * lo <= x <= n * hi
    ensures lo <= x / n <= hi
  {
    var q := x / n;
    assert n * q == x;
    assert n * (q - lo) >= 0.0;
    assert n * (hi - q) >= 0.0;
  }

  /** Times each within `d` of `t` have their mean within `d` of `t`. */
  lemma MeanWithin(ts: seq<real>, t: real, d: real)
    requires ts != []
    requires forall k :: 0 <= k < |ts| ==> Abs(ts[k] - t) <= d
    ensures Abs(Sum(ts) / |ts| as real - t) <= d
  {
    forall k | 0 <= k < |ts| ensures t - d <= ts[k] <= t + d {
      assert Abs(ts[k] - t) <= d;
    }
    var n := |ts| as real;
    var total := Sum(ts);
    SumBetween(ts, t - d, t + d);
    QuotientBetween(total, n, t - d, t + d);
    var mean := total / n;
    assert -d <= mean - t <= d;
  }

  /**
   * The position of the slowest time, the first one among equals (the
   * source takes the maximum and then `find`s its first occurrence).
   */
  function Slowest(ts: seq<real>): (r: Option<nat>)
    ensures r.None? <==> ts == []
    ensures r.Some? ==> r.value < |ts|
    ensures r.Some? ==> forall k :: 0 <= k < |ts| ==> ts[k] <= ts[r.value]
    ensures r.Some? ==> forall k :: 0 <= k < r.value ==> ts[k] < ts[r.value]
  {
    if ts == [] then None
    else
      match Slowest(ts[1..])
      case None => Some(0)
      case Some(p) => if ts[0] >= ts[1..][p] then Some(0) else Some(p + 1)
  }

  /** The boss HP after the alive players with times `ts` have hit it one after the other. */
  function BossAfterHits(bossHP: int, ts: seq<real>, bossTime: real, mult: real): (r: int)
    ensures bossHP >= 0 ==> r >= 0
    ensures bossHP >= 0 && mult >= 0.0 ==> r <= bossHP
    decreases |ts|
  {
    if ts == [] then bossHP
    else
      var next := if ts[0] < bossTime then AfterHit(bossHP, HitDamage(bossTime - ts[0], mult)) else bossHP;
      BossAfterHits(next, ts[1..], bossTime, mult)
  }

  /** The sum of the hits of every player in `ts` faster than the boss. */
  function HitTotal(ts: seq<real>, bossTime: real, mult: real): (total: int)
    ensures mult >= 0.0 ==> total >= 0
  {
    if ts == [] then 0
    else
      var rest := HitTotal(ts[1..], bossTime, mult);
      if ts[0] < bossTime then HitDamage(bossTime - ts[0], mult) + rest else rest
  }

  /** The boss HP after the bonus-task check: an achieved task removes 5 more HP, clamped. */
  function AfterTask(bossHP: int, achieved: bool): (r: int)
    ensures !achieved ==> r == bossHP
    ensures bossHP >= 0 ==> 0 <= r <= bossHP && bossHP - r <= 5
    ensures achieved && bossHP >= 5 ==> r == bossHP - 5
    ensures achieved && bossHP <= 5 ==> r == 0
  {
    if achieved then AfterHit(bossHP, 5) else bossHP
  }

  /** The player the boss hits: the first slowest alive player, provided the boss was faster. */
  function BossTarget(times: seq<real>, hps: seq<int>, bossTime: real): (r: Option<nat>)
    requires |times| == |hps|
    ensures r.Some? ==> r.value < |hps| && hps[r.value] > 0 && bossTime < times[r.value]
    ensures r.Some? ==> forall i :: 0 <= i < |hps| && hps[i] > 0 ==> times[i] <= times[r.value]
    ensures r.Some? ==> forall i :: 0 <= i < r.value && hps[i] > 0 ==> times[i] < times[r.value]
    ensures r.None? ==> forall i :: 0 <= i < |hps| && hps[i] > 0 ==> times[i] <= bossTime
  {
    var alive := AliveIndices(hps);
    var ts := TimesAt(times, alive);
    match Slowest(ts)
    case None =>
      assert forall i :: 0 <= i < |hps| && hps[i] > 0 ==> i in alive;
      None
    case Some(p) =>
      SlowestAliveTime(times, hps, p);
      if bossTime < ts[p] then Some(alive[p]) else None
  }

  /**
   * The slowest of the alive players' times, found at position `p` of
   * their list, is no faster than any alive player's time and strictly
   * slower than those of the alive players before it.
   */
  lemma SlowestAliveTime(times: seq<real>, hps: seq<int>, p: nat)
    requires |times| == |hps|
    requires Slowest(TimesAt(times, AliveIndices(hps))) == Some(p)
    ensures var alive := AliveIndices(hps);
      && p < |alive|
      && (forall i :: 0 <= i < |hps| && hps[i] > 0 ==> times[i] <= times[alive[p]])
      && (forall i :: 0 <= i < alive[p] && hps[i] > 0 ==> times[i] < times[alive[p]])
  {
    forall i | 0 <= i < |hps| && hps[i] > 0
      ensures times[i] <= times[AliveIndices(hps)[p]]
      ensures i < AliveIndices(hps)[p] ==> times[i] < times[AliveIndices(hps)[p]]
    {
      SlowestAgainst(times, hps, p, i);
    }
  }

  /** `SlowestAliveTime` for one alive player `i`. */
  lemma SlowestAgainst(times: seq<real>, hps: seq<int>, p: nat, i: nat)
    requires |times| == |hps| && i < |hps| && hps[i] > 0
    requires Slowest(TimesAt(times, AliveIndices(hps))) == Some(p)
    ensures var alive := AliveIndices(hps);
      && p < |alive|
      && times[i] <= times[alive[p]]
      && (i < alive[p] ==> times[i] < times[alive[p]])
  {
    var alive := AliveIndices(hps);
    var ts := TimesAt(times, alive);
    assert i in alive;
    var k :| 0 <= k < |alive| && alive[k] == i;
    assert ts[k] == times[i] && ts[p] == times[alive[p]];
    assert ts[k] <= ts[p];
    if i < alive[p] {
      assert k < p;
    }
  }

  /**
   * The specification of a boss turn (src/App.jsx processCoopTurn):
   * alive players' hits, then the bonus-task reward, then the boss's hit on its
   * target; the boss's defeat is checked before the players'.
   */
  function CoopOutcome(times: seq<real>, hps: seq<int>, bossHP: int, bossTime: real, task: CoopTask, mult: real): (t: CoopTurn)
    requires |times| == |hps|
    ensures |t.hps| == |hps|
    ensures forall i :: 0 <= i < |hps| ==> t.hps[i] == hps[i] || (hps[i] > 0 && t.hps[i] >= 0)
    ensures bossHP >= 0 ==> t.bossHP >= 0
  {
    var ts := TimesAt(times, AliveIndices(hps));
    var achieved := TaskAchieved(task, ts);
    var nextBossHP := AfterTask(BossAfterHits(bossHP, ts, bossTime, mult), achieved);
    var target := BossTarget(times, hps, bossTime);
    var nextHPs := HitTarget(times, hps, bossTime, mult, target);
    CoopTurn(nextBossHP, nextHPs, achieved, target, EndingOf(nextBossHP, nextHPs))
  }

  /** The players' HP after the boss's hit on `target`, if any. */
  function HitTarget(times: seq<real>, hps: seq<int>, bossTime: real, mult: real, target: Option<nat>): (r: seq<int>)
    requires |times| == |hps|
    requires target.Some? ==> target.value < |hps|
    ensures |r| == |hps|
    ensures forall i :: 0 <= i < |hps| && target != Some(i) ==> r[i] == hps[i]
    ensures target.Some? ==> r[target.value] == AfterHit(hps[target.value], HitDamage(times[target.value] - bossTime, mult))
  {
    match target
    case None => hps
    case Some(i) => hps[i := AfterHit(hps[i], HitDamage(times[i] - bossTime, mult))]
  }

  /** Victory (boss at or below 0) is checked before defeat (every player at or below 0). */
  function EndingOf(bossHP: int, hps: seq<int>): (e: CoopEnding)
    ensures e == BossDefeated <==> bossHP <= 0
    ensures e == PlayersDefeated <==> bossHP > 0 && forall i :: 0 <= i < |hps| ==> hps[i] <= 0
  {
    if bossHP <= 0 then BossDefeated
    else if forall i :: 0 <= i < |hps| ==> hps[i] <= 0 then PlayersDefeated
    else Continue
  }

  /**
   * The alive players' attacks as the source runs them: the boss HP is
   * updated player by player, in index order, each faster player's hit
   * clamped at 0.
   */
  method HitBoss(aliveTimes: seq<real>, bossHP: int, bossTime: real, mult: real) returns (nextBossHP: int)
    ensures nextBossHP == BossAfterHits(bossHP, aliveTimes, bossTime, mult)
  {
    nextBossHP := bossHP;
    var k := 0;
    while k < |aliveTimes|
      invariant 0 <= k <= |aliveTimes|
      invariant BossAfterHits(nextBossHP, aliveTimes[k..], bossTime, mult) == BossAfterHits(bossHP, aliveTimes, bossTime, mult)
    {
      var t := aliveTimes[k];
      if t < bossTime {
        var dmg := HitDamage(bossTime - t, mult);
        nextBossHP := AfterHit(nextBossHP, dmg);
      }
      assert aliveTimes[k..][1..] == aliveTimes[k + 1..];
      k := k + 1;
    }
  }

  /** One boss turn (src/App.jsx processCoopTurn), proved to meet its specification. */
  method ResolveCoopTurn(times: seq<real>, hps: seq<int>, bossHP: int, bossTime: real, task: CoopTask, mult: real)
    returns (r: CoopTurn)
    requires |times| == |hps|
    ensures r == CoopOutcome(times, hps, bossHP, bossTime, task, mult)
  {
    var aliveTimes := TimesAt(times, AliveIndices(hps));
    var nextBossHP := HitBoss(aliveTimes, bossHP, bossTime, mult);
    var achieved := TaskAchieved(task, aliveTimes);
    if achieved {
      nextBossHP := AfterHit(nextBossHP, 5);
    }
    var target := BossTarget(times, hps, bossTime);
    var nextHPs := HitTarget(times, hps, bossTime, mult, target);
    r := CoopTurn(nextBossHP, nextHPs, achieved, target, EndingOf(nextBossHP, nextHPs));
  }

  /**
   * Every alive player faster than the boss deals its own hit: with a
   * non-negative multiplier the one-by-one clamped updates equal one
   * clamped subtraction of the sum of the hits.
   */
  lemma {:induction false} BossAfterHitsIsClampedTotal(bossHP: int, ts: seq<real>, bossTime: real, mult: real)
    requires bossHP >= 0 && mult >= 0.0
    ensures BossAfterHits(bossHP, ts, bossTime, mult) == AfterHit(bossHP, HitTotal(ts, bossTime, mult))
    decreases |ts|
  {
    if ts != [] {
      var rest := HitTotal(ts[1..], bossTime, mult);
      if ts[0] < bossTime {
        var d := HitDamage(bossTime - ts[0], mult);
        BossAfterHitsIsClampedTotal(AfterHit(bossHP, d), ts[1..], bossTime, mult);
        AfterHitTwice(bossHP, d, rest);
      } else {
        BossAfterHitsIsClampedTotal(bossHP, ts[1..], bossTime, mult);
      }
    }
  }

  /**
   * The boss loses the sum of the alive faster players' hits plus exactly
   * 5 when the bonus task is achieved, clamped at 0; eliminated players' times
   * play no part.
   */
  lemma CoopBossDamage(times: seq<real>, hps: seq<int>, bossHP: int, bossTime: real, task: CoopTask, mult: real)
    requires |times| == |hps| && bossHP >= 0 && mult >= 0.0
    ensures var ts := TimesAt(times, AliveIndices(hps));
      var r := CoopOutcome(times, hps, bossHP, bossTime, task, mult);
      r.bossHP == AfterHit(bossHP, HitTotal(ts, bossTime, mult) + (if r.taskAchieved then 5 else 0))
  {
    var ts := TimesAt(times, AliveIndices(hps));
    var r := CoopOutcome(times, hps, bossHP, bossTime, task, mult);
    assert r.bossHP == AfterTask(BossAfterHits(bossHP, ts, bossTime, mult), r.taskAchieved);
    HitsThenTask(bossHP, ts, bossTime, mult, r.taskAchieved);
  }

  /** The players' hits followed by the bonus-task reward are one clamped subtraction of their total. */
  lemma HitsThenTask(bossHP: int, ts: seq<real>, bossTime: real, mult: real, achieved: bool)
    requires bossHP >= 0 && mult >= 0.0
    ensures AfterTask(BossAfterHits(bossHP, ts, bossTime, mult), achieved)
         == AfterHit(bossHP, HitTotal(ts, bossTime, mult) + (if achieved then 5 else 0))
  {
    BossAfterHitsIsClampedTotal(bossHP, ts, bossTime, mult);
    AfterHitTwice(bossHP, HitTotal(ts, bossTime, mult), 5);
  }

  /**
   * Only the boss's target loses HP, and eliminated players neither lose
   * HP nor are targeted; nobody's HP goes below 0 or up.
   */
  lemma CoopPlayersHit(times: seq<real>, hps: seq<int>, bossHP: int, bossTime: real, task: CoopTask, mult: real)
    requires |times| == |hps| && mult >= 0.0
    requires forall i :: 0 <= i < |hps| ==> hps[i] >= 0
    ensures var r := CoopOutcome(times, hps, bossHP, bossTime, task, mult);
      && |r.hps| == |hps|
      && (forall i :: 0 <= i < |hps| && hps[i] <= 0 ==> r.hps[i] == hps[i] && r.bossTarget != Some(i))
      && (forall i :: 0 <= i < |hps| && r.bossTarget != Some(i) ==> r.hps[i] == hps[i])
      && (forall i :: 0 <= i < |hps| ==> 0 <= r.hps[i] <= hps[i])
  {
  }

  /**
   * Eliminated players' entries (the source fills in 9999) never matter:
   * two time vectors that agree on the alive players give the same turn.
   */
  lemma CoopIgnoresEliminatedTimes(times: seq<real>, times': seq<real>, hps: seq<int>, bossHP: int, bossTime: real, task: CoopTask, mult: real)
    requires |times| == |hps| == |times'|
    requires forall i :: 0 <= i < |hps| && hps[i] > 0 ==> times[i] == times'[i]
    ensures CoopOutcome(times, hps, bossHP, bossTime, task, mult) == CoopOutcome(times', hps, bossHP, bossTime, task, mult)
  {
    var alive := AliveIndices(hps);
    assert TimesAt(times, alive) == TimesAt(times', alive);
    var target := BossTarget(times, hps, bossTime);
    assert target == BossTarget(times', hps, bossTime);
    assert HitTarget(times, hps, bossTime, mult, target) == HitTarget(times', hps, bossTime, mult, target);
  }

  /**
   * The worked example of the average task: two alive players at 10.0
   * and 10.4 against a target of 10.2 achieve it.
   */
  lemma AverageTaskExample()
    ensures TaskAchieved(Average(10.2), [10.0, 10.4])
    ensures !TaskAchieved(Average(10.6), [10.0, 10.4])
    ensures TaskAchieved(Identical(10.0), [10.0, 10.4]) && !TaskAchieved(Identical(10.0), [10.0, 10.6])
  {
    assert Sum([10.0, 10.4]) == 20.4 by {
      assert [10.0, 10.4][1..] == [10.4];
      assert Sum([10.4]) == 10.4 by { assert [10.4][1..] == []; }
    }
    assert Abs([10.0, 10.6][1] - 10.0) > 0.5;
  }

  /**
   * The next task from two uniform draws in [0, 1): the first picks the
   * kind (average below 0.5), the second the target — an average target
   * between 10 and 15 with one decimal (`toFixed(1)`), or an identical
   * target that is a whole number from 10 to 15.
   */
  function GenerateCoopTask(kindDraw: real, targetDraw: real): (task: CoopTask)
    requires 0.0 <= kindDraw < 1.0 && 0.0 <= targetDraw < 1.0
    ensures task.Average? <==> kindDraw < 0.5
    ensures task.Average? ==> 10.0 <= task.target <= 15.0 && (task.target * 10.0).Floor as real == task.target * 10.0
    ensures task.Identical? ==> 10.0 <= task.target <= 15.0 && task.target.Floor as real == task.target
  {
    if kindDraw < 0.5 then
      Average(Round((targetDraw * 5.0 + 10.0) * 10.0) as real / 10.0)
    else
      Identical((targetDraw * 6.0 + 10.0).Floor as real)
  }
}
