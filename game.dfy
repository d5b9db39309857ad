/**
 * The battle game's component state and its event handlers
 * (src/App.jsx).  `GameView` is the state the handlers read and write,
 * grouped as the screen flow, the duel fighters, the coop party and the
 * infinite run; each handler is specified by a step function on it,
 * giving the state after all of the handler's setters (and its follow-up
 * timeouts) have applied.  The `Game` class holds the same state in
 * fields and has one method per handler, each proved to perform its step
 * function.  Sampled times and random draws are parameters.
 */
module Game {
  import opened Rules
  import Duel
  import Coop
  import opened Infinite

  datatype GameState = NameEntry | DifficultySelect | Battle | GameOver | CoopSetup | InfiniteSetup | InfiniteBattle

  datatype Mode = SingleMode | MultiMode | CoopMode | InfiniteMode

  /** The game-over message; `NoMessage` is the empty string. */
  datatype Message = NoMessage | YouWereDefeated | YouDefeatedTheEnemy | Player2Wins | Player1Wins
                   | BossIsDefeated | AllPlayersDefeated | DefeatedByAI

  /**
   * Screen flow: `dataLoaded` stands for a non-empty scramble table,
   * `multiplier` for the configured damage multiplier.
   */
  datatype Control = Control(gameState: GameState, mode: Mode, message: Message,
                             processing: bool, dataLoaded: bool, multiplier: real)

  /**
   * The two sides of a duel.  In PvP `playerHP`/`enemyHP` are player 1's
   * and player 2's; in infinite mode `enemyHP` is the AI's.
   */
  datatype Combat = Combat(playerHP: int, enemyHP: int, comboCount: nat, p1Combo: nat, p2Combo: nat, tymonCount: nat)

  /** The coop players (each represented by its HP), the boss and the current task. */
  datatype Party = Party(hps: seq<int>, bossHP: int, task: Coop.CoopTask)

  /** The infinite run: round, current AI's quirk, power-ups. */
  datatype Run = Run(round: int, ai: Option<Quirk>, quirkUsed: bool,
                     active: seq<PowerUp>, pending: seq<PowerUp>, showChoice: bool, permComboBonus: nat)

  datatype GameView = GameView(ctl: Control, combat: Combat, party: Party, run: Run)

  /** The initial state; the default (Medium) difficulty has multiplier 5. */
  const Start: GameView := GameView(
    Control(NameEntry, SingleMode, NoMessage, false, false, 5.0),
    Combat(MAX_HP, MAX_HP, 0, 0, 0, INITIAL_TYMON_COUNT),
    Party([], MAX_HP * 2, Coop.NoTask),
    Run(1, None, false, [], [], false, 0))

  /**
   * What every handler keeps: no HP below 0, at most the initial number
   * of Tymon assists, a round number of at least 1, and with a
   * non-negative multiplier the player never above MAX_HP.
   */
  predicate Sane(v: GameView)
  {
    && v.combat.playerHP >= 0 && v.combat.enemyHP >= 0 && v.party.bossHP >= 0
    && (forall i :: 0 <= i < |v.party.hps| ==> v.party.hps[i] >= 0)
    && v.combat.tymonCount <= INITIAL_TYMON_COUNT
    && v.run.round >= 1
    && (v.ctl.multiplier >= 0.0 ==> v.combat.playerHP <= MAX_HP)
  }

  /** How a turn leaves the screen: a message ends the game and keeps `processing` set. */
  function Conclude(c: Control, over: Option<Message>): (d: Control)
    ensures over.None? ==> d == c.(processing := false)
    ensures over.Some? ==> d == c.(gameState := GameOver, message := over.value, processing := true)
  {
    match over
    case None => c.(processing := false)
    case Some(m) => c.(gameState := GameOver, message := m, processing := true)
  }

  /** The scramble table arriving: turns are allowed once it has rows. */
  function LoadStep(v: GameView, rows: nat): (w: GameView)
    ensures w.ctl.dataLoaded <==> rows > 0
    ensures w == v.(ctl := v.ctl.(dataLoaded := w.ctl.dataLoaded))
  {
    v.(ctl := v.ctl.(dataLoaded := rows > 0))
  }

  /** `startInfiniteRound`: a new AI with the drawn quirk, whose lucky hit is unused. */
  function NewAI(r: Run, quirk: Quirk): (s: Run)
    ensures s.ai == Some(quirk) && !s.quirkUsed
    ensures s == r.(ai := s.ai, quirkUsed := s.quirkUsed)
  {
    r.(ai := Some(quirk), quirkUsed := false)
  }

  /** `handleNameEntered`: the chosen mode leads to its setup screen; infinite mode also draws its first AI. */
  function NameStep(v: GameView, mode: Mode, firstQuirk: Quirk): (w: GameView)
    ensures w.ctl.mode == mode
    ensures mode == CoopMode ==> w.ctl.gameState == CoopSetup
    ensures mode == InfiniteMode ==> w.ctl.gameState == InfiniteSetup && w.run.ai == Some(firstQuirk) && !w.run.quirkUsed
    ensures mode != CoopMode && mode != InfiniteMode ==> w.ctl.gameState == DifficultySelect
    ensures mode != InfiniteMode ==> w.run == v.run
    ensures w.ctl == v.ctl.(mode := mode, gameState := w.ctl.gameState)
    ensures w.combat == v.combat && w.party == v.party
    ensures Sane(v) ==> Sane(w)
  {
    match mode
    case CoopMode => v.(ctl := v.ctl.(mode := mode, gameState := CoopSetup))
    case InfiniteMode => v.(ctl := v.ctl.(mode := mode, gameState := InfiniteSetup), run := NewAI(v.run, firstQuirk))
    case _ => v.(ctl := v.ctl.(mode := mode, gameState := DifficultySelect))
  }

  /** `handleConfigStart`: a fresh single-player battle with the chosen multiplier. */
  function ConfigStep(v: GameView, mult: real): (w: GameView)
    ensures w.ctl == v.ctl.(gameState := Battle, message := NoMessage, processing := false, multiplier := mult)
    ensures w.combat == Combat(MAX_HP, MAX_HP, 0, 0, 0, INITIAL_TYMON_COUNT)
    ensures w.party == v.party && w.run == v.run
    ensures Sane(v) ==> Sane(w)
  {
    v.(ctl := v.ctl.(gameState := Battle, message := NoMessage, processing := false, multiplier := mult),
       combat := Combat(MAX_HP, MAX_HP, 0, 0, 0, INITIAL_TYMON_COUNT))
  }

  /**
   * `processTurn`: blocked while a turn is processing or before the
   * scramble table is loaded; otherwise the round is resolved.  The game
   * is over iff either HP is at or below 0, with the defeat message
   * whenever the player is; only a continuing game clears `processing`.
   */
  function TurnStep(v: GameView, playerTime: real, enemyTime: real): (w: GameView)
    ensures v.ctl.processing || !v.ctl.dataLoaded ==> w == v
    ensures !v.ctl.processing && v.ctl.dataLoaded ==>
      var t := Duel.ResolveTurn(playerTime, enemyTime, v.combat.playerHP, v.combat.enemyHP, v.combat.comboCount, v.ctl.multiplier);
      && w.combat == v.combat.(playerHP := t.playerHP, enemyHP := t.enemyHP, comboCount := t.combo)
      && (t.playerHP <= 0 ==> w.ctl == v.ctl.(gameState := GameOver, message := YouWereDefeated, processing := true))
      && (t.playerHP > 0 && t.enemyHP <= 0 ==> w.ctl == v.ctl.(gameState := GameOver, message := YouDefeatedTheEnemy, processing := true))
      && (t.playerHP > 0 && t.enemyHP > 0 ==> w.ctl == v.ctl.(processing := false))
    ensures w.party == v.party && w.run == v.run
    ensures Sane(v) ==> Sane(w)
  {
    if v.ctl.processing || !v.ctl.dataLoaded then v
    else
      var t := Duel.ResolveTurn(playerTime, enemyTime, v.combat.playerHP, v.combat.enemyHP, v.combat.comboCount, v.ctl.multiplier);
      var over := match Duel.EndingOf(t.playerHP, t.enemyHP)
        case Continue => None
        case Defeat => Some(YouWereDefeated)
        case Victory => Some(YouDefeatedTheEnemy);
      v.(ctl := Conclude(v.ctl, over), combat := v.combat.(playerHP := t.playerHP, enemyHP := t.enemyHP, comboCount := t.combo))
  }

  /**
   * Whether the Tymon button does anything: only with an assist left, so
   * the count never goes below 0, and only when `processTurn`'s own guard
   * lets the turn through, so a spent assist always plays a turn.
   */
  predicate TymonFires(v: GameView): (fires: bool)
    ensures fires ==> v.combat.tymonCount - 1 >= 0
    ensures fires ==> !v.ctl.processing && v.ctl.dataLoaded
    ensures v.combat.tymonCount <= 0 || v.ctl.processing || !v.ctl.dataLoaded ==> !fires
  {
    v.combat.tymonCount > 0 && !v.ctl.processing && v.ctl.dataLoaded
  }

  /**
   * `handleUseTymon`: when an assist is left and a turn may start, it
   * uses exactly one assist and plays an ordinary turn with Tymon's time
   * in place of the player's; otherwise nothing happens.
   */
  function TymonStep(v: GameView, tymonTime: real, enemyTime: real): (w: GameView)
    ensures TymonFires(v) ==>
      var turn := TurnStep(v, tymonTime, enemyTime);
      w == turn.(combat := turn.combat.(tymonCount := v.combat.tymonCount - 1))
    ensures !TymonFires(v) ==> w == v
    ensures Sane(v) ==> Sane(w)
  {
    if TymonFires(v) then TurnStep(v.(combat := v.combat.(tymonCount := v.combat.tymonCount - 1)), tymonTime, enemyTime)
    else v
  }

  /**
   * `processMultiplayerTurn`: blocked only while processing; the PvP
   * round decides HP and both combos, and the game ends as soon as
   * either player is at or below 0, player 1 checked first.
   */
  function DuelStep(v: GameView, p1Time: real, p2Time: real): (w: GameView)
    ensures v.ctl.processing ==> w == v
    ensures !v.ctl.processing ==>
      var d := Duel.ResolveDuel(p1Time, p2Time, v.combat.playerHP, v.combat.enemyHP, v.combat.p1Combo, v.combat.p2Combo, v.ctl.multiplier);
      && w.combat == v.combat.(playerHP := d.p1HP, enemyHP := d.p2HP, p1Combo := d.p1Combo, p2Combo := d.p2Combo)
      && (d.p1HP <= 0 ==> w.ctl == v.ctl.(gameState := GameOver, message := Player2Wins, processing := true))
      && (d.p1HP > 0 && d.p2HP <= 0 ==> w.ctl == v.ctl.(gameState := GameOver, message := Player1Wins, processing := true))
      && (d.p1HP > 0 && d.p2HP > 0 ==> w.ctl == v.ctl.(processing := false))
    ensures w.party == v.party && w.run == v.run
    ensures Sane(v) ==> Sane(w)
  {
    if v.ctl.processing then v
    else
      var d := Duel.ResolveDuel(p1Time, p2Time, v.combat.playerHP, v.combat.enemyHP, v.combat.p1Combo, v.combat.p2Combo, v.ctl.multiplier);
      var over := match Duel.EndingOf(d.p1HP, d.p2HP)
        case Continue => None
        case Defeat => Some(Player2Wins)
        case Victory => Some(Player1Wins);
      v.(ctl := Conclude(v.ctl, over), combat := v.combat.(playerHP := d.p1HP, enemyHP := d.p2HP, p1Combo := d.p1Combo, p2Combo := d.p2Combo))
  }

  /**
   * `handleCoopStart`: every player starts at MAX_HP, the boss at MAX_HP
   * per player, with a freshly drawn task.
   */
  function CoopStartStep(v: GameView, players: nat, kindDraw: real, targetDraw: real): (w: GameView)
    requires 0.0 <= kindDraw < 1.0 && 0.0 <= targetDraw < 1.0
    ensures |w.party.hps| == players && forall i :: 0 <= i < players ==> w.party.hps[i] == MAX_HP
    ensures w.party.bossHP == MAX_HP * players
    ensures w.party.task == Coop.GenerateCoopTask(kindDraw, targetDraw) && !w.party.task.NoTask?
    ensures w.ctl == v.ctl.(gameState := Battle)
    ensures w.combat == v.combat && w.run == v.run
    ensures Sane(v) ==> Sane(w)
  {
    v.(ctl := v.ctl.(gameState := Battle),
       party := Party(seq(players, _ => MAX_HP), Coop.BossStartHP(players), Coop.GenerateCoopTask(kindDraw, targetDraw)))
  }

  /**
   * `processCoopTurn`: blocked while processing or before the table is
   * loaded; otherwise the boss turn is resolved, a new task is drawn
   * whatever the outcome, and the boss's defeat is checked before the
   * players'.
   */
  function CoopStep(v: GameView, times: seq<real>, bossTime: real, kindDraw: real, targetDraw: real): (w: GameView)
    requires |times| == |v.party.hps|
    requires 0.0 <= kindDraw < 1.0 && 0.0 <= targetDraw < 1.0
    ensures v.ctl.processing || !v.ctl.dataLoaded ==> w == v
    ensures !v.ctl.processing && v.ctl.dataLoaded ==>
      var r := Coop.CoopOutcome(times, v.party.hps, v.party.bossHP, bossTime, v.party.task, v.ctl.multiplier);
      && w.party == Party(r.hps, r.bossHP, Coop.GenerateCoopTask(kindDraw, targetDraw))
      && (r.bossHP <= 0 ==> w.ctl == v.ctl.(gameState := GameOver, message := BossIsDefeated, processing := true))
      && (r.bossHP > 0 && (forall i :: 0 <= i < |r.hps| ==> r.hps[i] <= 0) ==>
            w.ctl == v.ctl.(gameState := GameOver, message := AllPlayersDefeated, processing := true))
      && (r.ending == Coop.Continue ==> w.ctl == v.ctl.(processing := false))
    ensures w.combat == v.combat && w.run == v.run
    ensures Sane(v) ==> Sane(w)
  {
    if v.ctl.processing || !v.ctl.dataLoaded then v
    else
      var r := Coop.CoopOutcome(times, v.party.hps, v.party.bossHP, bossTime, v.party.task, v.ctl.multiplier);
      var over := match r.ending
        case Continue => None
        case BossDefeated => Some(BossIsDefeated)
        case PlayersDefeated => Some(AllPlayersDefeated);
      v.(ctl := Conclude(v.ctl, over), party := Party(r.hps, r.bossHP, Coop.GenerateCoopTask(kindDraw, targetDraw)))
  }

  /** The "Start Infinite Battle" button: round 1, HP as it stands. */
  function StartInfiniteStep(v: GameView): (w: GameView)
    ensures w.run == v.run.(round := 1) && w.ctl == v.ctl.(gameState := InfiniteBattle)
    ensures w.combat == v.combat && w.party == v.party
    ensures Sane(v) ==> Sane(w)
  {
    v.(ctl := v.ctl.(gameState := InfiniteBattle), run := v.run.(round := 1))
  }

  /**
   * The run and screen after a resolved infinite turn: a defeated player
   * ends the run; a cleared round either offers three power-ups (the new
   * round is even) or draws the next AI; one-shot power-ups are consumed.
   */
  function AfterClash(v: GameView, c: Clash, p: Progress, shuffled: seq<PowerUp>, nextQuirk: Quirk): (w: GameView)
    requires multiset(shuffled) == multiset(PowerUpPool)
    ensures w.combat == v.combat.(playerHP := p.playerHP, enemyHP := p.aiHP,
                                  comboCount := if c.comboReset then 0 else v.combat.comboCount)
    ensures w.run.round == p.round && w.run.active == KeepPersistent(v.run.active)
    ensures w.run.permComboBonus == v.run.permComboBonus
    ensures p.status == RunOver ==> w.ctl == v.ctl.(gameState := GameOver, message := DefeatedByAI)
    ensures p.status == RoundCleared(true) ==>
      && w.run.showChoice && w.run.pending == OfferPowerUps(shuffled)
      && w.run.ai == v.run.ai && w.run.quirkUsed == c.quirkUsed && w.ctl == v.ctl
    ensures p.status == RoundCleared(false) ==>
      && w.run.ai == Some(nextQuirk) && !w.run.quirkUsed && w.ctl == v.ctl.(gameState := InfiniteBattle)
      && w.run.pending == v.run.pending && w.run.showChoice == v.run.showChoice
    ensures p.status == Fighting ==>
      && w.run.ai == v.run.ai && w.run.quirkUsed == c.quirkUsed && w.ctl == v.ctl
      && w.run.pending == v.run.pending && w.run.showChoice == v.run.showChoice
    ensures p.status == RunOver ==>
      && w.run.ai == v.run.ai && w.run.quirkUsed == c.quirkUsed
      && w.run.pending == v.run.pending && w.run.showChoice == v.run.showChoice
    ensures w.party == v.party
  {
    var combat := v.combat.(playerHP := p.playerHP, enemyHP := p.aiHP,
                            comboCount := if c.comboReset then 0 else v.combat.comboCount);
    var run := v.run.(round := p.round, quirkUsed := c.quirkUsed, active := KeepPersistent(v.run.active));
    match p.status
    case Fighting => v.(combat := combat, run := run)
    case RunOver => v.(ctl := v.ctl.(gameState := GameOver, message := DefeatedByAI), combat := combat, run := run)
    case RoundCleared(offer) =>
      if offer then v.(combat := combat, run := run.(pending := OfferPowerUps(shuffled), showChoice := true))
      else v.(ctl := v.ctl.(gameState := InfiniteBattle), combat := combat, run := NewAI(run, nextQuirk))
  }

  /**
   * `processInfiniteTurn`: does nothing before an AI is drawn; otherwise
   * the clash against the current AI is resolved and applied.  `shuffled`
   * is the permutation of the pool that an offer is cut from.
   */
  function InfiniteStep(v: GameView, playerTime: real, sampledAITime: real, shuffled: seq<PowerUp>, nextQuirk: Quirk): (w: GameView)
    requires multiset(shuffled) == multiset(PowerUpPool)
    ensures v.run.ai.None? ==> w == v
    ensures v.run.ai.Some? ==>
      var c := ResolveClash(playerTime, sampledAITime, v.run.permComboBonus, v.run.active, v.run.ai.value, v.run.quirkUsed);
      w == AfterClash(v, c, Advance(v.combat.playerHP, v.combat.enemyHP, v.run.round, c), shuffled, nextQuirk)
    ensures w.party == v.party
  {
    if v.run.ai.None? then v
    else
      var c := ResolveClash(playerTime, sampledAITime, v.run.permComboBonus, v.run.active, v.run.ai.value, v.run.quirkUsed);
      AfterClash(v, c, Advance(v.combat.playerHP, v.combat.enemyHP, v.run.round, c), shuffled, nextQuirk)
  }

  /**
   * An infinite turn never raises a non-negative player HP, drops exactly the
   * one-shot power-ups from the active list, and keeps the state sane.
   */
  lemma InfiniteTurnKeepsSane(v: GameView, playerTime: real, sampledAITime: real, shuffled: seq<PowerUp>, nextQuirk: Quirk)
    requires multiset(shuffled) == multiset(PowerUpPool)
    ensures var w := InfiniteStep(v, playerTime, sampledAITime, shuffled, nextQuirk);
      && (v.run.ai.Some? ==> forall pu :: pu in w.run.active <==> pu in v.run.active && !OneShot(pu))
      && (v.run.ai.Some? && v.combat.playerHP >= 0 ==> w.combat.playerHP <= v.combat.playerHP)
      && (Sane(v) ==> Sane(w))
  {
    if v.run.ai.Some? {
      var c := ResolveClash(playerTime, sampledAITime, v.run.permComboBonus, v.run.active, v.run.ai.value, v.run.quirkUsed);
      var p := Advance(v.combat.playerHP, v.combat.enemyHP, v.run.round, c);
      var w := AfterClash(v, c, p, shuffled, nextQuirk);
      assert w.run.round == p.round;
      assert w.party == v.party;
    }
  }

  /**
   * A power-up button: the pick joins the active list (Heal20 and
   * PermCombo take effect at once), the offer is closed and the next AI
   * is drawn.
   */
  function PickStep(v: GameView, idx: nat, nextQuirk: Quirk): (w: GameView)
    requires idx < |v.run.pending|
    ensures var pu := v.run.pending[idx];
      var e := PickEffect(pu, v.combat.playerHP, v.run.permComboBonus);
      && w.run == Run(v.run.round, Some(nextQuirk), false, v.run.active + [pu], [], false, e.permComboBonus)
      && w.combat == v.combat.(playerHP := e.playerHP)
    ensures w.ctl == v.ctl.(gameState := InfiniteBattle) && w.party == v.party
    ensures Sane(v) ==> Sane(w)
  {
    var pu := v.run.pending[idx];
    var e := PickEffect(pu, v.combat.playerHP, v.run.permComboBonus);
    var picked := v.run.(active := v.run.active + [pu], permComboBonus := e.permComboBonus, showChoice := false, pending := []);
    v.(ctl := v.ctl.(gameState := InfiniteBattle), combat := v.combat.(playerHP := e.playerHP), run := NewAI(picked, nextQuirk))
  }

  /**
   * A finished single-player game stays finished: `processing` is left
   * set, so neither another turn nor an assist changes anything.
   */
  lemma GameOverLocksBattle(v: GameView, playerTime: real, enemyTime: real, p2: real, e2: real, t2: real)
    requires !v.ctl.processing && v.ctl.dataLoaded && v.ctl.gameState != GameOver
    requires TurnStep(v, playerTime, enemyTime).ctl.gameState == GameOver
    ensures var w := TurnStep(v, playerTime, enemyTime);
      TurnStep(w, p2, e2) == w && TymonStep(w, t2, e2) == w
  {
  }

  /** One input of a single-player battle: a typed time, or the Tymon button. */
  datatype BattleInput = Solve(playerTime: real, enemyTime: real) | Assist(tymonTime: real, enemyTime: real)

  /** A battle played input by input: the final state and how many assists fired. */
  function Play(v: GameView, inputs: seq<BattleInput>): (r: (GameView, nat))
    decreases |inputs|
  {
    if inputs == [] then (v, 0)
    else
      match inputs[0]
      case Solve(p, e) => Play(TurnStep(v, p, e), inputs[1..])
      case Assist(t, e) =>
        var rest := Play(TymonStep(v, t, e), inputs[1..]);
        (rest.0, rest.1 + if TymonFires(v) then 1 else 0)
  }

  /** Every assist that fires uses one up: fired assists plus those left is the starting count. */
  lemma {:induction false} AssistsAreCounted(v: GameView, inputs: seq<BattleInput>)
    ensures Play(v, inputs).1 + Play(v, inputs).0.combat.tymonCount == v.combat.tymonCount
    decreases |inputs|
  {
    if inputs != [] {
      match inputs[0]
      case Solve(p, e) =>
        AssistsAreCounted(TurnStep(v, p, e), inputs[1..]);
      case Assist(t, e) =>
        AssistsAreCounted(TymonStep(v, t, e), inputs[1..]);
    }
  }

  /** However a battle goes after the configuration screen, Tymon helps at most three times. */
  lemma AtMostThreeAssists(v: GameView, mult: real, inputs: seq<BattleInput>)
    ensures Play(ConfigStep(v, mult), inputs).1 <= INITIAL_TYMON_COUNT
  {
    AssistsAreCounted(ConfigStep(v, mult), inputs);
  }

  /**
   * A one-shot power-up lasts exactly one turn: it is active after the
   * pick and gone after the next turn, while Heal20 and PermCombo stay.
   */
  lemma OneShotLastsOneTurn(v: GameView, idx: nat, quirk: Quirk, playerTime: real, sampledAITime: real,
                            shuffled: seq<PowerUp>, nextQuirk: Quirk)
    requires idx < |v.run.pending|
    requires multiset(shuffled) == multiset(PowerUpPool)
    ensures var pu := v.run.pending[idx];
      var picked := PickStep(v, idx, quirk);
      var after := InfiniteStep(picked, playerTime, sampledAITime, shuffled, nextQuirk);
      && pu in picked.run.active
      && (pu in after.run.active <==> !OneShot(pu))
  {
    var pu := v.run.pending[idx];
    var picked := PickStep(v, idx, quirk);
    assert picked.run.active[|v.run.active|] == pu;
  }

  /**
   * Clearing a round: the player is still standing, the next AI has 5 HP
   * more per round already played, and power-ups are offered every second
   * round, three different ones; otherwise the next AI is drawn at once.
   */
  lemma ClearingARound(v: GameView, playerTime: real, sampledAITime: real, shuffled: seq<PowerUp>, nextQuirk: Quirk)
    requires multiset(shuffled) == multiset(PowerUpPool)
    requires v.run.ai.Some?
    requires InfiniteStep(v, playerTime, sampledAITime, shuffled, nextQuirk).run.round == v.run.round + 1
    ensures var w := InfiniteStep(v, playerTime, sampledAITime, shuffled, nextQuirk);
      && w.combat.enemyHP == MAX_HP + 5 * v.run.round
      && w.combat.playerHP > 0
      && (w.run.round % 2 == 0 ==>
            w.run.showChoice && |w.run.pending| == 3
            && forall i, j :: 0 <= i < j < 3 ==> w.run.pending[i] != w.run.pending[j])
      && (w.run.round % 2 != 0 ==> w.run.ai == Some(nextQuirk) && !w.run.quirkUsed)
  {
    var c := ResolveClash(playerTime, sampledAITime, v.run.permComboBonus, v.run.active, v.run.ai.value, v.run.quirkUsed);
    var p := Advance(v.combat.playerHP, v.combat.enemyHP, v.run.round, c);
    assert p.status.RoundCleared?;
  }

  /**
   * The component.  Its state variables are kept in four fields, one per
   * group of `GameView`; each handler updates the groups it touches.
   */
  class Game {
    var ctl: Control
    var combat: Combat
    var party: Party
    var run: Run

    function View(): GameView
      reads this
    {
      GameView(ctl, combat, party, run)
    }

    ghost predicate Valid()
      reads this
    {
      Sane(View())
    }

    constructor ()
      ensures View() == Start
      ensures Valid()
    {
      ctl := Control(NameEntry, SingleMode, NoMessage, false, false, 5.0);
      combat := Combat(MAX_HP, MAX_HP, 0, 0, 0, INITIAL_TYMON_COUNT);
      party := Party([], MAX_HP * 2, Coop.NoTask);
      run := Run(1, None, false, [], [], false, 0);
    }

    /** The scramble table has been parsed into `rows` rows. */
    method LoadData(rows: nat)
      requires Valid()
      modifies this
      ensures View() == LoadStep(old(View()), rows)
      ensures Valid()
    {
      ctl := ctl.(dataLoaded := rows > 0);
    }

    method NameEntered(selected: Mode, firstQuirk: Quirk)
      requires Valid()
      modifies this
      ensures View() == NameStep(old(View()), selected, firstQuirk)
      ensures Valid()
    {
      ctl := ctl.(mode := selected);
      if selected == CoopMode {
        ctl := ctl.(gameState := CoopSetup);
      } else if selected == InfiniteMode {
        ctl := ctl.(gameState := InfiniteSetup);
        StartInfiniteRound(firstQuirk);
      } else {
        ctl := ctl.(gameState := DifficultySelect);
      }
    }

    method ConfigStart(mult: real)
      requires Valid()
      modifies this
      ensures View() == ConfigStep(old(View()), mult)
      ensures Valid()
    {
      ctl := ctl.(multiplier := mult);
      combat := Combat(MAX_HP, MAX_HP, 0, 0, 0, INITIAL_TYMON_COUNT);
      ctl := ctl.(processing := false, message := NoMessage, gameState := Battle);
    }

    /**
     * The end of a turn handler: sets the game-over screen, or re-enables
     * turns when `over` is None.  It touches only the screen flow, so it
     * keeps the invariant.
     */
    method Finish(over: Option<Message>)
      modifies this
      ensures View() == old(View()).(ctl := Conclude(old(View()).ctl, over))
      ensures old(Valid()) ==> Valid()
    {
      if over.Some? {
        ctl := ctl.(message := over.value, gameState := GameOver, processing := true);
      } else {
        ctl := ctl.(processing := false);
      }
    }

    method ProcessTurn(playerTime: real, enemyTime: real)
      requires Valid()
      modifies this
      ensures View() == TurnStep(old(View()), playerTime, enemyTime)
      ensures Valid()
    {
      if ctl.processing || !ctl.dataLoaded {
        return;
      }
      ctl := ctl.(processing := true);
      var t := Duel.ResolveTurn(playerTime, enemyTime, combat.playerHP, combat.enemyHP, combat.comboCount, ctl.multiplier);
      combat := combat.(playerHP := t.playerHP, enemyHP := t.enemyHP, comboCount := t.combo);
      if t.playerHP <= 0 || t.enemyHP <= 0 {
        Finish(Some(if t.playerHP <= 0 then YouWereDefeated else YouDefeatedTheEnemy));
      } else {
        Finish(None);
      }
    }

    method UseTymon(tymonTime: real, enemyTime: real)
      requires Valid()
      modifies this
      ensures View() == TymonStep(old(View()), tymonTime, enemyTime)
      ensures Valid()
    {
      if combat.tymonCount > 0 && !ctl.processing && ctl.dataLoaded {
        combat := combat.(tymonCount := combat.tymonCount - 1);
        ProcessTurn(tymonTime, enemyTime);
      }
    }

    method ProcessMultiplayerTurn(p1Time: real, p2Time: real)
      requires Valid()
      modifies this
      ensures View() == DuelStep(old(View()), p1Time, p2Time)
      ensures Valid()
    {
      if ctl.processing {
        return;
      }
      ctl := ctl.(processing := true);
      var d := Duel.ResolveDuel(p1Time, p2Time, combat.playerHP, combat.enemyHP, combat.p1Combo, combat.p2Combo, ctl.multiplier);
      combat := combat.(playerHP := d.p1HP, enemyHP := d.p2HP, p1Combo := d.p1Combo, p2Combo := d.p2Combo);
      if d.p1HP <= 0 || d.p2HP <= 0 {
        Finish(Some(if d.p1HP <= 0 then Player2Wins else Player1Wins));
      } else {
        Finish(None);
      }
    }

    method CoopStart(players: nat, kindDraw: real, targetDraw: real)
      requires Valid()
      requires 0.0 <= kindDraw < 1.0 && 0.0 <= targetDraw < 1.0
      modifies this
      ensures View() == CoopStartStep(old(View()), players, kindDraw, targetDraw)
      ensures Valid()
    {
      party := Party(seq(players, _ => MAX_HP), Coop.BossStartHP(players), Coop.GenerateCoopTask(kindDraw, targetDraw));
      ctl := ctl.(gameState := Battle);
    }

    method ProcessCoopTurn(times: seq<real>, bossTime: real, kindDraw: real, targetDraw: real)
      requires Valid() && |times| == |party.hps|
      requires 0.0 <= kindDraw < 1.0 && 0.0 <= targetDraw < 1.0
      modifies this
      ensures View() == CoopStep(old(View()), times, bossTime, kindDraw, targetDraw)
      ensures Valid()
    {
      if ctl.processing || !ctl.dataLoaded {
        return;
      }
      ctl := ctl.(processing := true);
      var r := Coop.ResolveCoopTurn(times, party.hps, party.bossHP, bossTime, party.task, ctl.multiplier);
      party := Party(r.hps, r.bossHP, Coop.GenerateCoopTask(kindDraw, targetDraw));
      match r.ending
      case Continue => Finish(None);
      case BossDefeated => Finish(Some(BossIsDefeated));
      case PlayersDefeated => Finish(Some(AllPlayersDefeated));
    }

    /** `startInfiniteRound`: draws the next AI; HP and round are untouched, so the invariant is kept. */
    method StartInfiniteRound(quirk: Quirk)
      modifies this
      ensures View() == old(View()).(run := NewAI(old(View()).run, quirk))
      ensures old(Valid()) ==> Valid()
    {
      run := run.(ai := Some(quirk), quirkUsed := false);
    }

    method StartInfiniteBattle()
      requires Valid()
      modifies this
      ensures View() == StartInfiniteStep(old(View()))
      ensures Valid()
    {
      run := run.(round := 1);
      ctl := ctl.(gameState := InfiniteBattle);
    }

    method ProcessInfiniteTurn(playerTime: real, sampledAITime: real, shuffled: seq<PowerUp>, nextQuirk: Quirk)
      requires Valid()
      requires multiset(shuffled) == multiset(PowerUpPool)
      modifies this
      ensures View() == InfiniteStep(old(View()), playerTime, sampledAITime, shuffled, nextQuirk)
      ensures Valid()
    {
      if run.ai.None? {
        return;
      }
      var c := ResolveClash(playerTime, sampledAITime, run.permComboBonus, run.active, run.ai.value, run.quirkUsed);
      var p := Advance(combat.playerHP, combat.enemyHP, run.round, c);
      ApplyClash(c, p, shuffled, nextQuirk);
      InfiniteTurnKeepsSane(old(View()), playerTime, sampledAITime, shuffled, nextQuirk);
    }

    /**
     * The state updates of `processInfiniteTurn` once the clash and its
     * progress are known.  An internal step of `ProcessInfiniteTurn`,
     * which passes the clash and progress of the current state and then
     * re-establishes the invariant through `InfiniteTurnKeepsSane`; with
     * an arbitrary clash the invariant need not hold.
     */
    method ApplyClash(c: Clash, p: Progress, shuffled: seq<PowerUp>, nextQuirk: Quirk)
      requires multiset(shuffled) == multiset(PowerUpPool)
      modifies this
      ensures View() == AfterClash(old(View()), c, p, shuffled, nextQuirk)
    {
      combat := combat.(playerHP := p.playerHP, enemyHP := p.aiHP,
                        comboCount := if c.comboReset then 0 else combat.comboCount);
      run := run.(round := p.round, quirkUsed := c.quirkUsed, active := KeepPersistent(run.active));
      match p.status {
        case Fighting =>
        case RunOver =>
          ctl := ctl.(message := DefeatedByAI, gameState := GameOver);
        case RoundCleared(offer) =>
          if offer {
            run := run.(pending := OfferPowerUps(shuffled), showChoice := true);
          } else {
            StartInfiniteRound(nextQuirk);
            ctl := ctl.(gameState := InfiniteBattle);
          }
      }
    }

    method PickPowerUp(idx: nat, nextQuirk: Quirk)
      requires Valid() && idx < |run.pending|
      modifies this
      ensures View() == PickStep(old(View()), idx, nextQuirk)
      ensures Valid()
    {
      var pu := run.pending[idx];
      run := run.(active := run.active + [pu]);
      var e := PickEffect(pu, combat.playerHP, run.permComboBonus);
      combat := combat.(playerHP := e.playerHP);
      run := run.(permComboBonus := e.permComboBonus, showChoice := false, pending := []);
      StartInfiniteRound(nextQuirk);
      ctl := ctl.(gameState := InfiniteBattle);
    }
  }
}
