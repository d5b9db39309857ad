/**
 * The infinite-mode battle screen's own rules
 * (src/components/InfiniteBattleScreen.jsx): the AI-time hint shown by
 * the See AI Time power-up, the win/lose prediction shown on submit, and
 * which inputs may be submitted.
 */
module InfiniteScreen {
  import opened Rules
  import opened Infinite

  /** The AI time the screen predicts: 12.00 under freeze, otherwise 12 + round. */
  function PredictedAITime(quirk: Quirk, round: int): (t: real)
    ensures quirk == Freeze ==> t == 12.0
    ensures quirk != Freeze ==> t == 12.0 + round as real
  {
    if quirk == Freeze then 12.0 else 12.0 + round as real
  }

  /**
   * The hint: present exactly when the See AI Time flag is set and an AI
   * exists, and then it is the predicted time.
   */
  function AITimeHint(showAIRealTime: bool, ai: Option<Quirk>, round: int): (hint: Option<real>)
    ensures hint.Some? <==> showAIRealTime && ai.Some?
    ensures hint.Some? ==> hint.value == PredictedAITime(ai.value, round)
  {
    if showAIRealTime && ai.Some? then Some(PredictedAITime(ai.value, round)) else None
  }

  /** The predicted result: a win iff faster than the predicted time, flipped by the reverse quirk. */
  function PredictWin(time: real, quirk: Quirk, round: int): (win: bool)
    ensures quirk != Reverse ==> (win <==> time < PredictedAITime(quirk, round))
    ensures quirk == Reverse ==> (win <==> time >= PredictedAITime(quirk, round))
  {
    var playerWins := time < PredictedAITime(quirk, round);
    if quirk == Reverse then !playerWins else playerWins
  }

  /**
   * A time can be submitted only if the input parses to a number above 0
   * (`parsed` is `parseFloat` of the input, None for NaN).  The submit
   * button is disabled when the input is NaN or at most 0, so it is
   * enabled exactly when the form would accept the time.
   */
  predicate CanSubmit(parsed: Option<real>): (ok: bool)
    ensures ok <==> !(parsed.None? || parsed.value <= 0.0)
  {
    parsed.Some? && parsed.value > 0.0
  }

  /**
   * The submit handler's result: ignored input, an accepted time with the
   * shown prediction, or the handler failing because there is no AI (it
   * reads the AI's quirk unguarded).
   */
  datatype Submission = Ignored | Accepted(time: real, predictedWin: bool) | NoOpponent

  /** The input text after a submission attempt: cleared exactly when a time was accepted. */
  datatype ScreenAfter = ScreenAfter(input: string, submission: Submission)

  function Submit(input: string, parsed: Option<real>, ai: Option<Quirk>, round: int): (r: ScreenAfter)
    ensures r.submission.Ignored? <==> !CanSubmit(parsed)
    ensures r.submission.NoOpponent? <==> CanSubmit(parsed) && ai.None?
    ensures r.submission.Accepted? ==>
      && parsed == Some(r.submission.time) && r.submission.time > 0.0
      && ai.Some? && r.submission.predictedWin == PredictWin(r.submission.time, ai.value, round)
    ensures r.input == (if r.submission.Accepted? then "" else input)
  {
    if !CanSubmit(parsed) then ScreenAfter(input, Ignored)
    else if ai.None? then ScreenAfter(input, NoOpponent)
    else ScreenAfter("", Accepted(parsed.value, PredictWin(parsed.value, ai.value, round)))
  }

  /**
   * The prediction is the real outcome whenever the real AI time is the
   * predicted one: always under freeze, otherwise when the sample happens
   * to be 12 + round.
   */
  lemma PredictionMatchesResolver(time: real, sampled: real, quirk: Quirk, round: int,
                                  permComboBonus: nat, active: seq<PowerUp>, quirkUsed: bool)
    requires quirk == Freeze || sampled == PredictedAITime(quirk, round)
    ensures PredictWin(time, quirk, round)
      == ResolveClash(time, sampled, permComboBonus, active, quirk, quirkUsed).playerWins
  {
  }

  /**
   * Away from freeze the prediction can be wrong: in round 1 a time of
   * 12.5 is predicted a win (against 13.00) but loses to a sampled 12.0.
   */
  lemma PredictionCanMiss()
    ensures PredictWin(12.5, NoQuirk, 1) && !ResolveClash(12.5, 12.0, 0, [], NoQuirk, false).playerWins
  {
  }
}
