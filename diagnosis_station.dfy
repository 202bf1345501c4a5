/**
 * The diagnosis station (client/src/components/stations/DiagnosisStation.tsx):
 * a timed round in which the player clicks the current patient's symptoms,
 * scored by the fraction found. The component's state (selected patient,
 * whether a round is running, the clicked symptom indices, the seconds left)
 * is the class Station; the countdown interval is the CountdownTick method.
 */
module DiagnosisStation {
  import opened Wrappers
  import opened Lists
  import opened GameContext

  /** The length of a round, in seconds. */
  const ROUND_SECONDS: int := 15

  /** The report finishDiagnosis sends: success iff the score is at least 50, two bonus points per second left. */
  function DiagnosisReport(found: nat, total: nat, timeLeft: int): (r: MiniGameResult)
    requires total > 0
    ensures r.success <==> 2 * found >= total
    ensures r.score == Percent(found, total)
    ensures r.timeBonus == 2 * timeLeft
  {
    var score := Percent(found, total);
    MiniGameResult(score >= 50.0, score, timeLeft * 2)
  }

  /** The symptom indices 0 .. n-1, one button each. */
  function Indices(n: nat): (r: seq<nat>)
    ensures |r| == n && forall i :: 0 <= i < n ==> r[i] == i
  {
    if n == 0 then [] else Indices(n - 1) + [n - 1]
  }

  /** Duplicate-free clicks on the symptom buttons of a diagnosis never outnumber its symptoms, so the score is at most 100. */
  lemma ClickedWithinSymptoms(clicked: seq<nat>, total: nat)
    requires Distinct(clicked) && forall k :: k in clicked ==> k < total
    ensures |clicked| <= total
    ensures total > 0 ==> Percent(|clicked|, total) <= 100.0
  {
    var buttons := Indices(total);
    forall k | k in clicked
      ensures k in buttons
    {
      assert buttons[k] == k;
    }
    DistinctWithinBound(clicked, buttons);
  }

  /**
   * The values a finishDiagnosis closure sees: the current patient, the
   * clicked symptoms and the seconds left of the render that created it.
   */
  datatype Captured = Captured(patient: Option<Patient>, clicked: seq<nat>, timeLeft: int)

  /** A captured patient has symptoms, so the score has a non-zero denominator. */
  predicate CapturedOk(c: Captured) {
    c.patient.Some? ==> WellFormed(c.patient.value.diagnosis)
  }

  /**
   * The game state once a finishDiagnosis closure that captured c has run:
   * without a captured patient nothing happens; otherwise that patient is sent
   * on to the pharmacy with its diagnosis marked done, whatever its status is
   * by now, and nothing else changes (the report itself is ignored).
   */
  function AfterFinish(g: GameState, c: Captured): (r: GameState)
    requires CapturedOk(c)
    ensures c.patient.None? ==> r == g
    ensures c.patient.Some? ==>
      && r.(patients := g.patients) == g && |r.patients| == |g.patients|
      && forall i :: 0 <= i < |g.patients| ==>
           var q := g.patients[i];
           r.patients[i] == if q.id == c.patient.value.id
                            then q.(status := Pharmacy, progress := q.progress.(diagnosisComplete := true))
                            else q
  {
    match c.patient
    case None => g
    case Some(p) => DiagnosisCompleted(g, p.id, DiagnosisReport(|c.clicked|, |p.diagnosis.symptoms|, c.timeLeft))
  }

  /**
   * A patient who failed while the round was running is still sent on by the
   * closure that captured it at the start of the round.
   */
  lemma FailedPatientSentOn(g: GameState, c: Captured, i: nat)
    requires CapturedOk(c) && c.patient.Some?
    requires i < |g.patients| && g.patients[i].id == c.patient.value.id && g.patients[i].status == Failed
    ensures AfterFinish(g, c).patients[i].status == Pharmacy
    ensures AfterFinish(g, c).patients[i].progress.diagnosisComplete
  {
  }

  // ---------------------------------------------------------------------------
  // The reports the captured values produce

  /**
   * The 500 ms auto-finish captures the clicks of the render BEFORE the click
   * that finds the last symptom, so it reports one symptom short: 66.67 with
   * three symptoms, and a failure with one.
   */
  lemma AutoFinishUnderReports(clickedBefore: seq<nat>, total: nat, timeLeft: int)
    requires total > 0 && |clickedBefore| + 1 == total
    ensures DiagnosisReport(|clickedBefore|, total, timeLeft).score < 100.0
    ensures total == 3 ==> DiagnosisReport(|clickedBefore|, total, timeLeft).score == 200.0 / 3.0
    ensures total == 1 ==> !DiagnosisReport(|clickedBefore|, total, timeLeft).success
  {
  }

  /** The auto-finish as intended: every symptom found, a full score and a success. */
  lemma AutoFinishReportsAllFound(clickedBefore: seq<nat>, index: nat, total: nat, timeLeft: int)
    requires total > 0 && |clickedBefore| + 1 == total
    ensures DiagnosisReport(|clickedBefore + [index]|, total, timeLeft).score == 100.0
    ensures DiagnosisReport(|clickedBefore + [index]|, total, timeLeft).success
  {
  }

  /**
   * The countdown interval is created when the round starts, so it captures no
   * clicks and 15 seconds: a round that times out always reports a failed
   * score of 0 with a 30-point time bonus.
   */
  lemma TimeoutReportIgnoresClicks(total: nat)
    requires total > 0
    ensures DiagnosisReport(0, total, ROUND_SECONDS).score == 0.0
    ensures !DiagnosisReport(0, total, ROUND_SECONDS).success
    ensures DiagnosisReport(0, total, ROUND_SECONDS).timeBonus == 30
  {
  }

  /** As intended, a timed-out round that found at least half of the symptoms is a success with a bonus of at most 2. */
  lemma TimeoutReportCountsClicks(clicked: seq<nat>, total: nat, timeLeft: int)
    requires total > 0 && 2 * |clicked| >= total && timeLeft <= 1
    ensures DiagnosisReport(|clicked|, total, timeLeft).success
    ensures DiagnosisReport(|clicked|, total, timeLeft).timeBonus <= 2
  {
  }

  // ---------------------------------------------------------------------------
  // The component

  /**
   * The component's state, and `timer`: the values captured by the countdown
   * interval, which is created only when `gameActive` turns true.
   */
  class Station {
    var selectedPatient: Option<PatientId>
    var gameActive: bool
    var clickedSymptoms: seq<nat>
    var timeLeft: int
    var timer: Captured

    ghost predicate Valid()
      reads this
    {
      Distinct(clickedSymptoms) && CapturedOk(timer)
    }

    /** The current patient: the selected one among the patients in diagnosis. */
    function Current(g: GameState): Option<Patient>
      reads this
    {
      Selected(g.patients, Diagnosing, selectedPatient)
    }

    constructor ()
      ensures Valid()
      ensures selectedPatient == None && !gameActive && clickedSymptoms == [] && timeLeft == ROUND_SECONDS
      ensures timer.patient == None
    {
      selectedPatient := None;
      gameActive := false;
      clickedSymptoms := [];
      timeLeft := ROUND_SECONDS;
      timer := Captured(None, [], ROUND_SECONDS);
    }

    /**
     * startDiagnosis: select the patient and start a fresh round. When the
     * round was not running, the new countdown captures the patient of the
     * new render, no clicks and 15 seconds; otherwise the running countdown,
     * and what it captured, are kept.
     */
    method StartDiagnosis(id: PatientId, game: GameProvider)
      requires Valid() && game.Valid()
      modifies this
      ensures Valid()
      ensures selectedPatient == Some(id) && gameActive && clickedSymptoms == [] && timeLeft == ROUND_SECONDS
      ensures !old(gameActive) ==> timer == Captured(Selected(game.state.patients, Diagnosing, Some(id)), [], ROUND_SECONDS)
      ensures old(gameActive) ==> timer == old(timer)
    {
      if !gameActive {
        SelectedWellFormed(game.state.patients, Diagnosing, Some(id));
        timer := Captured(Selected(game.state.patients, Diagnosing, Some(id)), [], ROUND_SECONDS);
      }
      selectedPatient := Some(id);
      gameActive := true;
      clickedSymptoms := [];
      timeLeft := ROUND_SECONDS;
    }

    /**
     * handleSymptomClick: a symptom not yet clicked is appended, so the list
     * stays duplicate-free. The click that completes the count schedules the
     * auto-finish, returned as the values its closure captured: the current
     * patient, the clicks before this one and the seconds left.
     */
    method HandleSymptomClick(index: nat, game: GameProvider) returns (scheduled: Option<Captured>)
      requires Valid() && game.Valid()
      modifies this
      ensures Valid()
      ensures selectedPatient == old(selectedPatient) && gameActive == old(gameActive)
      ensures timeLeft == old(timeLeft) && timer == old(timer)
      ensures index in old(clickedSymptoms) ==> clickedSymptoms == old(clickedSymptoms)
      ensures index !in old(clickedSymptoms) ==> clickedSymptoms == old(clickedSymptoms) + [index]
      ensures scheduled.Some? <==>
        && index !in old(clickedSymptoms)
        && Current(game.state).Some?
        && |old(clickedSymptoms)| + 1 == |Current(game.state).value.diagnosis.symptoms|
      ensures scheduled.Some? ==>
        scheduled.value == Captured(Current(game.state), old(clickedSymptoms), old(timeLeft)) && CapturedOk(scheduled.value)
    {
      scheduled := None;
      if index !in clickedSymptoms {
        var current := Current(game.state);
        if current.Some? && |clickedSymptoms| + 1 == |current.value.diagnosis.symptoms| {
          SelectedWellFormed(game.state.patients, Diagnosing, selectedPatient);
          scheduled := Some(Captured(current, clickedSymptoms, timeLeft));
        }
        clickedSymptoms := clickedSymptoms + [index];
      }
    }

    /**
     * finishDiagnosis, run by a closure that captured c (the countdown's
     * `timer`, or the auto-finish a click scheduled): without a captured
     * patient nothing happens; otherwise that patient's report goes to
     * completeDiagnosis and the round is closed.
     */
    method FinishDiagnosis(c: Captured, game: GameProvider)
      requires Valid() && game.Valid() && CapturedOk(c)
      modifies this, game
      ensures Valid() && game.Valid() && game.nextId == old(game.nextId)
      ensures game.state == AfterFinish(old(game.state), c)
      ensures c.patient.None? ==>
        selectedPatient == old(selectedPatient) && gameActive == old(gameActive) && clickedSymptoms == old(clickedSymptoms)
      ensures c.patient.Some? ==> selectedPatient == None && !gameActive && clickedSymptoms == []
      ensures timeLeft == old(timeLeft) && timer == old(timer)
    {
      if c.patient.Some? {
        var p := c.patient.value;
        game.CompleteDiagnosis(p.id, DiagnosisReport(|c.clicked|, |p.diagnosis.symptoms|, c.timeLeft));
        CloseRound();
      }
    }

    /** The end of a round: no patient selected, not active, no clicks; the clock and the countdown's capture are left as they are. */
    method CloseRound()
      requires CapturedOk(timer)
      modifies this
      ensures Valid() && selectedPatient == None && !gameActive && clickedSymptoms == []
      ensures timeLeft == old(timeLeft) && timer == old(timer)
    {
      gameActive := false;
      selectedPatient := None;
      clickedSymptoms := [];
    }

    /**
     * One second of the running round: above one second the clock counts
     * down; otherwise the countdown's closure finishes the round with the
     * values it captured at the start, and the clock shows 0.
     */
    method CountdownTick(game: GameProvider)
      requires Valid() && game.Valid() && gameActive
      modifies this, game
      ensures Valid() && game.Valid() && game.nextId == old(game.nextId) && timer == old(timer)
      ensures old(timeLeft) > 1 ==>
        && timeLeft == old(timeLeft) - 1 && game.state == old(game.state)
        && selectedPatient == old(selectedPatient) && gameActive && clickedSymptoms == old(clickedSymptoms)
      ensures old(timeLeft) <= 1 ==>
        && timeLeft == 0
        && game.state == AfterFinish(old(game.state), old(timer))
        && (old(timer).patient.Some? ==> selectedPatient == None && !gameActive && clickedSymptoms == [])
        && (old(timer).patient.None? ==>
              selectedPatient == old(selectedPatient) && gameActive && clickedSymptoms == old(clickedSymptoms))
    {
      if timeLeft <= 1 {
        FinishDiagnosis(timer, game);
        timeLeft := 0;
      } else {
        timeLeft := timeLeft - 1;
      }
    }
  }

  /** Only patients in diagnosis are listed, and every one of them is. */
  lemma ListsOnlyDiagnosing(g: GameState, i: nat)
    requires i < |g.patients|
    ensures g.patients[i] in WithStatus(g.patients, Diagnosing) <==> g.patients[i].status == Diagnosing
  {
  }
}
