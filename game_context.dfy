/**
 * The clinic's game-state engine (client/src/contexts/GameContext.tsx).
 *
 * Every operation of the provider is a pure reducer from one GameState to the
 * next; the class GameProvider at the end holds the current state and the
 * patient-id counter and applies them. Random draws and the clock are
 * parameters; the two interval callbacks are the tick methods.
 *
 * Patience is in half-points (see GameData): `h` stands for patience h / 2.
 */
module GameContext {
  import opened Wrappers
  import opened GameData
  import opened Achievements
  import opened Lists

  datatype Phase = Menu | Playing | Paused | GameOver

  datatype Station = OrderDesk | DiagnosisDesk | PharmacyDesk | AcupunctureDesk | ServingDesk

  datatype Status = Waiting | Diagnosing | Pharmacy | Acupuncture | Serving | Completed | Failed

  datatype Progress = Progress(diagnosisComplete: bool, pharmacyComplete: bool, acupunctureComplete: bool)

  /** A patient id `P<n>` is represented by its number n. */
  type PatientId = nat

  /** `avatar` is the index n of the image `/patient-<n>.png`; `patience` is in half-points. */
  datatype Patient = Patient(
    id: PatientId, name: string, avatar: nat, diagnosis: Diagnosis,
    patience: nat, orderTime: int, status: Status, progress: Progress)

  /** `coinSteps` counts the 0.2 steps of the coin multiplier: the multiplier is 1.0 + 0.2 * coinSteps. */
  datatype Upgrades = Upgrades(diagnosisSpeed: nat, pharmacySlots: nat, patienceBoost: nat, coinSteps: nat)

  /** A treatment time; the provider only ever stores Infinity. */
  datatype Duration = Infinity | Millis(ms: nat)

  datatype Statistics = Statistics(
    totalPatientsServed: nat, perfectTreatments: nat, maxCombo: nat, currentCombo: nat,
    fastestTreatment: Duration, totalPlayTime: nat, highestLevel: nat)

  /** What a station reports when its mini-game ends. */
  datatype MiniGameResult = MiniGameResult(success: bool, score: real, timeBonus: int)

  datatype GameState = GameState(
    phase: Phase, currentStation: Station,
    level: nat, experience: int, experienceToNextLevel: int,
    coins: int, reputation: int, day: nat,
    patients: seq<Patient>, completedOrders: nat, failedOrders: nat,
    unlockedDiseases: seq<string>, upgrades: Upgrades,
    achievements: seq<Achievement>, statistics: Statistics)

  /** A mini-game score, part / whole * 100: within [0, 100] when part <= whole, and 50 or more iff part is at least half of whole. */
  function Percent(part: nat, whole: nat): (score: real)
    requires whole > 0
    ensures 0.0 <= score
    ensures part <= whole ==> score <= 100.0
    ensures part == whole ==> score == 100.0
    ensures score >= 50.0 <==> 2 * part >= whole
  {
    var t := whole as real;
    var a := (100 * part) as real;
    DivByPositive(a, t, 0.0);
    DivByPositive(a, t, 100.0);
    DivByPositive(a, t, 50.0);
    a / t
  }

  /** Dividing by a positive number preserves comparisons once both sides are scaled back. */
  lemma DivByPositive(a: real, t: real, c: real)
    requires t > 0.0
    ensures (a / t) * t == a
    ensures a / t >= c <==> a >= c * t
    ensures a / t <= c <==> a <= c * t
  {
    var q := a / t;
    assert q * t == a;
    assert (q - c) * t == a - c * t;
    if q > c {
      assert (q - c) * t > 0.0;
    } else if q < c {
      assert (c - q) * t > 0.0;
    }
  }

  /** The upgrade named by the string argument of upgradeClinic; any other string is Unrecognised. */
  datatype UpgradeType = DiagnosisSpeed | PharmacySlots | PatienceBoost | CoinMultiplier | Unrecognised(name: string)

  predicate WellFormed(d: Diagnosis) {
    |d.symptoms| > 0 && |d.prescription.herbs| > 0
  }

  predicate IsTerminal(s: Status) {
    s == Completed || s == Failed
  }

  // ---------------------------------------------------------------------------
  // Initial state and the patient factory

  const INITIAL_UPGRADES: Upgrades := Upgrades(1, 2, 0, 0)

  const INITIAL_STATISTICS: Statistics := Statistics(0, 0, 0, 0, Infinity, 0, 1)

  /**
   * The state the provider starts in (phase Menu, no patients) and that
   * startGame installs; the first five catalogue ids are unlocked
   * (InitialUnlockedAreFirstFive).
   */
  function InitialState(phase: Phase, patients: seq<Patient>): (s: GameState)
    ensures s.level == 1 && s.experience == 0 && s.experienceToNextLevel == 100
    ensures s.coins == 500 && s.reputation == 0 && s.day == 1
    ensures s.completedOrders == 0 && s.failedOrders == 0 && s.achievements == []
    ensures s.unlockedDiseases == UNLOCK_ORDER[..5]
    ensures s.phase == phase && s.patients == patients && s.currentStation == OrderDesk
    ensures s.upgrades == Upgrades(1, 2, 0, 0)
    ensures s.statistics == Statistics(0, 0, 0, 0, Infinity, 0, 1)
  {
    GameState(phase, OrderDesk, 1, 0, 100, INITIAL_COINS, INITIAL_REPUTATION, 1, patients, 0, 0,
              UNLOCK_ORDER[..5], INITIAL_UPGRADES, [], INITIAL_STATISTICS)
  }

  /**
   * generatePatient: the diagnosis, the name and the avatar are random draws,
   * given here as indices (`Math.floor(Math.random() * n)` lies in 0..n-1),
   * and `now` is Date.now().
   */
  function NewPatient(id: PatientId, diagIndex: nat, nameIndex: nat, avatarIndex: nat, now: int): (p: Patient)
    requires diagIndex < |DIAGNOSES| && nameIndex < |PATIENT_NAMES| && 1 <= avatarIndex <= 2
    ensures p.id == id && p.avatar in {1, 2}
    ensures p.patience == FULL_PATIENCE && p.status == Waiting && p.orderTime == now
    ensures !p.progress.diagnosisComplete && !p.progress.pharmacyComplete && !p.progress.acupunctureComplete
  {
    Patient(id, PATIENT_NAMES[nameIndex], avatarIndex, DIAGNOSES[diagIndex], FULL_PATIENCE, now, Waiting,
            Progress(false, false, false))
  }

  /** A new patient's diagnosis comes from the catalogue and its name from the name pool. */
  lemma NewPatientFromPools(id: PatientId, diagIndex: nat, nameIndex: nat, avatarIndex: nat, now: int)
    requires diagIndex < |DIAGNOSES| && nameIndex < |PATIENT_NAMES| && 1 <= avatarIndex <= 2
    ensures NewPatient(id, diagIndex, nameIndex, avatarIndex, now).diagnosis in DIAGNOSES
    ensures NewPatient(id, diagIndex, nameIndex, avatarIndex, now).name in PATIENT_NAMES
  {
  }

  /** Every diagnosis a new patient can draw has symptoms to find and herbs to pick. */
  lemma NewPatientWellFormed(id: PatientId, diagIndex: nat, nameIndex: nat, avatarIndex: nat, now: int)
    requires diagIndex < |DIAGNOSES| && nameIndex < |PATIENT_NAMES| && 1 <= avatarIndex <= 2
    ensures WellFormed(NewPatient(id, diagIndex, nameIndex, avatarIndex, now).diagnosis)
  {
    CatalogueShape();
  }

  // ---------------------------------------------------------------------------
  // The patience-decay tick

  /** One decay step of one patient: terminal patients are untouched, others lose 0.5 and fail at 0. */
  function DecayPatient(p: Patient): (q: Patient)
    ensures IsTerminal(p.status) ==> q == p
    ensures !IsTerminal(p.status) ==> q.patience == if p.patience > 0 then p.patience - PATIENCE_DECAY_RATE else 0
    ensures !IsTerminal(p.status) ==> (q.status == Failed <==> q.patience == 0)
    ensures !IsTerminal(p.status) && q.patience > 0 ==> q.status == p.status
    ensures q == p.(patience := q.patience, status := q.status)
  {
    if IsTerminal(p.status) then p
    else
      var newPatience := if p.patience > PATIENCE_DECAY_RATE then p.patience - PATIENCE_DECAY_RATE else 0;
      if newPatience == 0 then p.(status := Failed, patience := 0) else p.(patience := newPatience)
  }

  /** `patients.map(decay)`. */
  function DecayAll(ps: seq<Patient>): (r: seq<Patient>)
    ensures |r| == |ps|
    ensures forall i :: 0 <= i < |ps| ==> r[i] == DecayPatient(ps[i])
  {
    if ps == [] then [] else [DecayPatient(ps[0])] + DecayAll(ps[1..])
  }

  /** The body of the decay interval: only the patient list changes (failedOrders is not bumped). */
  function Decay(s: GameState): (r: GameState)
    ensures r.(patients := s.patients) == s
    ensures |r.patients| == |s.patients|
    ensures forall i :: 0 <= i < |s.patients| ==> r.patients[i] == DecayPatient(s.patients[i])
  {
    s.(patients := DecayAll(s.patients))
  }

  /** k decay ticks applied to one patient. */
  function DecayTimes(p: Patient, k: nat): Patient {
    if k == 0 then p else DecayPatient(DecayTimes(p, k - 1))
  }

  /** k decay ticks applied to the whole state. */
  function DecayTicks(s: GameState, k: nat): GameState {
    if k == 0 then s else Decay(DecayTicks(s, k - 1))
  }

  /**
   * A patient that is still active with patience h > 0 keeps its status and
   * loses one half-point per tick for h - 1 ticks, and fails with patience 0
   * on tick h, never earlier.
   */
  lemma {:induction false} DecayCountdown(p: Patient, k: nat)
    requires !IsTerminal(p.status) && p.patience > 0
    ensures DecayTimes(p, k).patience == if k < p.patience then p.patience - k else 0
    ensures DecayTimes(p, k).status == (if k < p.patience then p.status else Failed)
    ensures DecayTimes(p, k) == p.(patience := DecayTimes(p, k).patience, status := DecayTimes(p, k).status)
  {
    if k > 0 {
      DecayCountdown(p, k - 1);
    }
  }

  /** A fresh patient left alone is still waiting after 199 ticks and has failed after 200. */
  lemma FreshPatientFailsAfter200Ticks(p: Patient)
    requires p.patience == FULL_PATIENCE && p.status == Waiting
    ensures DecayTimes(p, 199).status == Waiting && DecayTimes(p, 199).patience == 1
    ensures DecayTimes(p, 200).status == Failed && DecayTimes(p, 200).patience == 0
  {
    DecayCountdown(p, 199);
    DecayCountdown(p, 200);
  }

  /** k ticks of the whole state act on each patient independently and change nothing else. */
  lemma {:induction false} DecayTicksPointwise(s: GameState, k: nat)
    ensures DecayTicks(s, k).(patients := s.patients) == s
    ensures |DecayTicks(s, k).patients| == |s.patients|
    ensures forall i :: 0 <= i < |s.patients| ==> DecayTicks(s, k).patients[i] == DecayTimes(s.patients[i], k)
  {
    if k > 0 {
      DecayTicksPointwise(s, k - 1);
    }
  }

  // ---------------------------------------------------------------------------
  // The spawn tick

  /** The number of patients that are neither completed nor failed. */
  function ActiveCount(ps: seq<Patient>): (n: nat)
    ensures n <= |ps|
    ensures n == 0 <==> forall i :: 0 <= i < |ps| ==> IsTerminal(ps[i].status)
  {
    if ps == [] then 0 else (if IsTerminal(ps[0].status) then 0 else 1) + ActiveCount(ps[1..])
  }

  /** `MAX_PATIENTS_PER_LEVEL[level - 1] || 3`. */
  function MaxPatients(level: nat): (cap: nat)
    ensures 1 <= cap <= 5
    ensures level == 0 || level > |MAX_PATIENTS_PER_LEVEL| ==> cap == 3
  {
    if 1 <= level <= |MAX_PATIENTS_PER_LEVEL| && MAX_PATIENTS_PER_LEVEL[level - 1] != 0
    then MAX_PATIENTS_PER_LEVEL[level - 1] else 3
  }

  /** `PATIENT_SPAWN_INTERVAL[level - 1] || 10000`, in milliseconds. */
  function SpawnInterval(level: nat): (ms: nat)
    ensures 5000 <= ms <= 30000
    ensures level == 0 || level > |PATIENT_SPAWN_INTERVAL| ==> ms == 10000
  {
    if 1 <= level <= |PATIENT_SPAWN_INTERVAL| && PATIENT_SPAWN_INTERVAL[level - 1] != 0
    then PATIENT_SPAWN_INTERVAL[level - 1] else 10000
  }

  /** Within the tables, a higher level never lowers the cap and always spawns faster. */
  lemma SpawnScheduleMonotone(level: nat, level': nat)
    requires 1 <= level < level' <= 10
    ensures MaxPatients(level) <= MaxPatients(level')
    ensures SpawnInterval(level) > SpawnInterval(level')
  {
    LevelTables();
  }

  /** Beyond level 10 the fallbacks apply: the cap drops from 5 to 3 and the interval doubles. */
  lemma SpawnScheduleFallback(level: nat)
    requires level > 10
    ensures MaxPatients(level) == 3 < MaxPatients(10) == 5
    ensures SpawnInterval(level) == 10000 == 2 * SpawnInterval(10)
  {
  }

  /** The body of the spawn interval, with `p` the patient generatePatient would produce. */
  function Spawn(s: GameState, p: Patient): (r: GameState)
    ensures ActiveCount(s.patients) >= MaxPatients(s.level) ==> r == s
    ensures ActiveCount(s.patients) < MaxPatients(s.level) ==> r == s.(patients := s.patients + [p])
  {
    if ActiveCount(s.patients) >= MaxPatients(s.level) then s else s.(patients := s.patients + [p])
  }

  /**
   * With the counter at n, a spawned patient numbered n + 1 is above every
   * earlier id: ids stay in spawn order and below the advanced counter.
   */
  lemma SpawnedIdIsFresh(s: GameState, n: nat, diagIndex: nat, nameIndex: nat, avatarIndex: nat, now: int)
    requires IdsBelow(s.patients, n)
    requires diagIndex < |DIAGNOSES| && nameIndex < |PATIENT_NAMES| && 1 <= avatarIndex <= 2
    ensures forall i :: 0 <= i < |s.patients| ==> s.patients[i].id < NewPatient(n + 1, diagIndex, nameIndex, avatarIndex, now).id
    ensures IdsBelow(Spawn(s, NewPatient(n + 1, diagIndex, nameIndex, avatarIndex, now)).patients, n + 1)
  {
  }

  /** A spawn never takes the number of active patients above the level's cap. */
  lemma SpawnRespectsCap(s: GameState, p: Patient)
    requires ActiveCount(s.patients) <= MaxPatients(s.level)
    ensures ActiveCount(Spawn(s, p).patients) <= MaxPatients(s.level)
  {
    if ActiveCount(s.patients) < MaxPatients(s.level) {
      ActiveCountAppend(s.patients, p);
    }
  }

  lemma {:induction false} ActiveCountAppend(ps: seq<Patient>, p: Patient)
    ensures ActiveCount(ps + [p]) == ActiveCount(ps) + (if IsTerminal(p.status) then 0 else 1)
  {
    if ps == [] {
      assert ps + [p] == [p];
    } else {
      assert (ps + [p])[1..] == ps[1..] + [p];
      ActiveCountAppend(ps[1..], p);
    }
  }

  // ---------------------------------------------------------------------------
  // Patient lifecycle

  /** Ids increase strictly along the list (spawn order) and none exceeds the counter `n`. */
  predicate IdsBelow(ps: seq<Patient>, n: nat) {
    && (forall i, j :: 0 <= i < j < |ps| ==> ps[i].id < ps[j].id)
    && (forall i :: 0 <= i < |ps| ==> ps[i].id <= n)
  }

  datatype Transition = Accept | FinishDiagnosis | FinishPharmacy | FinishAcupuncture | Complete

  /**
   * The record update each lifecycle operation applies to the matching patient;
   * no status is checked. Only status and progress change, the new status is
   * never waiting or failed, and no progress flag is ever cleared.
   */
  function Advance(p: Patient, t: Transition): (r: Patient)
    ensures r.(status := p.status, progress := p.progress) == p
    ensures r.status != Waiting && r.status != Failed
    ensures p.progress.diagnosisComplete ==> r.progress.diagnosisComplete
    ensures p.progress.pharmacyComplete ==> r.progress.pharmacyComplete
    ensures p.progress.acupunctureComplete ==> r.progress.acupunctureComplete
  {
    match t
    case Accept => p.(status := Diagnosing)
    case FinishDiagnosis => p.(status := Pharmacy, progress := p.progress.(diagnosisComplete := true))
    case FinishPharmacy =>
      p.(status := if NeedsAcupuncture(p.diagnosis) then Acupuncture else Serving,
         progress := p.progress.(pharmacyComplete := true))
    case FinishAcupuncture => p.(status := Serving, progress := p.progress.(acupunctureComplete := true))
    case Complete => p.(status := Completed)
  }

  /** `patients.map(p => p.id === id ? advance(p) : p)`. */
  function UpdateById(ps: seq<Patient>, id: PatientId, t: Transition): (r: seq<Patient>)
    ensures |r| == |ps|
    ensures forall i :: 0 <= i < |ps| ==> r[i] == if ps[i].id == id then Advance(ps[i], t) else ps[i]
  {
    if ps == [] then [] else [if ps[0].id == id then Advance(ps[0], t) else ps[0]] + UpdateById(ps[1..], id, t)
  }

  /** acceptPatient: the matching patient becomes diagnosing, whatever its status. */
  function Accepted(s: GameState, id: PatientId): (r: GameState)
    ensures r.(patients := s.patients) == s && |r.patients| == |s.patients|
    ensures forall i :: 0 <= i < |s.patients| ==>
      r.patients[i] == if s.patients[i].id == id then s.patients[i].(status := Diagnosing) else s.patients[i]
  {
    s.(patients := UpdateById(s.patients, id, Accept))
  }

  /** completeDiagnosis: the matching patient goes to the pharmacy, diagnosis marked done; the result is ignored. */
  function DiagnosisCompleted(s: GameState, id: PatientId, result: MiniGameResult): (r: GameState)
    ensures r.(patients := s.patients) == s && |r.patients| == |s.patients|
    ensures forall i :: 0 <= i < |s.patients| ==>
      var p := s.patients[i];
      r.patients[i] == if p.id == id then p.(status := Pharmacy, progress := p.progress.(diagnosisComplete := true)) else p
  {
    s.(patients := UpdateById(s.patients, id, FinishDiagnosis))
  }

  /**
   * completePharmacy: the matching patient goes to acupuncture if its diagnosis
   * lists points, and straight to serving otherwise; pharmacy marked done.
   */
  function PharmacyCompleted(s: GameState, id: PatientId, result: MiniGameResult): (r: GameState)
    ensures r.(patients := s.patients) == s && |r.patients| == |s.patients|
    ensures forall i :: 0 <= i < |s.patients| && s.patients[i].id != id ==> r.patients[i] == s.patients[i]
    ensures forall i :: 0 <= i < |s.patients| && s.patients[i].id == id ==>
      var p, q := s.patients[i], r.patients[i];
      && (q.status == Acupuncture <==> NeedsAcupuncture(p.diagnosis))
      && (q.status == Serving <==> !NeedsAcupuncture(p.diagnosis))
      && q == p.(status := q.status, progress := p.progress.(pharmacyComplete := true))
  {
    s.(patients := UpdateById(s.patients, id, FinishPharmacy))
  }

  /** completeAcupuncture: the matching patient goes to serving, acupuncture marked done. */
  function AcupunctureCompleted(s: GameState, id: PatientId, result: MiniGameResult): (r: GameState)
    ensures r.(patients := s.patients) == s && |r.patients| == |s.patients|
    ensures forall i :: 0 <= i < |s.patients| ==>
      var p := s.patients[i];
      r.patients[i] == if p.id == id then p.(status := Serving, progress := p.progress.(acupunctureComplete := true)) else p
  {
    s.(patients := UpdateById(s.patients, id, FinishAcupuncture))
  }

  /** With an id no patient has, every lifecycle operation returns the state unchanged. */
  lemma UnknownIdChangesNothing(s: GameState, id: PatientId, result: MiniGameResult)
    requires forall i :: 0 <= i < |s.patients| ==> s.patients[i].id != id
    ensures Accepted(s, id) == s
    ensures DiagnosisCompleted(s, id, result) == s
    ensures PharmacyCompleted(s, id, result) == s
    ensures AcupunctureCompleted(s, id, result) == s
  {
    assert Accepted(s, id).patients == s.patients;
    assert DiagnosisCompleted(s, id, result).patients == s.patients;
    assert PharmacyCompleted(s, id, result).patients == s.patients;
    assert AcupunctureCompleted(s, id, result).patients == s.patients;
  }

  /**
   * The operations check no status: a completed patient can be accepted again
   * and a failed one sent on to the pharmacy, so terminal states are not absorbing.
   */
  lemma TerminalStatusCanBeLeft(s: GameState, i: nat, result: MiniGameResult)
    requires i < |s.patients|
    ensures s.patients[i].status == Completed ==> Accepted(s, s.patients[i].id).patients[i].status == Diagnosing
    ensures s.patients[i].status == Failed ==>
      DiagnosisCompleted(s, s.patients[i].id, result).patients[i].status == Pharmacy
  {
  }

  /** Accept, diagnosis and pharmacy take a patient whose diagnosis lists no points straight to serving. */
  lemma PharmacySkipsAcupuncture(s: GameState, i: nat, result: MiniGameResult)
    requires i < |s.patients| && !NeedsAcupuncture(s.patients[i].diagnosis)
    ensures
      var id := s.patients[i].id;
      var r := PharmacyCompleted(DiagnosisCompleted(Accepted(s, id), id, result), id, result);
      r.patients[i].status == Serving && r.patients[i].progress.diagnosisComplete && r.patients[i].progress.pharmacyComplete
  {
  }

  /** `patients.filter(p => p.status === status)`: the patients a station lists, in order. */
  function WithStatus(ps: seq<Patient>, status: Status): (r: seq<Patient>)
    ensures |r| <= |ps|
    ensures forall i :: 0 <= i < |r| ==> r[i].status == status && r[i] in ps
    ensures forall i :: 0 <= i < |ps| && ps[i].status == status ==> ps[i] in r
  {
    if ps == [] then []
    else if ps[0].status == status then [ps[0]] + WithStatus(ps[1..], status)
    else WithStatus(ps[1..], status)
  }

  /**
   * A station's current patient: the listed patient whose id is the selected
   * one, if any (`listed.find(p => p.id === selectedPatient)`).
   */
  function Selected(ps: seq<Patient>, status: Status, selected: Option<PatientId>): (r: Option<Patient>)
    ensures r.Some? ==> selected == Some(r.value.id) && r.value.status == status && r.value in ps
    ensures r.None? <==> selected.None? || forall i :: 0 <= i < |ps| && ps[i].status == status ==> ps[i].id != selected.value
  {
    if selected.None? then None else FindById(WithStatus(ps, status), selected.value)
  }

  /** In a well-formed patient list, a station's current patient has symptoms and herbs. */
  lemma SelectedWellFormed(ps: seq<Patient>, status: Status, selected: Option<PatientId>)
    requires PatientsOk(ps)
    ensures Selected(ps, status, selected).Some? ==> WellFormed(Selected(ps, status, selected).value.diagnosis)
  {
    if Selected(ps, status, selected).Some? {
      var i :| 0 <= i < |ps| && ps[i] == Selected(ps, status, selected).value;
    }
  }

  // ---------------------------------------------------------------------------
  // Serving, experience and levels

  /** The first patient with the given id (`patients.find`). */
  function FindById(ps: seq<Patient>, id: PatientId): (r: Option<Patient>)
    ensures r.None? <==> forall i :: 0 <= i < |ps| ==> ps[i].id != id
    ensures r.Some? ==> exists i :: 0 <= i < |ps| && ps[i] == r.value && r.value.id == id
  {
    if ps == [] then None else if ps[0].id == id then Some(ps[0]) else FindById(ps[1..], id)
  }

  /** Coins for a served patient: +100 above patience 80, +50 above 50, -50 otherwise; no multiplier. */
  function CoinReward(h: nat): (c: int)
    ensures c == PERFECT_SCORE_BONUS <==> h > 160
    ensures c == GOOD_SCORE_BONUS <==> 100 < h <= 160
    ensures c == FAIL_PENALTY <==> h <= 100
  {
    if h > 160 then PERFECT_SCORE_BONUS else if h > 100 then GOOD_SCORE_BONUS else FAIL_PENALTY
  }

  /** Experience for a served patient: floor(patience / 2) + 10, i.e. between 10 and 60. */
  function ExperienceGain(h: nat): (g: nat)
    ensures 10 <= g && 4 * (g - 10) <= h < 4 * (g - 9)
    ensures h <= FULL_PATIENCE ==> g <= 60
  {
    h / 4 + 10
  }

  /** The level part of a state after experience is added. */
  datatype Advancement = Advancement(level: nat, experience: int, threshold: int, unlocked: seq<string>)

  /**
   * The catalogue ids in catalogue order (`DIAGNOSES.map(d => d.id)`), written
   * out so that the level arithmetic does not carry the whole catalogue;
   * UnlockOrderIsCatalogue ties the two together.
   */
  const UNLOCK_ORDER: seq<string> := ["D001", "D002", "D003", "D004", "D005", "D006", "D007", "D008", "D009", "D010"]

  lemma UnlockOrderIsCatalogue()
    ensures |DIAGNOSES| == |UNLOCK_ORDER|
    ensures forall i :: 0 <= i < |UNLOCK_ORDER| ==> UNLOCK_ORDER[i] == DIAGNOSES[i].id
  {
    var ids := CatalogueIds();
    assert ids == UNLOCK_ORDER;
    assert forall i :: 0 <= i < |DIAGNOSES| ==> ids[i] == DIAGNOSES[i].id;
  }

  /** The diseases unlocked at the start are the first five of the catalogue. */
  lemma InitialUnlockedAreFirstFive(phase: Phase, patients: seq<Patient>)
    ensures InitialState(phase, patients).unlockedDiseases == CatalogueIds()[..5]
    ensures forall i :: 0 <= i < 5 ==> InitialState(phase, patients).unlockedDiseases[i] == DIAGNOSES[i].id
  {
    UnlockOrderIsCatalogue();
    assert CatalogueIds() == UNLOCK_ORDER;
  }

  /**
   * Adding experience: if the new total reaches the threshold, exactly one level
   * is gained (whatever the surplus), the surplus is kept, the threshold grows
   * to floor(1.5 * threshold), and on an even new level the next catalogue id
   * is unlocked while any remain.
   */
  function LevelStep(level: nat, total: int, threshold: int, unlocked: seq<string>): (a: Advancement)
    ensures total < threshold ==> a == Advancement(level, total, threshold, unlocked)
    ensures total >= threshold ==> a.level == level + 1 && a.experience == total - threshold >= 0
    ensures total >= threshold ==> 2 * a.threshold <= 3 * threshold < 2 * a.threshold + 2
    ensures total >= threshold ==>
      a.unlocked == if a.level % 2 == 0 && |unlocked| < |UNLOCK_ORDER|
                    then unlocked + [UNLOCK_ORDER[|unlocked|]] else unlocked
  {
    if total >= threshold then
      var newLevel := level + 1;
      var newUnlocked := if newLevel % 2 == 0 && |unlocked| < |UNLOCK_ORDER|
                         then unlocked + [UNLOCK_ORDER[|unlocked|]] else unlocked;
      Advancement(newLevel, total - threshold, (threshold * 3) / 2, newUnlocked)
    else Advancement(level, total, threshold, unlocked)
  }

  /** What a level step unlocks, in the catalogue's terms: `DIAGNOSES[unlocked.length].id` while the catalogue has more. */
  lemma LevelStepUnlocksNextDiagnosis(level: nat, total: int, threshold: int, unlocked: seq<string>)
    requires total >= threshold
    ensures var a := LevelStep(level, total, threshold, unlocked);
      a.unlocked == if a.level % 2 == 0 && |unlocked| < |DIAGNOSES|
                    then unlocked + [DIAGNOSES[|unlocked|].id] else unlocked
  {
    UnlockOrderIsCatalogue();
  }

  /** The unlocked list is a prefix of the catalogue ids, of length 5 to 10. */
  predicate UnlockedPrefix(u: seq<string>) {
    5 <= |u| <= |UNLOCK_ORDER| && u == UNLOCK_ORDER[..|u|]
  }

  /** A level step keeps the unlocked list a prefix of the catalogue ids, never shrinks it, and grows it by at most one. */
  lemma LevelStepKeepsUnlockedPrefix(level: nat, total: int, threshold: int, unlocked: seq<string>)
    requires UnlockedPrefix(unlocked)
    ensures var a := LevelStep(level, total, threshold, unlocked);
      UnlockedPrefix(a.unlocked) && unlocked <= a.unlocked && |a.unlocked| <= |unlocked| + 1
  {
    var a := LevelStep(level, total, threshold, unlocked);
    var ids := UNLOCK_ORDER;
    if |a.unlocked| > |unlocked| {
      assert ids[..|unlocked| + 1] == ids[..|unlocked|] + [ids[|unlocked|]];
    }
  }

  /** Two level-ups' worth of experience still gives one level; the rest is carried over. */
  lemma OneLevelPerCall(level: nat, total: int, threshold: int, unlocked: seq<string>)
    requires threshold >= 0 && total >= threshold + (threshold * 3) / 2
    ensures var a := LevelStep(level, total, threshold, unlocked);
      a.level == level + 1 && a.experience >= a.threshold
  {
  }

  /**
   * The rewards of serving a patient of patience h (half-points): patience
   * converted into coins, reputation and experience (at most one level), the
   * order and patient counters raised, a perfect treatment counted above
   * patience 95; the patient list and everything else are kept.
   */
  function Rewarded(s: GameState, h: nat): (r: GameState)
    ensures
      var a := LevelStep(s.level, s.experience + ExperienceGain(h), s.experienceToNextLevel, s.unlockedDiseases);
      && r.coins == s.coins + CoinReward(h)
      && r.reputation == s.reputation + h / 2
      && r.completedOrders == s.completedOrders + 1
      && r.statistics.totalPatientsServed == s.statistics.totalPatientsServed + 1
      && r.statistics.perfectTreatments == s.statistics.perfectTreatments + (if h > 190 then 1 else 0)
      && r.level == a.level && r.experience == a.experience
      && r.experienceToNextLevel == a.threshold && r.unlockedDiseases == a.unlocked
      && r.statistics.highestLevel == Max(s.statistics.highestLevel, a.level)
      && r.patients == s.patients
      && r.phase == s.phase && r.currentStation == s.currentStation && r.day == s.day
      && r.failedOrders == s.failedOrders && r.upgrades == s.upgrades && r.achievements == s.achievements
      && r.statistics.(totalPatientsServed := s.statistics.totalPatientsServed,
                       perfectTreatments := s.statistics.perfectTreatments,
                       highestLevel := s.statistics.highestLevel) == s.statistics
  {
    var a := LevelStep(s.level, s.experience + ExperienceGain(h), s.experienceToNextLevel, s.unlockedDiseases);
    s.(level := a.level,
       experience := a.experience,
       experienceToNextLevel := a.threshold,
       coins := s.coins + CoinReward(h),
       reputation := s.reputation + h / 2,
       completedOrders := s.completedOrders + 1,
       unlockedDiseases := a.unlocked,
       statistics := s.statistics.(
         totalPatientsServed := s.statistics.totalPatientsServed + 1,
         perfectTreatments := if h > 190 then s.statistics.perfectTreatments + 1 else s.statistics.perfectTreatments,
         highestLevel := if s.statistics.highestLevel >= a.level then s.statistics.highestLevel else a.level))
  }

  /**
   * servePatient: an unknown id changes nothing. Otherwise, with no status
   * check, the patient's patience is turned into the rewards above and the
   * patient is completed.
   */
  function Served(s: GameState, id: PatientId): (r: GameState)
    ensures FindById(s.patients, id).None? ==> r == s
    ensures FindById(s.patients, id).Some? ==>
      && r.patients == UpdateById(s.patients, id, Complete)
      && r.(patients := s.patients) == Rewarded(s, FindById(s.patients, id).value.patience)
  {
    var found := FindById(s.patients, id);
    if found.None? then s
    else Rewarded(s, found.value.patience).(patients := UpdateById(s.patients, id, Complete))
  }

  /** Serving completes every patient with that id and leaves the others as they were. */
  lemma ServeCompletesPatient(s: GameState, id: PatientId)
    requires FindById(s.patients, id).Some?
    ensures |Served(s, id).patients| == |s.patients|
    ensures forall i :: 0 <= i < |s.patients| ==>
      Served(s, id).patients[i] == if s.patients[i].id == id then s.patients[i].(status := Completed) else s.patients[i]
  {
  }

  /** The worked example: serving at patience 85 pays 100 coins, 85 reputation and 52 experience. */
  lemma ServeAt85(s: GameState, id: PatientId)
    requires FindById(s.patients, id).Some? && FindById(s.patients, id).value.patience == 170
    requires s.experience + 52 < s.experienceToNextLevel
    ensures Served(s, id).coins == s.coins + 100
    ensures Served(s, id).reputation == s.reputation + 85
    ensures Served(s, id).experience == s.experience + 52
  {
  }

  /** addExperience: below the threshold only experience changes; otherwise one level step. */
  function WithExperience(s: GameState, amount: int): (r: GameState)
    ensures s.experience + amount < s.experienceToNextLevel ==> r == s.(experience := s.experience + amount)
    ensures s.experience + amount >= s.experienceToNextLevel ==>
      var a := LevelStep(s.level, s.experience + amount, s.experienceToNextLevel, s.unlockedDiseases);
      && r == s.(level := a.level, experience := a.experience, experienceToNextLevel := a.threshold,
                 unlockedDiseases := a.unlocked, statistics := r.statistics)
      && r.statistics == s.statistics.(highestLevel := if s.statistics.highestLevel >= a.level
                                                       then s.statistics.highestLevel else a.level)
  {
    var total := s.experience + amount;
    if total >= s.experienceToNextLevel then
      var a := LevelStep(s.level, total, s.experienceToNextLevel, s.unlockedDiseases);
      s.(level := a.level, experience := a.experience, experienceToNextLevel := a.threshold,
         unlockedDiseases := a.unlocked,
         statistics := s.statistics.(highestLevel := if s.statistics.highestLevel >= a.level
                                                     then s.statistics.highestLevel else a.level))
    else s.(experience := total)
  }

  // ---------------------------------------------------------------------------
  // Upgrades

  /** The documented bounds of the four counters. */
  predicate UpgradesWithin(u: Upgrades) {
    && 1 <= u.diagnosisSpeed <= 5
    && 2 <= u.pharmacySlots <= 6
    && u.patienceBoost <= 50 && u.patienceBoost % 10 == 0
    && u.coinSteps <= 5
  }

  /**
   * The counter update of upgradeClinic: the named counter rises by its step
   * (+1, +1, +10, one 0.2 step) while below its cap of 5, 6, 50 and 2.0; every
   * other counter, and every counter for an unknown type, is kept.
   */
  function Bump(u: Upgrades, kind: UpgradeType): (r: Upgrades)
    ensures r.diagnosisSpeed == if kind == DiagnosisSpeed && u.diagnosisSpeed < 5 then u.diagnosisSpeed + 1 else u.diagnosisSpeed
    ensures r.pharmacySlots == if kind == PharmacySlots && u.pharmacySlots < 6 then u.pharmacySlots + 1 else u.pharmacySlots
    ensures r.patienceBoost == if kind == PatienceBoost && u.patienceBoost < 50 then u.patienceBoost + 10 else u.patienceBoost
    ensures r.coinSteps == if kind == CoinMultiplier && u.coinSteps < 5 then u.coinSteps + 1 else u.coinSteps
  {
    match kind
    case DiagnosisSpeed => if u.diagnosisSpeed < 5 then u.(diagnosisSpeed := u.diagnosisSpeed + 1) else u
    case PharmacySlots => if u.pharmacySlots < 6 then u.(pharmacySlots := u.pharmacySlots + 1) else u
    case PatienceBoost => if u.patienceBoost < 50 then u.(patienceBoost := u.patienceBoost + 10) else u
    case CoinMultiplier => if u.coinSteps < 5 then u.(coinSteps := u.coinSteps + 1) else u
    case Unrecognised(_) => u
  }

  /**
   * upgradeClinic: with fewer coins than the cost nothing changes; otherwise the
   * cost is paid even when the counter is capped or the type unknown, and the
   * counters only grow, never past 5, 6, 50 and 2.0.
   */
  function Upgraded(s: GameState, kind: UpgradeType, cost: int): (r: GameState)
    ensures s.coins < cost ==> r == s
    ensures s.coins >= cost ==> r == s.(coins := s.coins - cost, upgrades := r.upgrades)
    ensures s.coins >= cost ==>
      var u := s.upgrades;
      && r.upgrades.diagnosisSpeed == (if kind == DiagnosisSpeed && u.diagnosisSpeed < 5 then u.diagnosisSpeed + 1 else u.diagnosisSpeed)
      && r.upgrades.pharmacySlots == (if kind == PharmacySlots && u.pharmacySlots < 6 then u.pharmacySlots + 1 else u.pharmacySlots)
      && r.upgrades.patienceBoost == (if kind == PatienceBoost && u.patienceBoost < 50 then u.patienceBoost + 10 else u.patienceBoost)
      && r.upgrades.coinSteps == (if kind == CoinMultiplier && u.coinSteps < 5 then u.coinSteps + 1 else u.coinSteps)
    ensures kind.Unrecognised? ==> r.upgrades == s.upgrades
    ensures s.upgrades.diagnosisSpeed <= r.upgrades.diagnosisSpeed <= Max(s.upgrades.diagnosisSpeed, 5)
    ensures s.upgrades.pharmacySlots <= r.upgrades.pharmacySlots <= Max(s.upgrades.pharmacySlots, 6)
    ensures s.upgrades.patienceBoost <= r.upgrades.patienceBoost <= Max(s.upgrades.patienceBoost, 50 + 9)
    ensures s.upgrades.coinSteps <= r.upgrades.coinSteps <= Max(s.upgrades.coinSteps, 5)
    ensures UpgradesWithin(s.upgrades) ==> UpgradesWithin(r.upgrades)
  {
    if s.coins < cost then s else s.(coins := s.coins - cost, upgrades := Bump(s.upgrades, kind))
  }

  function Max(a: int, b: int): int {
    if a >= b then a else b
  }

  /** Scenario: an upgrade the player cannot afford leaves coins and counters as they were. */
  lemma UnaffordableUpgradeIsNoOp(s: GameState, cost: int)
    requires s.coins < cost
    ensures Upgraded(s, DiagnosisSpeed, cost).coins == s.coins
    ensures Upgraded(s, DiagnosisSpeed, cost).upgrades.diagnosisSpeed == s.upgrades.diagnosisSpeed
  {
  }

  // ---------------------------------------------------------------------------
  // The engine invariant

  /**
   * What every state the provider reaches satisfies: patience within [0, 100],
   * every diagnosis from the catalogue, ids in spawn order, level at least 1
   * and at most the highest level, a threshold of at least 100, the unlocked
   * prefix, and the upgrade bounds.
   */
  predicate Invariant(s: GameState) {
    PatientsOk(s.patients) && ProgressOk(s)
  }

  /** Patience within [0, 100], a diagnosis with symptoms and herbs, ids in spawn order. */
  predicate PatientsOk(ps: seq<Patient>) {
    && (forall i :: 0 <= i < |ps| ==> ps[i].patience <= FULL_PATIENCE && WellFormed(ps[i].diagnosis))
    && (forall i, j :: 0 <= i < j < |ps| ==> ps[i].id < ps[j].id)
  }

  /** Level at least 1 and at most the highest level, a threshold of at least 100, the unlocked prefix, the upgrade bounds. */
  predicate ProgressOk(s: GameState) {
    && 1 <= s.level <= s.statistics.highestLevel
    && s.experienceToNextLevel >= 100
    && UnlockedPrefix(s.unlockedDiseases)
    && UpgradesWithin(s.upgrades)
  }

  /** The starting record satisfies the invariant whenever its patient list does. */
  lemma InitialStateInvariant(phase: Phase, ps: seq<Patient>)
    requires PatientsOk(ps)
    ensures Invariant(InitialState(phase, ps))
  {
  }

  lemma DecayKeepsInvariant(s: GameState)
    requires Invariant(s)
    ensures Invariant(Decay(s))
  {
    var r := Decay(s);
    assert PatientsOk(r.patients);
    assert ProgressOk(r) by {
      assert r.level == s.level && r.statistics == s.statistics && r.experienceToNextLevel == s.experienceToNextLevel;
      assert r.unlockedDiseases == s.unlockedDiseases && r.upgrades == s.upgrades;
    }
  }

  lemma SpawnKeepsInvariant(s: GameState, p: Patient)
    requires Invariant(s)
    requires p.patience <= FULL_PATIENCE && WellFormed(p.diagnosis)
    requires forall i :: 0 <= i < |s.patients| ==> s.patients[i].id < p.id
    ensures Invariant(Spawn(s, p))
  {
    var r := Spawn(s, p);
    assert PatientsOk(r.patients);
    assert ProgressOk(r) by {
      assert r.level == s.level && r.statistics == s.statistics && r.experienceToNextLevel == s.experienceToNextLevel;
      assert r.unlockedDiseases == s.unlockedDiseases && r.upgrades == s.upgrades;
    }
  }

  /** A lifecycle update changes only status and progress, so the patient list stays well formed. */
  lemma UpdateKeepsPatientsOk(ps: seq<Patient>, id: PatientId, t: Transition)
    requires PatientsOk(ps)
    ensures PatientsOk(UpdateById(ps, id, t))
  {
    var r := UpdateById(ps, id, t);
    assert forall i :: 0 <= i < |ps| ==> r[i].id == ps[i].id && r[i].patience == ps[i].patience && r[i].diagnosis == ps[i].diagnosis;
  }

  /** A lifecycle update keeps every id, so the ids stay in spawn order and below the counter. */
  lemma UpdateKeepsIdsBelow(ps: seq<Patient>, id: PatientId, t: Transition, n: nat)
    requires IdsBelow(ps, n)
    ensures IdsBelow(UpdateById(ps, id, t), n)
  {
    var r := UpdateById(ps, id, t);
    assert forall i :: 0 <= i < |ps| ==> r[i].id == ps[i].id;
  }

  /** Replacing only the patient list keeps the progress part of the invariant. */
  lemma PatientsOnlyKeepsProgress(s: GameState, ps: seq<Patient>)
    requires ProgressOk(s)
    ensures ProgressOk(s.(patients := ps))
  {
  }

  lemma LifecycleKeepsInvariant(s: GameState, id: PatientId, result: MiniGameResult)
    requires Invariant(s)
    ensures Invariant(Accepted(s, id))
    ensures Invariant(DiagnosisCompleted(s, id, result))
    ensures Invariant(PharmacyCompleted(s, id, result))
    ensures Invariant(AcupunctureCompleted(s, id, result))
  {
    UpdateKeepsPatientsOk(s.patients, id, Accept);
    UpdateKeepsPatientsOk(s.patients, id, FinishDiagnosis);
    UpdateKeepsPatientsOk(s.patients, id, FinishPharmacy);
    UpdateKeepsPatientsOk(s.patients, id, FinishAcupuncture);
    PatientsOnlyKeepsProgress(s, UpdateById(s.patients, id, Accept));
    PatientsOnlyKeepsProgress(s, UpdateById(s.patients, id, FinishDiagnosis));
    PatientsOnlyKeepsProgress(s, UpdateById(s.patients, id, FinishPharmacy));
    PatientsOnlyKeepsProgress(s, UpdateById(s.patients, id, FinishAcupuncture));
  }

  lemma ServeKeepsInvariant(s: GameState, id: PatientId)
    requires Invariant(s)
    ensures Invariant(Served(s, id))
  {
    match FindById(s.patients, id)
    case None =>
    case Some(patient) =>
      UpdateKeepsPatientsOk(s.patients, id, Complete);
      RewardedKeepsProgress(s, patient.patience);
      PatientsOnlyKeepsProgress(Rewarded(s, patient.patience), UpdateById(s.patients, id, Complete));
  }

  /** The level, threshold, unlock and upgrade part of the invariant survives serving a patient of patience h. */
  lemma RewardedKeepsProgress(s: GameState, h: nat)
    requires ProgressOk(s)
    ensures ProgressOk(Rewarded(s, h))
  {
    var r := Rewarded(s, h);
    var a := LevelStep(s.level, s.experience + ExperienceGain(h), s.experienceToNextLevel, s.unlockedDiseases);
    LevelStepKeepsUnlockedPrefix(s.level, s.experience + ExperienceGain(h), s.experienceToNextLevel, s.unlockedDiseases);
    assert r.level == a.level <= r.statistics.highestLevel;
    assert r.experienceToNextLevel == a.threshold >= 100;
    assert r.unlockedDiseases == a.unlocked && r.upgrades == s.upgrades;
  }

  lemma AddExperienceKeepsInvariant(s: GameState, amount: int)
    requires Invariant(s)
    ensures Invariant(WithExperience(s, amount))
  {
    LevelStepKeepsUnlockedPrefix(s.level, s.experience + amount, s.experienceToNextLevel, s.unlockedDiseases);
  }

  lemma UpgradeKeepsInvariant(s: GameState, kind: UpgradeType, cost: int)
    requires Invariant(s)
    ensures Invariant(Upgraded(s, kind, cost))
  {
  }

  // ---------------------------------------------------------------------------
  // The provider

  /** GameProvider: the current state (`gameState`) and the id counter (`patientIdCounter.current`). */
  class GameProvider {
    var state: GameState
    var nextId: nat

    ghost predicate Valid()
      reads this
    {
      Invariant(state) && IdsBelow(state.patients, nextId)
    }

    /** The provider's initial state: the menu, no patients, counter 0. */
    constructor ()
      ensures Valid()
      ensures state == InitialState(Menu, []) && nextId == 0
    {
      state := InitialState(Menu, []);
      nextId := 0;
      InitialStateInvariant(Menu, []);
    }

    /** generatePatient: increments the counter and builds a fresh patient with the new number. */
    method GeneratePatient(diagIndex: nat, nameIndex: nat, avatarIndex: nat, now: int) returns (p: Patient)
      requires diagIndex < |DIAGNOSES| && nameIndex < |PATIENT_NAMES| && 1 <= avatarIndex <= 2
      modifies this`nextId
      ensures nextId == old(nextId) + 1
      ensures p == NewPatient(nextId, diagIndex, nameIndex, avatarIndex, now)
    {
      nextId := nextId + 1;
      p := NewPatient(nextId, diagIndex, nameIndex, avatarIndex, now);
    }

    /** startGame: a full reset with one fresh patient; the id counter is NOT reset. */
    method StartGame(diagIndex: nat, nameIndex: nat, avatarIndex: nat, now: int)
      requires Valid()
      requires diagIndex < |DIAGNOSES| && nameIndex < |PATIENT_NAMES| && 1 <= avatarIndex <= 2
      modifies this
      ensures Valid()
      ensures nextId == old(nextId) + 1
      ensures state == InitialState(Playing, [NewPatient(nextId, diagIndex, nameIndex, avatarIndex, now)])
    {
      var p := GeneratePatient(diagIndex, nameIndex, avatarIndex, now);
      NewPatientWellFormed(nextId, diagIndex, nameIndex, avatarIndex, now);
      state := InitialState(Playing, [p]);
      InitialStateInvariant(Playing, [p]);
    }

    method PauseGame()
      requires Valid()
      modifies this
      ensures Valid() && nextId == old(nextId)
      ensures state == old(state).(phase := Paused)
    {
      state := state.(phase := Paused);
    }

    method ResumeGame()
      requires Valid()
      modifies this
      ensures Valid() && nextId == old(nextId)
      ensures state == old(state).(phase := Playing)
    {
      state := state.(phase := Playing);
    }

    method SwitchStation(station: Station)
      requires Valid()
      modifies this
      ensures Valid() && nextId == old(nextId)
      ensures state == old(state).(currentStation := station)
    {
      state := state.(currentStation := station);
    }

    /** One firing of the one-second decay interval, which exists only while playing. */
    method DecayTick()
      requires Valid() && state.phase == Playing
      modifies this
      ensures Valid() && nextId == old(nextId)
      ensures state == Decay(old(state))
    {
      DecayKeepsInvariant(state);
      state := Decay(state);
    }

    /**
     * One firing of the spawn interval, which exists only while playing: below
     * the level's cap one freshly numbered patient is appended, otherwise
     * nothing happens (and no number is used up).
     */
    method SpawnTick(diagIndex: nat, nameIndex: nat, avatarIndex: nat, now: int)
      requires Valid() && state.phase == Playing
      requires diagIndex < |DIAGNOSES| && nameIndex < |PATIENT_NAMES| && 1 <= avatarIndex <= 2
      modifies this
      ensures Valid()
      ensures ActiveCount(old(state.patients)) >= MaxPatients(old(state.level)) ==>
        state == old(state) && nextId == old(nextId)
      ensures ActiveCount(old(state.patients)) < MaxPatients(old(state.level)) ==>
        && nextId == old(nextId) + 1
        && (forall i :: 0 <= i < |old(state.patients)| ==> old(state.patients)[i].id < nextId)
        && state == old(state).(patients := old(state.patients) + [NewPatient(nextId, diagIndex, nameIndex, avatarIndex, now)])
    {
      if ActiveCount(state.patients) < MaxPatients(state.level) {
        var p := GeneratePatient(diagIndex, nameIndex, avatarIndex, now);
        NewPatientWellFormed(nextId, diagIndex, nameIndex, avatarIndex, now);
        SpawnKeepsInvariant(state, p);
        state := Spawn(state, p);
      }
    }

    method AcceptPatient(id: PatientId)
      requires Valid()
      modifies this
      ensures Valid() && nextId == old(nextId)
      ensures state == Accepted(old(state), id)
    {
      LifecycleKeepsInvariant(state, id, MiniGameResult(false, 0.0, 0));
      state := Accepted(state, id);
    }

    method CompleteDiagnosis(id: PatientId, result: MiniGameResult)
      requires Valid()
      modifies this
      ensures Valid() && nextId == old(nextId)
      ensures state == DiagnosisCompleted(old(state), id, result)
    {
      LifecycleKeepsInvariant(state, id, result);
      state := DiagnosisCompleted(state, id, result);
    }

    method CompletePharmacy(id: PatientId, result: MiniGameResult)
      requires Valid()
      modifies this
      ensures Valid() && nextId == old(nextId)
      ensures state == PharmacyCompleted(old(state), id, result)
    {
      LifecycleKeepsInvariant(state, id, result);
      state := PharmacyCompleted(state, id, result);
    }

    method CompleteAcupuncture(id: PatientId, result: MiniGameResult)
      requires Valid()
      modifies this
      ensures Valid() && nextId == old(nextId)
      ensures state == AcupunctureCompleted(old(state), id, result)
    {
      LifecycleKeepsInvariant(state, id, result);
      state := AcupunctureCompleted(state, id, result);
    }

    method ServePatient(id: PatientId)
      requires Valid()
      modifies this
      ensures Valid() && nextId == old(nextId)
      ensures state == Served(old(state), id)
    {
      ServeKeepsInvariant(state, id);
      if FindById(state.patients, id).Some? {
        UpdateKeepsIdsBelow(state.patients, id, Complete, nextId);
      }
      state := Served(state, id);
    }

    method UpgradeClinic(kind: UpgradeType, cost: int)
      requires Valid()
      modifies this
      ensures Valid() && nextId == old(nextId)
      ensures state == Upgraded(old(state), kind, cost)
    {
      UpgradeKeepsInvariant(state, kind, cost);
      state := Upgraded(state, kind, cost);
    }

    method AddExperience(amount: int)
      requires Valid()
      modifies this
      ensures Valid() && nextId == old(nextId)
      ensures state == WithExperience(old(state), amount)
    {
      AddExperienceKeepsInvariant(state, amount);
      state := WithExperience(state, amount);
    }
  }
}
