# Lin's Cyber Clinic: the game-state engine in Dafny

Lin's Cyber Clinic is a browser game about a traditional-Chinese-medicine clinic
in a cyberpunk city. Patients arrive at the order desk with a cyber-age
complaint. Each one then goes through three stations, each a short mini-game:

- diagnosis: find the symptoms against a 15-second clock;
- pharmacy: pick the herbs of the prescription;
- acupuncture: click the prescribed points on a body chart.

Finally the patient is served. Serving turns the patient's remaining patience
into coins, reputation and experience. Experience raises the clinic's level,
and every second level unlocks another diagnosis. Coins buy upgrades.

This project models the engine that holds all of this, together with the rule
logic around it:

- `GameData` (shared/gameData.ts): the diagnosis catalogue; the name, herb and
  acupoint pools; the configuration tables.
- `Achievements` (shared/achievements.ts): the achievement table and its
  initialiser.
- `GameContext` (client/src/contexts/GameContext.tsx): the `GameState` record,
  every state transition as a pure function, and the class `GameProvider`. That
  class holds the current state and the patient-id counter, and applies the
  transitions in its methods.
  - The engine invariant `Invariant` covers patience within [0, 100], ids in
    spawn order, the unlocked-diagnosis prefix and the upgrade bounds.
  - The invariant is proved preserved by every transition.
- `UpgradePanel` (client/src/components/UpgradePanel.tsx): the cost tables, each
  card's level, maximum and price, and the purchase guard.
- `DiagnosisStation`, `PharmacyStation` and `AcupunctureStation`
  (client/src/components/stations/): mini-game scoring and selection rules.
  - Each is a class holding the component's state (selected patient, click or
    selection list, clock).
  - Its methods report to a `GameProvider`.
- `ServingStation` (client/src/components/stations/ServingStation.tsx): the
  satisfaction tier, the stars, and the serve button.
- `Lists` and `Wrappers`: generic helpers (duplicate-free lists, filters,
  `Option`).

Representation choices:

- Patience starts at 100 and only moves in steps of 0.5. It is therefore kept
  exactly as a natural number of half-points: `h` stands for patience h / 2.
  The thresholds follow from this:
  - "above 80" is `h > 160`, "above 50" is `h > 100`, "above 95" is `h > 190`;
  - `Math.floor(patience)` is `h / 2`;
  - `Math.floor(patience / 2)` is `h / 4`;
  - `Math.floor(patience / 20)` is `h / 40`.
- A patient id `P<n>` is represented by the number n.
- The coin multiplier 1.0 + 0.2·k is represented by the step count k
  (`coinSteps`).
- `Math.random()` draws and `Date.now()` are parameters:
  - a diagnosis index, a name index and an avatar number;
  - a timestamp.
- The two `setInterval` callbacks of the provider are the methods `DecayTick`
  and `SpawnTick`. The diagnosis countdown is `Station.CountdownTick`.
- A closure created at one render sees that render's values. The values the
  diagnosis countdown and the auto-finish capture are the datatype `Captured`
  (patient, clicks, seconds left); `Station.FinishDiagnosis` runs with them.
- Mini-game scores are `real`.
- An upgrade type string is the datatype `UpgradeType`. Any string other than
  the four known names is `Unrecognised`.

Some behaviour of the code differs from what its names, comments and
displays suggest; the model follows the code:

- No lifecycle operation, and not `servePatient` either, checks the patient's
  current status. A completed patient can be accepted again
  (`TerminalStatusCanBeLeft`).
- New patients draw from the whole catalogue, not from the unlocked diagnoses.
- The coin multiplier is bought but never applied to rewards.
- A patient whose patience runs out becomes `failed`, but `failedOrders` is never
  incremented.
- The diagnosis clock always starts at 15 seconds. The per-level
  `DIAGNOSIS_TIME_LIMIT` table is declared but read by nothing.

## Model

| member | source | states |
|---|---|---|
| GameData.CatalogueShape | shared/gameData.ts:3-94 | The catalogue has ten entries, each with exactly three symptoms, two herbs and a non-empty acupuncture-point list |
| GameData.CatalogueIdsDistinct | shared/gameData.ts:3-94 | The catalogue ids are D001..D010, pairwise distinct |
| GameData.CatalogueIds | shared/gameData.ts:3-94 | The ids of the catalogue, in catalogue order, are exactly D001..D010 |
| GameData.DiagnosisIds | shared/gameData.ts:3-94 | The id list has one entry per diagnosis, in order |
| GameData.EveryDiagnosisNeedsAcupuncture | shared/gameData.ts:3-94 | Every shipped diagnosis needs acupuncture, so the pharmacy-to-serving shortcut never fires with the shipped data |
| GameData.LevelTables | shared/gameData.ts:126-127 | Both per-level tables have ten entries; the caps lie in 1..5 and never decrease; the spawn intervals are positive and strictly decreasing |
| GameData.ConfigConstants | shared/gameData.ts:123-131 | The reward tiers are ordered −50 < 0 < 50 < 100; the game starts with 500 coins and 0 reputation; 0.5 per tick takes a patience of 100 to 0 in exactly 200 ticks |
| GameData.AcupointsDistinct | shared/gameData.ts:109-120 | The chart has ten points; their ids P001..P010 are pairwise distinct, and so are their names |
| GameData.ChartIds | shared/gameData.ts:109-120 | The chart's ids, in chart order, are P001..P010 |
| GameData.ChartNames | shared/gameData.ts:109-120 | The chart's point names, in chart order |
| GameData.AcupointIds | shared/gameData.ts:109-120 | The id list has one entry per acupoint, in order |
| GameData.AcupointNames | shared/gameData.ts:109-120 | The name list has one entry per acupoint, in order |
| GameData.ChartNamesLiteral | shared/gameData.ts:109-120 | The ten chart names are pairwise distinct, and 颊车穴 is not among them |
| GameData.CatalogueLists | shared/gameData.ts:3-94 | The prescribed point list of each diagnosis, in catalogue order |
| GameData.PrescribedPoints | client/src/components/stations/AcupunctureStation.tsx:30 | An absent point list reads as empty; the list is non-empty exactly when the diagnosis needs acupuncture |
| GameData.PointListsLiteral | shared/gameData.ts:3-94 | Every prescribed point is a chart name or 颊车穴 |
| GameData.PrescribedPointsOnChart | shared/gameData.ts:90 | Every point a prescription names is on the chart except 颊车穴 (D010), which is not |
| GameData.IdsDistinct | shared/gameData.ts:3-94 | Ten identifiers of the form c001..c010 are pairwise distinct |
| Achievements.InitializeFrom | shared/achievements.ts:111-116 | One entry per table row, in row order; id, name, description, icon and target are copied; each entry is locked, has no unlock time and has progress 0 |
| Achievements.InitializeAchievements | shared/achievements.ts:111-116 | Fifteen entries, in table order, all locked with progress 0 and no unlock time |
| Achievements.AchievementTable | shared/achievements.ts:3-109 | The table has fifteen rows with pairwise distinct ids and positive targets |
| Achievements.TableIds | shared/achievements.ts:3-109 | The table's ids, in row order |
| Achievements.TableIdsDistinct | shared/achievements.ts:3-109 | The fifteen literal ids are pairwise distinct |
| GameContext.Percent | client/src/components/stations/DiagnosisStation.tsx:57 | A ratio score part/whole·100 is non-negative, at most 100 when part ≤ whole, exactly 100 when they are equal, and at least 50 iff 2·part ≥ whole |
| GameContext.DivByPositive | client/src/components/stations/DiagnosisStation.tsx:57-60 | Comparing a quotient by a positive divisor with c is the same as comparing the dividend with c times the divisor |
| GameContext.InitialState | client/src/contexts/GameContext.tsx:23-52 | The starting record: level 1, experience 0 of 100, 500 coins, reputation 0, day 1, no orders, no achievements, the first five ids D001..D005 unlocked, the order desk, upgrades (speed 1, slots 2, boost 0, multiplier 1.0) and statistics all zero except highest level 1 and an infinite fastest treatment |
| GameContext.NewPatient | client/src/contexts/GameContext.tsx:58-77 | A new patient has the given number, avatar 1 or 2, patience 100, status waiting, the given order time and no progress |
| GameContext.NewPatientFromPools | client/src/contexts/GameContext.tsx:59-60 | A new patient's diagnosis is drawn from the catalogue and its name from the name pool |
| GameContext.InitialUnlockedAreFirstFive | client/src/contexts/GameContext.tsx:35 | The diseases unlocked at the start are the ids of the first five catalogue entries |
| GameContext.NewPatientWellFormed | client/src/contexts/GameContext.tsx:59 | A new patient's diagnosis has symptoms and herbs |
| GameContext.DecayPatient | client/src/contexts/GameContext.tsx:86-97 | Completed and failed patients are untouched; others lose 0.5 (not below 0), become failed exactly when they reach 0, and otherwise keep their status; nothing else changes |
| GameContext.DecayAll | client/src/contexts/GameContext.tsx:86-97 | Each patient is decayed independently and the list keeps its length |
| GameContext.Decay | client/src/contexts/GameContext.tsx:84-98 | Only the patient list changes (failedOrders is not bumped); each patient is decayed |
| GameContext.DecayCountdown | client/src/contexts/GameContext.tsx:89-94 | An active patient with h > 0 half-points keeps its status for h − 1 ticks, losing 0.5 per tick, and fails with 0 on tick h; only patience and status change |
| GameContext.FreshPatientFailsAfter200Ticks | client/src/contexts/GameContext.tsx:68 | A fresh waiting patient is still waiting with patience 0.5 after 199 ticks and has failed with 0 after 200 |
| GameContext.DecayTicksPointwise | client/src/contexts/GameContext.tsx:84-98 | k whole-state ticks act on each patient independently and change no other field |
| GameContext.ActiveCount | client/src/contexts/GameContext.tsx:117 | The number of active patients is at most the list length, and 0 iff every patient is completed or failed |
| GameContext.MaxPatients | client/src/contexts/GameContext.tsx:113 | The cap lies in 1..5, and is 3 outside the table's levels |
| GameContext.SpawnInterval | client/src/contexts/GameContext.tsx:112 | The interval lies in 5000..30000 ms, and is 10000 outside the table's levels |
| GameContext.SpawnScheduleMonotone | client/src/contexts/GameContext.tsx:112-113 | Between levels 1 and 10 a higher level never lowers the cap and always spawns faster |
| GameContext.SpawnScheduleFallback | client/src/contexts/GameContext.tsx:112-113 | Above level 10 the fallbacks apply: the cap drops from 5 to 3 and the interval doubles to 10000 |
| GameContext.Spawn | client/src/contexts/GameContext.tsx:116-124 | At or above the cap the state is unchanged; below it exactly the new patient is appended and nothing else changes |
| GameContext.SpawnedIdIsFresh | client/src/contexts/GameContext.tsx:64 | With the counter at n, the spawned patient n + 1 is numbered above every earlier patient, and the ids stay in spawn order below the new counter |
| GameContext.SpawnRespectsCap | client/src/contexts/GameContext.tsx:117-122 | A spawn never takes the number of active patients above the level's cap |
| GameContext.ActiveCountAppend | client/src/contexts/GameContext.tsx:117 | Appending a patient raises the active count by one iff that patient is active |
| GameContext.UpdateById | client/src/contexts/GameContext.tsx:177-179 | The patients with the id are advanced, the others are kept, and the length is unchanged |
| GameContext.Advance | client/src/contexts/GameContext.tsx:175-222 | A lifecycle step changes only status and progress, never sends a patient back to waiting or to failed, and never clears a progress flag |
| GameContext.Accepted | client/src/contexts/GameContext.tsx:175-182 | Every patient with the id becomes diagnosing whatever its status; other patients and all other fields are unchanged |
| GameContext.DiagnosisCompleted | client/src/contexts/GameContext.tsx:184-193 | Every patient with the id goes to the pharmacy with the diagnosis marked done; the result is ignored; nothing else changes |
| GameContext.PharmacyCompleted | client/src/contexts/GameContext.tsx:195-211 | The matching patient goes to acupuncture iff its diagnosis lists points, and to serving otherwise, with the pharmacy marked done; nothing else changes |
| GameContext.AcupunctureCompleted | client/src/contexts/GameContext.tsx:213-222 | Every patient with the id goes to serving with acupuncture marked done; nothing else changes |
| GameContext.UnknownIdChangesNothing | client/src/contexts/GameContext.tsx:175-222 | With an id no patient has, all four lifecycle operations return the state unchanged |
| GameContext.TerminalStatusCanBeLeft | client/src/contexts/GameContext.tsx:175-193 | No status is checked: a completed patient can be accepted again, and a failed one sent to the pharmacy |
| GameContext.PharmacySkipsAcupuncture | client/src/contexts/GameContext.tsx:195-211 | For a diagnosis without points, accept, diagnosis and pharmacy take the patient straight to serving with both steps marked done |
| GameContext.WithStatus | client/src/components/stations/DiagnosisStation.tsx:14 | The station's list holds patients with that status only, and holds every one of them |
| GameContext.Selected | client/src/components/stations/DiagnosisStation.tsx:14-15 | The current patient has the selected id and the station's status; there is none iff nothing is selected or no listed patient has that id |
| GameContext.FindById | client/src/contexts/GameContext.tsx:226 | The lookup fails iff no patient has the id; otherwise the result is a patient of the list with that id |
| GameContext.SelectedWellFormed | client/src/components/stations/PharmacyStation.tsx:12-13 | In a state of the engine, a station's current patient has symptoms and herbs, so its score has a non-zero denominator |
| GameContext.CoinReward | client/src/contexts/GameContext.tsx:230-232 | 100 coins iff patience is above 80, 50 iff it is in (50, 80], −50 iff it is at most 50 |
| GameContext.ExperienceGain | client/src/contexts/GameContext.tsx:235 | The gain is floor(patience / 2) + 10: between 10 and 60 for patience in [0, 100] |
| GameContext.LevelStep | client/src/contexts/GameContext.tsx:238-252 | Below the threshold nothing but experience moves. Otherwise exactly one level is gained, the surplus is kept and the threshold becomes floor(1.5·threshold). On an even new level the next catalogue id is unlocked while any remain |
| GameContext.UnlockOrderIsCatalogue | client/src/contexts/GameContext.tsx:243-247 | The unlock order is the catalogue's id order |
| GameContext.LevelStepUnlocksNextDiagnosis | client/src/contexts/GameContext.tsx:248-251 | On a level-up, an even new level appends `DIAGNOSES[len].id` while the catalogue has more entries, and otherwise the unlocked list is kept |
| GameContext.LevelStepKeepsUnlockedPrefix | client/src/contexts/GameContext.tsx:248-251 | A level step keeps the unlocked list a prefix of the catalogue ids of length 5..10, never shrinks it, and grows it by at most one |
| GameContext.OneLevelPerCall | client/src/contexts/GameContext.tsx:238-244 | Experience worth two levels still gives only one; what is left stays above the new threshold |
| GameContext.Rewarded | client/src/contexts/GameContext.tsx:229-272 | For a patient of patience h: coins +100/+50/−50 by tier; reputation + floor(patience); experience and level via one level step; completedOrders and patients served +1; perfect treatments +1 iff patience > 95; highestLevel is the maximum of old and new level; the patient list and everything else unchanged |
| GameContext.Served | client/src/contexts/GameContext.tsx:224-274 | An unknown id changes nothing. Otherwise, with no status check, the patient with that id is completed and the rest of the state receives the rewards for its patience |
| GameContext.ServeCompletesPatient | client/src/contexts/GameContext.tsx:262-264 | Serving completes the patients with that id and leaves the others as they were |
| GameContext.ServeAt85 | client/src/contexts/GameContext.tsx:230-260 | At patience 85, serving pays 100 coins, 85 reputation and 52 experience |
| GameContext.WithExperience | client/src/contexts/GameContext.tsx:305-338 | Below the threshold only experience rises. Otherwise one level step, with highestLevel the maximum of the old value and the new level |
| GameContext.Upgraded | client/src/contexts/GameContext.tsx:276-303 | With too few coins nothing changes. Otherwise the cost is paid even when the counter is capped or the type unknown; the named counter rises by its step (+1 speed, +1 slot, +10 boost, one 0.2 multiplier step) while below its cap of 5, 6, 50 and 2.0, and every other counter is kept; the invariant bounds are kept |
| GameContext.Bump | client/src/contexts/GameContext.tsx:281-296 | Each counter rises by its step exactly when its type is named and it is below its cap; otherwise it is kept |
| GameContext.UnaffordableUpgradeIsNoOp | client/src/contexts/GameContext.tsx:278 | An upgrade the player cannot afford leaves coins and the counter as they were |
| GameContext.InitialStateInvariant | client/src/contexts/GameContext.tsx:23-52 | The starting state satisfies the engine invariant whenever its patient list does |
| GameContext.DecayKeepsInvariant | client/src/contexts/GameContext.tsx:84-98 | The decay tick preserves the engine invariant |
| GameContext.SpawnKeepsInvariant | client/src/contexts/GameContext.tsx:116-124 | A spawn of a well-formed patient numbered above every earlier one preserves the engine invariant |
| GameContext.UpdateKeepsPatientsOk | client/src/contexts/GameContext.tsx:175-222 | A lifecycle update keeps the patients' patience bounds, diagnoses and id order |
| GameContext.UpdateKeepsIdsBelow | client/src/contexts/GameContext.tsx:175-222 | A lifecycle update keeps every id, so ids stay in spawn order and below the id counter |
| GameContext.PatientsOnlyKeepsProgress | client/src/contexts/GameContext.tsx:175-222 | Replacing only the patient list keeps level, threshold, unlocks and upgrades within the invariant |
| GameContext.LifecycleKeepsInvariant | client/src/contexts/GameContext.tsx:175-222 | All four lifecycle operations preserve the engine invariant |
| GameContext.ServeKeepsInvariant | client/src/contexts/GameContext.tsx:224-274 | Serving preserves the engine invariant |
| GameContext.RewardedKeepsProgress | client/src/contexts/GameContext.tsx:235-272 | The rewards keep the level at least 1 and at most the highest level, the threshold at least 100, the unlocked prefix and the upgrade bounds |
| GameContext.AddExperienceKeepsInvariant | client/src/contexts/GameContext.tsx:305-338 | Adding experience preserves the engine invariant |
| GameContext.UpgradeKeepsInvariant | client/src/contexts/GameContext.tsx:276-303 | Upgrading preserves the engine invariant, including the counter bounds |
| GameContext.GameProvider.constructor | client/src/contexts/GameContext.tsx:22-54 | The provider starts in the menu with no patients and counter 0, and satisfies the invariant |
| GameContext.GameProvider.GeneratePatient | client/src/contexts/GameContext.tsx:58-77 | The counter rises by one and the new patient carries the new number |
| GameContext.GameProvider.StartGame | client/src/contexts/GameContext.tsx:130-161 | The state becomes the starting record in phase playing with one new patient; the counter is not reset but advances by one |
| GameContext.GameProvider.PauseGame | client/src/contexts/GameContext.tsx:163-165 | Only the phase changes, to paused |
| GameContext.GameProvider.ResumeGame | client/src/contexts/GameContext.tsx:167-169 | Only the phase changes, to playing |
| GameContext.GameProvider.SwitchStation | client/src/contexts/GameContext.tsx:171-173 | Only the current station changes |
| GameContext.GameProvider.DecayTick | client/src/contexts/GameContext.tsx:80-106 | While playing, one tick applies the decay and keeps the invariant; the counter is untouched |
| GameContext.GameProvider.SpawnTick | client/src/contexts/GameContext.tsx:109-128 | While playing: at the cap nothing changes and no number is used up. Below it one new patient is appended, numbered above every earlier patient, and the counter advances by one |
| GameContext.GameProvider.AcceptPatient | client/src/contexts/GameContext.tsx:175-182 | The state becomes the accepted state and keeps the invariant |
| GameContext.GameProvider.CompleteDiagnosis | client/src/contexts/GameContext.tsx:184-193 | The state becomes the diagnosis-completed state and keeps the invariant |
| GameContext.GameProvider.CompletePharmacy | client/src/contexts/GameContext.tsx:195-211 | The state becomes the pharmacy-completed state and keeps the invariant |
| GameContext.GameProvider.CompleteAcupuncture | client/src/contexts/GameContext.tsx:213-222 | The state becomes the acupuncture-completed state and keeps the invariant |
| GameContext.GameProvider.ServePatient | client/src/contexts/GameContext.tsx:224-274 | The state becomes the served state and keeps the invariant |
| GameContext.GameProvider.UpgradeClinic | client/src/contexts/GameContext.tsx:276-303 | The state becomes the upgraded state and keeps the invariant |
| GameContext.GameProvider.AddExperience | client/src/contexts/GameContext.tsx:305-338 | The state becomes the state with the experience added and keeps the invariant |
| UpgradePanel.Lookup | client/src/components/UpgradePanel.tsx:36 | The row entry when the index is in range, and 0 otherwise |
| UpgradePanel.CurrentLevel | client/src/components/UpgradePanel.tsx:34-64 | The card's level: the speed and slot counters as they are, floor(boost / 10), and the multiplier's step count |
| UpgradePanel.MaxLevel | client/src/components/UpgradePanel.tsx:35-65 | The maximum level equals the length of the card's cost row, except for the boost, whose row has one more entry |
| UpgradePanel.CostIndex | client/src/components/UpgradePanel.tsx:36-66 | The row index is the slot counter minus 2 for the slots and the card's level otherwise; within the counter bounds and below the maximum it lies inside the row |
| UpgradePanel.Cost | client/src/components/UpgradePanel.tsx:36-66 | The price is the row entry at the card's index, or 0 past the row; below the maximum it is always an entry of the row |
| UpgradePanel.HandleUpgrade | client/src/components/UpgradePanel.tsx:71-81 | The purchase reaches upgradeClinic at the card's price iff coins ≥ price and the level is below the maximum; otherwise the state is untouched |
| UpgradePanel.FirstPurchasePrices | client/src/components/UpgradePanel.tsx:18-66 | From the starting counters the first speed upgrade costs 500, and the first slot, boost and multiplier upgrades cost 0 |
| UpgradePanel.AllowedPurchaseRaisesLevel | client/src/components/UpgradePanel.tsx:75-76 | A purchase the panel allows takes exactly the displayed price and raises the card's level by one, so coins are never spent without effect |
| UpgradePanel.HandleUpgradeKeepsLevelWithinMax | client/src/components/UpgradePanel.tsx:110 | The panel never takes a card past its maximum level |
| UpgradePanel.CostRowsNonDecreasing | client/src/components/UpgradePanel.tsx:18-23 | Each cost row is non-decreasing |
| UpgradePanel.ChargedPricesAtMost | client/src/components/UpgradePanel.tsx:34-66 | Within the counter bounds an allowed purchase costs at most 1200 (slots), 3200 (boost) or 8000 (multiplier), and 500..4000 (speed): the last slot and boost prices are never charged |
| DiagnosisStation.DiagnosisReport | client/src/components/stations/DiagnosisStation.tsx:55-63 | The score is the percentage of symptoms found; success iff at least half were found; the time bonus is twice the seconds left |
| DiagnosisStation.Indices | client/src/components/stations/DiagnosisStation.tsx:104-126 | One button index per symptom, 0..n−1 |
| DiagnosisStation.ClickedWithinSymptoms | client/src/components/stations/DiagnosisStation.tsx:41-57 | A duplicate-free click list on the symptom buttons is no longer than the symptom list, so the score is at most 100 |
| DiagnosisStation.AfterFinish | client/src/components/stations/DiagnosisStation.tsx:52-68 | For a finishDiagnosis closure with its captured values: without a captured patient the game state is unchanged; otherwise every patient with the captured id goes to the pharmacy with its diagnosis marked done, whatever its status is by now, and nothing else changes |
| DiagnosisStation.FailedPatientSentOn | client/src/components/stations/DiagnosisStation.tsx:21-28 | A patient who failed during the round is still moved to the pharmacy, diagnosis marked done, by the closure that captured it |
| DiagnosisStation.AutoFinishUnderReports | client/src/components/stations/DiagnosisStation.tsx:46-47 | As written, finding every symptom reports less than 100: 66.67 for three symptoms, and a failure for one |
| DiagnosisStation.AutoFinishReportsAllFound | client/src/components/stations/DiagnosisStation.tsx:45-47 | As intended, finding every symptom reports a full score and a success |
| DiagnosisStation.TimeoutReportIgnoresClicks | client/src/components/stations/DiagnosisStation.tsx:21-28 | As written, a timed-out round always reports a failed score of 0 with a bonus of 30 |
| DiagnosisStation.TimeoutReportCountsClicks | client/src/components/stations/DiagnosisStation.tsx:21-28 | As intended, a timed-out round that found at least half the symptoms succeeds, with a bonus of at most 2 |
| DiagnosisStation.Station.constructor | client/src/components/stations/DiagnosisStation.tsx:9-12 | No patient selected, no round running, no clicks, 15 seconds |
| DiagnosisStation.Station.StartDiagnosis | client/src/components/stations/DiagnosisStation.tsx:17-39 | Selects the patient, starts the round, empties the clicks and sets the clock to 15. A countdown started by a round that was not running captures the patient of that render, no clicks and 15 seconds; a running countdown keeps what it captured |
| DiagnosisStation.Station.HandleSymptomClick | client/src/components/stations/DiagnosisStation.tsx:41-50 | A new index is appended and a repeated one ignored, so the list stays duplicate-free. The auto-finish is scheduled iff the click is new and completes the count for the current patient, and it captures that patient, the clicks before this one and the seconds left |
| DiagnosisStation.Station.FinishDiagnosis | client/src/components/stations/DiagnosisStation.tsx:52-68 | Run with the values a closure captured: without a captured patient nothing changes. Otherwise the captured patient is sent on to the pharmacy (AfterFinish) and the round is closed: no selection, no clicks, not active |
| DiagnosisStation.Station.CloseRound | client/src/components/stations/DiagnosisStation.tsx:65-67 | The round is closed: no patient selected, not active, no clicks; the clock is untouched |
| DiagnosisStation.Station.CountdownTick | client/src/components/stations/DiagnosisStation.tsx:18-32 | Above one second the clock counts down and nothing else changes. At one second or less the round is finished with the values the countdown captured at the start of the round, so a patient who failed meanwhile is still sent on, and the clock shows 0 |
| DiagnosisStation.ListsOnlyDiagnosing | client/src/components/stations/DiagnosisStation.tsx:14 | A patient is listed iff it is in diagnosis |
| PharmacyStation.IncludesIffOccurs | client/src/components/stations/PharmacyStation.tsx:33 | `includes` holds exactly when the part occurs at some position of the string |
| PharmacyStation.IncludesWitness | client/src/components/stations/PharmacyStation.tsx:33 | Where `includes` holds, the part occurs at a position |
| PharmacyStation.OccursIncludes | client/src/components/stations/PharmacyStation.tsx:33 | An occurrence at any position makes `includes` hold |
| PharmacyStation.Lead | client/src/components/stations/PharmacyStation.tsx:33 | The first two characters of a name, or the whole name if shorter |
| PharmacyStation.CorrectHerbs | client/src/components/stations/PharmacyStation.tsx:32-34 | Only selected herbs that match some required herb are kept, every matching selection is kept, and a duplicate-free selection gives a duplicate-free result |
| PharmacyStation.CorrectHerbsAppend | client/src/components/stations/PharmacyStation.tsx:32-34 | The filter keeps selection order: the correct herbs of a concatenation are those of each part, in turn |
| PharmacyStation.CorrectHerbsCount | client/src/components/stations/PharmacyStation.tsx:32-36 | A matching herb is counted as often as it was selected and a non-matching one never, which fixes the score's numerator |
| PharmacyStation.PharmacyReport | client/src/components/stations/PharmacyStation.tsx:31-42 | The score is the correct herbs as a percentage of the required ones; success iff at least half; no time bonus |
| PharmacyStation.OverlappingHerbsScoreAbove100 | client/src/components/stations/PharmacyStation.tsx:32-36 | Two herbs that both occur in one required name count twice: 菊花 and 花茶 against 菊花茶 score 200 |
| PharmacyStation.Toggle | client/src/components/stations/PharmacyStation.tsx:20-26 | The herb's membership flips, every other herb's is kept, and a duplicate-free selection stays duplicate-free |
| PharmacyStation.ToggleTwiceRestores | client/src/components/stations/PharmacyStation.tsx:20-26 | Toggling an unselected herb twice gives back the same selection |
| PharmacyStation.Station.constructor | client/src/components/stations/PharmacyStation.tsx:9-10 | No patient selected and no herbs |
| PharmacyStation.Station.StartPharmacy | client/src/components/stations/PharmacyStation.tsx:15-18 | Selects the patient with an empty selection |
| PharmacyStation.Station.ToggleHerb | client/src/components/stations/PharmacyStation.tsx:20-26 | The selection is toggled and stays duplicate-free |
| PharmacyStation.Station.SubmitPrescription | client/src/components/stations/PharmacyStation.tsx:28-46 | Without a current patient nothing changes. Otherwise the report goes to completePharmacy and the selection is cleared |
| PharmacyStation.ListsOnlyPharmacy | client/src/components/stations/PharmacyStation.tsx:12 | A patient is listed iff it is at the pharmacy |
| AcupunctureStation.AcupunctureReport | client/src/components/stations/AcupunctureStation.tsx:30-38 | 100 and a success when no points are prescribed. Otherwise the percentage of prescribed points clicked, with success iff at least half. Never above 100 for duplicate-free clicks; no time bonus |
| AcupunctureStation.CorrectPointsBound | client/src/components/stations/AcupunctureStation.tsx:22-32 | Duplicate-free clicks hit no more prescribed points than are prescribed |
| AcupunctureStation.ClickablePoints | client/src/components/stations/AcupunctureStation.tsx:115-119 | Exactly the chart points the prescription names get a button |
| AcupunctureStation.LastDiagnosisScoresAtMostHalf | client/src/components/stations/AcupunctureStation.tsx:115-134 | For D010 no duplicate-free clicks on the buttons score above 50, and clicking every button scores exactly 50 |
| AcupunctureStation.HalfOfTwoListed | client/src/components/stations/AcupunctureStation.tsx:115-134 | With 太阳穴 and 颊车穴 prescribed and only the first on the chart, the best score is 50 |
| AcupunctureStation.OnlyFirstListedOnChart | client/src/components/stations/AcupunctureStation.tsx:115-134 | Of 太阳穴 and 颊车穴, exactly 太阳穴 gets a button on the chart |
| AcupunctureStation.Station.constructor | client/src/components/stations/AcupunctureStation.tsx:10-11 | No patient selected and no points clicked |
| AcupunctureStation.Station.StartAcupuncture | client/src/components/stations/AcupunctureStation.tsx:16-19 | Selects the patient with no points clicked |
| AcupunctureStation.Station.HandlePointClick | client/src/components/stations/AcupunctureStation.tsx:21-25 | A new point is appended and a repeated one ignored, so the list stays duplicate-free |
| AcupunctureStation.Station.SubmitAcupuncture | client/src/components/stations/AcupunctureStation.tsx:27-42 | Without a current patient nothing changes. Otherwise the report, at most 100, goes to completeAcupuncture and the clicks are cleared |
| AcupunctureStation.ListsOnlyAcupuncture | client/src/components/stations/AcupunctureStation.tsx:13 | A patient is listed iff it is at acupuncture |
| ServingStation.ScoreColor | client/src/components/stations/ServingStation.tsx:11-15 | Green iff patience is above 80, orange iff it is in (50, 80], red iff it is at most 50 |
| ServingStation.ScoreText | client/src/components/stations/ServingStation.tsx:17-21 | 完美 iff patience is above 80, 良好 iff it is in (50, 80], 及格 iff it is at most 50 |
| ServingStation.DisplayedTierIsPaidTier | client/src/components/stations/ServingStation.tsx:11-21 | The text and colour a card shows switch exactly where servePatient's coin reward does |
| ServingStation.Stars | client/src/components/stations/ServingStation.tsx:101-105 | Five stars; star i is filled iff patience reaches 20·(i + 1) |
| ServingStation.FilledCount | client/src/components/stations/ServingStation.tsx:105 | The number of filled stars is the number of `true` entries |
| ServingStation.FilledPrefixCount | client/src/components/stations/ServingStation.tsx:105 | When the filled stars come first, their count is the length of that run |
| ServingStation.StarCount | client/src/components/stations/ServingStation.tsx:105 | For patience in [0, 100] the card fills floor(patience / 20) stars, at most 5 |
| ServingStation.ServingPatients | client/src/components/stations/ServingStation.tsx:9 | The cards are patients in serving only, and every such patient has one |
| ServingStation.ServeButtonServesCard | client/src/components/stations/ServingStation.tsx:121 | In a state of the engine, a card's button serves exactly that card's patient: it is completed, with the coins and reputation of the tier the card shows |
| Lists.Without | client/src/components/stations/PharmacyStation.tsx:22 | Every occurrence of the element is removed and everything else kept. The list shrinks iff the element was there and is unchanged otherwise; duplicate-freedom is kept |
| Lists.Keep | client/src/components/stations/AcupunctureStation.tsx:31 | Exactly the elements that occur in the second list are kept; duplicate-freedom is kept |
| Lists.DistinctWithinBound | client/src/components/stations/AcupunctureStation.tsx:31-32 | A duplicate-free list whose elements all occur in t is no longer than t |
| Lists.WithoutAppended | client/src/components/stations/PharmacyStation.tsx:20-26 | Appending an element and then removing it is the same as only removing it |

## Left out

- The React plumbing (context, hooks, refs) and the scheduling of the intervals and of the 500 ms timeout are left out. The ticks are methods that a caller applies, and the auto-finish is `Station.FinishDiagnosis` applied to the values `HandleSymptomClick` returns; `SpawnInterval` gives the period but time itself is not modelled.
- The spawn interval reads the cap from the level of the render that started it. The model reads the state's current level, which is the same because the interval restarts on every level change.
- Floating point:
  - `coinMultiplier` is modelled as exact tenths. In IEEE doubles, repeated `+= 0.2` gives 1.2, 1.4, 1.5999999999999999, and so on. The panel's level floor((m − 1)·5) therefore reads 0, 0, 1, 2, 3, 4, 5. As written, the first two multiplier purchases cost 0, and six purchases fit under the `< 2.0` guard, ending at about 2.2.
  - Mini-game scores are exact reals, not doubles.
- UpgradePanel.CurrentLevel: does not reproduce that double drift, because the multiplier is an exact step count.
- The order in which the countdown and a pending auto-finish fire is the caller's. Both may run for one round, and each run is one `FinishDiagnosis` call.
- The countdown captures the render that follows `startDiagnosis`. The model takes the game state at the moment of the call, with no decay or spawn tick in between.
- Avatar paths (`/patient-<n>.png`) and the `P<n>` id strings are represented by their numbers.
- A diagnosis with no symptoms or no herbs would give a 0/0 score (NaN) in the source. The diagnosis and pharmacy reports require a non-empty list; every catalogue entry has three symptoms and two herbs, and the invariant carries that fact.
- The symptom, herb and point buttons themselves are not modelled. Only the fact that click indices come from the symptom buttons is used.
- The pharmacy's submit button is disabled while nothing is selected. That is presentation, so `SubmitPrescription` accepts an empty selection, which scores 0.
- Features the code does not implement are not invented: achievement evaluation (the `achievements` field stays empty), combos, `fastestTreatment`, `totalPlayTime`, `day`, a game-over trigger, applying the coin multiplier, and counting `failedOrders`.
- The per-level `DIAGNOSIS_TIME_LIMIT` and the `HERBS` shelf are kept as data only. The diagnosis clock is fixed at 15 seconds. Most prescribed herb names match no shelf herb; that is content, not logic.
- The engine ignores the results the stations report. The reports are modelled and passed along, but no state depends on them.
- Sound effects, animation, styling and every presentation-only file (pages, overlays, media, the order desk) are not part of this model.

## Findings

| source | as written | input that shows it | evidently intended | confidence | as-written member | corrected member |
|---|---|---|---|---|---|---|
| client/src/components/stations/DiagnosisStation.tsx:46-47 | The 500 ms auto-finish runs the `finishDiagnosis` of the render before the final click. It reports the clicks without the last one. | A patient with three symptoms, all three clicked: the report is 66.67 instead of 100. With one symptom it is a failure. | Report every symptom found: score 100 and success. | not executed | DiagnosisStation.AutoFinishUnderReports | DiagnosisStation.AutoFinishReportsAllFound |
| client/src/components/stations/DiagnosisStation.tsx:21-28 | The countdown interval is created when the round starts. Its `finishDiagnosis` sees that render's values: no clicks and 15 seconds. | Any round that times out after two of three symptoms were found: score 0, failure, time bonus 30. | Report the clicks made and the time left (0 or 1 second). | not executed | DiagnosisStation.TimeoutReportIgnoresClicks | DiagnosisStation.TimeoutReportCountsClicks |

The station class keeps the behaviour as written: `Station.CountdownTick` runs
`Station.FinishDiagnosis` with the values the countdown captured when the round
started, and `Station.HandleSymptomClick` returns the values the auto-finish
captured. The engine ignores the report's values, so the two findings change
only what is reported. Which patient is sent on does matter: the captured one,
even after it has failed (`FailedPatientSentOn`).
