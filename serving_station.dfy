/**
 * The serving station (client/src/components/stations/ServingStation.tsx):
 * one card per patient ready to be served, showing a satisfaction tier (text
 * and colour) and up to five stars, with a button that serves that patient.
 * Patience is in half-points: `h` stands for patience h / 2.
 */
module ServingStation {
  import opened Wrappers
  import opened GameData
  import opened GameContext

  /** getScoreColor: green above patience 80, orange above 50, red otherwise. */
  function ScoreColor(h: nat): (color: string)
    ensures color == "#00ff00" <==> h > 160
    ensures color == "#ff461f" <==> 100 < h <= 160
    ensures color == "#ff0000" <==> h <= 100
  {
    if h > 160 then "#00ff00" else if h > 100 then "#ff461f" else "#ff0000"
  }

  /** getScoreText: 完美 (perfect) above patience 80, 良好 (good) above 50, 及格 (pass) otherwise. */
  function ScoreText(h: nat): (text: string)
    ensures text == "完美" <==> h > 160
    ensures text == "良好" <==> 100 < h <= 160
    ensures text == "及格" <==> h <= 100
  {
    if h > 160 then "完美" else if h > 100 then "良好" else "及格"
  }

  /** The tier a card shows is the tier servePatient pays: text and colour switch exactly where the coin reward does. */
  lemma DisplayedTierIsPaidTier(h: nat)
    ensures ScoreText(h) == "完美" <==> CoinReward(h) == PERFECT_SCORE_BONUS
    ensures ScoreText(h) == "良好" <==> CoinReward(h) == GOOD_SCORE_BONUS
    ensures ScoreText(h) == "及格" <==> CoinReward(h) == FAIL_PENALTY
    ensures ScoreColor(h) == "#00ff00" <==> CoinReward(h) == PERFECT_SCORE_BONUS
    ensures ScoreColor(h) == "#ff461f" <==> CoinReward(h) == GOOD_SCORE_BONUS
    ensures ScoreColor(h) == "#ff0000" <==> CoinReward(h) == FAIL_PENALTY
  {
  }

  /** The five stars of a card: star i is filled iff i < floor(patience / 20). */
  function Stars(h: nat): (stars: seq<bool>)
    ensures |stars| == 5
    ensures forall i :: 0 <= i < 5 ==> (stars[i] <==> 40 * (i + 1) <= h)
  {
    seq(5, i => i < h / 40)
  }

  /** The number of filled stars. */
  function FilledCount(stars: seq<bool>): (n: nat)
    ensures n <= |stars|
    ensures n == multiset(stars)[true]
  {
    if stars == [] then 0
    else
      assert stars == [stars[0]] + stars[1..];
      (if stars[0] then 1 else 0) + FilledCount(stars[1..])
  }

  /** Filled stars come first: a run of `filled` trues followed by falses has `filled` filled stars. */
  lemma {:induction false} FilledPrefixCount(stars: seq<bool>, filled: nat)
    requires filled <= |stars|
    requires forall i :: 0 <= i < |stars| ==> (stars[i] <==> i < filled)
    ensures FilledCount(stars) == filled
  {
    if stars != [] {
      if filled > 0 {
        FilledPrefixCount(stars[1..], filled - 1);
      } else {
        FilledPrefixCount(stars[1..], 0);
      }
    }
  }

  /** For patience in [0, 100] the card shows floor(patience / 20) filled stars, between 0 and 5. */
  lemma StarCount(h: nat)
    requires h <= FULL_PATIENCE
    ensures FilledCount(Stars(h)) == h / 40 <= 5
    ensures 40 * FilledCount(Stars(h)) <= h < 40 * (FilledCount(Stars(h)) + 1)
  {
    FilledPrefixCount(Stars(h), h / 40);
  }

  /** The cards: the patients whose status is serving, in order. */
  function ServingPatients(g: GameState): (cards: seq<Patient>)
    ensures forall i :: 0 <= i < |cards| ==> cards[i].status == Serving && cards[i] in g.patients
    ensures forall i :: 0 <= i < |g.patients| && g.patients[i].status == Serving ==> g.patients[i] in cards
  {
    WithStatus(g.patients, Serving)
  }

  /**
   * A card's serve button serves exactly that card's patient: in a state of
   * the engine (ids unique), it is completed and paid the tier the card shows.
   */
  lemma ServeButtonServesCard(g: GameState, k: nat)
    requires Invariant(g)
    requires k < |ServingPatients(g)|
    ensures var p := ServingPatients(g)[k];
      && FindById(g.patients, p.id) == Some(p)
      && Served(g, p.id).coins == g.coins + CoinReward(p.patience)
      && Served(g, p.id).reputation == g.reputation + p.patience / 2
      && (forall i :: 0 <= i < |g.patients| && g.patients[i] == p ==> Served(g, p.id).patients[i].status == Completed)
  {
    var p := ServingPatients(g)[k];
    var j :| 0 <= j < |g.patients| && g.patients[j] == p;
    var found := FindById(g.patients, p.id);
    assert found.Some?;
    var i :| 0 <= i < |g.patients| && g.patients[i] == found.value && found.value.id == p.id;
    ServeCompletesPatient(g, p.id);
  }
}
