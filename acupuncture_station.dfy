/**
 * The acupuncture station (client/src/components/stations/AcupunctureStation.tsx):
 * the chart shows a button for each chart point the current patient's
 * prescription names; the player clicks points and submits, and is scored by
 * the fraction of prescribed points clicked.
 */
module AcupunctureStation {
  import opened Wrappers
  import opened Lists
  import opened GameData
  import opened GameContext

  /**
   * The report submitAcupuncture sends: the percentage of the prescribed
   * points that were clicked, or 100 when nothing is prescribed; success at 50;
   * no time bonus. A duplicate-free click list never scores above 100.
   */
  function AcupunctureReport(clicked: seq<string>, required: seq<string>): (r: MiniGameResult)
    ensures |required| == 0 ==> r.score == 100.0 && r.success
    ensures |required| > 0 ==> r.score == Percent(|Keep(clicked, required)|, |required|)
    ensures |required| > 0 ==> (r.success <==> 2 * |Keep(clicked, required)| >= |required|)
    ensures Distinct(clicked) ==> 0.0 <= r.score <= 100.0
    ensures r.timeBonus == 0
  {
    var correct := Keep(clicked, required);
    if |required| > 0 then
      CorrectPointsBound(clicked, required);
      var score := Percent(|correct|, |required|);
      MiniGameResult(score >= 50.0, score, 0)
    else MiniGameResult(true, 100.0, 0)
  }

  /** Duplicate-free clicks never hit more prescribed points than are prescribed. */
  lemma CorrectPointsBound(clicked: seq<string>, required: seq<string>)
    ensures Distinct(clicked) ==> |Keep(clicked, required)| <= |required|
  {
    if Distinct(clicked) {
      var correct := Keep(clicked, required);
      forall x | x in correct
        ensures x in required
      {
        var i :| 0 <= i < |correct| && correct[i] == x;
      }
      DistinctWithinBound(correct, required);
    }
  }

  /** The names of the chart points that get a button: chart order, only those the prescription names. */
  function ClickablePoints(required: seq<string>): (r: seq<string>)
    ensures forall i :: 0 <= i < |r| ==> r[i] in ChartNames() && r[i] in required
    ensures forall i :: 0 <= i < |ChartNames()| && ChartNames()[i] in required ==> ChartNames()[i] in r
  {
    Keep(ChartNames(), required)
  }

  /**
   * D010 prescribes 太阳穴 and 颊车穴, and only 太阳穴 is on the chart: clicking
   * every button scores 50, and no duplicate-free clicks on the buttons score more.
   */
  lemma LastDiagnosisScoresAtMostHalf(clicked: seq<string>)
    requires Distinct(clicked)
    requires forall x :: x in clicked ==> x in ClickablePoints(PrescribedPoints(DIAGNOSES[9]))
    ensures AcupunctureReport(clicked, PrescribedPoints(DIAGNOSES[9])).score <= 50.0
    ensures AcupunctureReport(ClickablePoints(PrescribedPoints(DIAGNOSES[9])), PrescribedPoints(DIAGNOSES[9])).score == 50.0
  {
    var required := PrescribedPoints(DIAGNOSES[9]);
    assert required == CatalogueLists()[9];
    HalfOfTwoListed(clicked, required, ChartNames());
    assert ClickablePoints(required) == Keep(ChartNames(), required);
  }

  lemma HalfOfTwoListed(clicked: seq<string>, required: seq<string>, names: seq<string>)
    requires required == ["太阳穴", "颊车穴"]
    requires names == ["百会穴", "睛明穴", "太阳穴", "风池穴", "劳宫穴", "内关穴", "足三里穴", "三阴交穴", "涌泉穴", "神门穴"]
    requires Distinct(clicked) && forall x :: x in clicked ==> x in Keep(names, required)
    ensures AcupunctureReport(clicked, required).score <= 50.0
    ensures AcupunctureReport(Keep(names, required), required).score == 50.0
  {
    OnlyFirstListedOnChart(required, names);
    DistinctWithinBound(clicked, ["太阳穴"]);
    var correct := Keep(clicked, required);
    assert |correct| <= 1;
    DivByPositive(100.0 * |correct| as real, 2.0, 50.0);
    var buttons := Keep(names, required);
    assert buttons[0] in Keep(buttons, required);
    DistinctWithinBound(Keep(buttons, required), ["太阳穴"]);
    DivByPositive(100.0, 2.0, 50.0);
  }

  /** Of 太阳穴 and 颊车穴, only 太阳穴 has a button on the chart. */
  lemma OnlyFirstListedOnChart(required: seq<string>, names: seq<string>)
    requires required == ["太阳穴", "颊车穴"]
    requires names == ["百会穴", "睛明穴", "太阳穴", "风池穴", "劳宫穴", "内关穴", "足三里穴", "三阴交穴", "涌泉穴", "神门穴"]
    ensures Keep(names, required) == ["太阳穴"]
  {
    ChartNamesLiteral(names);
    var buttons := Keep(names, required);
    forall x | x in buttons
      ensures x == "太阳穴"
    {
      var i :| 0 <= i < |buttons| && buttons[i] == x;
      assert x in names && x in required;
    }
    assert names[2] in buttons;
    DistinctWithinBound(buttons, ["太阳穴"]);
  }

  class Station {
    var selectedPatient: Option<PatientId>
    var clickedPoints: seq<string>

    ghost predicate Valid()
      reads this
    {
      Distinct(clickedPoints)
    }

    /** The current patient: the selected one among the patients at acupuncture. */
    function Current(g: GameState): Option<Patient>
      reads this
    {
      Selected(g.patients, Acupuncture, selectedPatient)
    }

    constructor ()
      ensures Valid() && selectedPatient == None && clickedPoints == []
    {
      selectedPatient := None;
      clickedPoints := [];
    }

    /** startAcupuncture: select the patient with no points clicked. */
    method StartAcupuncture(id: PatientId)
      modifies this
      ensures Valid() && selectedPatient == Some(id) && clickedPoints == []
    {
      selectedPatient := Some(id);
      clickedPoints := [];
    }

    /** handlePointClick: a point not yet clicked is appended, so the list stays duplicate-free. */
    method HandlePointClick(name: string)
      requires Valid()
      modifies this
      ensures Valid() && selectedPatient == old(selectedPatient)
      ensures name in old(clickedPoints) ==> clickedPoints == old(clickedPoints)
      ensures name !in old(clickedPoints) ==> clickedPoints == old(clickedPoints) + [name]
    {
      if name !in clickedPoints {
        clickedPoints := clickedPoints + [name];
      }
    }

    /**
     * submitAcupuncture: without a current patient nothing happens; otherwise
     * the report goes to completeAcupuncture and the clicks are cleared.
     */
    method SubmitAcupuncture(game: GameProvider)
      requires Valid() && game.Valid()
      modifies this, game
      ensures Valid() && game.Valid() && game.nextId == old(game.nextId)
      ensures old(Current(game.state)).None? ==>
        game.state == old(game.state) && selectedPatient == old(selectedPatient) && clickedPoints == old(clickedPoints)
      ensures old(Current(game.state)).Some? ==>
        var p := old(Current(game.state)).value;
        && game.state == AcupunctureCompleted(old(game.state), p.id, AcupunctureReport(old(clickedPoints), PrescribedPoints(p.diagnosis)))
        && AcupunctureReport(old(clickedPoints), PrescribedPoints(p.diagnosis)).score <= 100.0
        && selectedPatient == None && clickedPoints == []
    {
      var current := Current(game.state);
      if current.Some? {
        var p := current.value;
        game.CompleteAcupuncture(p.id, AcupunctureReport(clickedPoints, PrescribedPoints(p.diagnosis)));
        selectedPatient := None;
        clickedPoints := [];
      }
    }
  }

  /** Only patients at acupuncture are listed, and every one of them is. */
  lemma ListsOnlyAcupuncture(g: GameState, i: nat)
    requires i < |g.patients|
    ensures g.patients[i] in WithStatus(g.patients, Acupuncture) <==> g.patients[i].status == Acupuncture
  {
  }
}
