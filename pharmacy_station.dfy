/**
 * The pharmacy station (client/src/components/stations/PharmacyStation.tsx):
 * the player toggles herbs from the shelf and submits the selection, which is
 * scored by how many selected herbs match the current patient's prescription.
 */
module PharmacyStation {
  import opened Wrappers
  import opened Lists
  import opened GameContext

  /** part occurs in s at position i. */
  predicate OccursAt(s: string, part: string, i: nat) {
    i + |part| <= |s| && s[i..i + |part|] == part
  }

  /** `s.includes(part)`, by walking along s. */
  predicate Includes(s: string, part: string)
    decreases |s|
  {
    part <= s || (|s| > 0 && Includes(s[1..], part))
  }

  /** Includes holds exactly when part occurs somewhere in s. */
  lemma IncludesIffOccurs(s: string, part: string)
    ensures Includes(s, part) <==> exists i: nat :: OccursAt(s, part, i)
  {
    if Includes(s, part) {
      var i := IncludesWitness(s, part);
    }
    if i: nat :| OccursAt(s, part, i) {
      OccursIncludes(s, part, i);
    }
  }

  /** Where Includes finds part: the first position the walk stops at. */
  lemma {:induction false} IncludesWitness(s: string, part: string) returns (i: nat)
    requires Includes(s, part)
    ensures OccursAt(s, part, i)
    decreases |s|
  {
    if part <= s {
      i := 0;
      assert s[0..|part|] == part;
    } else {
      var j := IncludesWitness(s[1..], part);
      assert s[1..][j..j + |part|] == s[j + 1..j + 1 + |part|];
      i := j + 1;
    }
  }

  /** An occurrence at position i is found by the walk. */
  lemma {:induction false} OccursIncludes(s: string, part: string, i: nat)
    requires OccursAt(s, part, i)
    ensures Includes(s, part)
    decreases i
  {
    if i == 0 {
      assert s[..|part|] == part;
    } else {
      assert s[1..][i - 1..i - 1 + |part|] == s[i..i + |part|];
      OccursIncludes(s[1..], part, i - 1);
    }
  }

  /** `r.split('').slice(0, 2).join('')`: the first two characters of r, or all of r if shorter. */
  function Lead(r: string): (lead: string)
    ensures lead <= r && |lead| == if |r| < 2 then |r| else 2
  {
    if |r| < 2 then r else r[..2]
  }

  /** A selected herb matches a required one if the required name contains it or it contains the required name's first two characters. */
  predicate Matches(herb: string, required: string) {
    Includes(required, herb) || Includes(herb, Lead(required))
  }

  /** `required.some(r => matches(herb, r))`. */
  predicate MatchesAny(herb: string, required: seq<string>) {
    exists k :: 0 <= k < |required| && Matches(herb, required[k])
  }

  /**
   * `selected.filter(h => required.some(...))`: the correct herbs, in selection
   * order (CorrectHerbsAppend), each matching herb as often as it was selected
   * and no other herb (CorrectHerbsCount).
   */
  function CorrectHerbs(selected: seq<string>, required: seq<string>): (r: seq<string>)
    ensures |r| <= |selected|
    ensures forall i :: 0 <= i < |r| ==> r[i] in selected && MatchesAny(r[i], required)
    ensures forall i :: 0 <= i < |selected| && MatchesAny(selected[i], required) ==> selected[i] in r
    ensures Distinct(selected) ==> Distinct(r)
  {
    if selected == [] then []
    else
      var rest := CorrectHerbs(selected[1..], required);
      assert selected == [selected[0]] + selected[1..];
      if MatchesAny(selected[0], required) then [selected[0]] + rest else rest
  }

  /** The filter keeps selection order: the correct herbs of a concatenation are those of each part, in turn. */
  lemma {:induction false} CorrectHerbsAppend(a: seq<string>, b: seq<string>, required: seq<string>)
    ensures CorrectHerbs(a + b, required) == CorrectHerbs(a, required) + CorrectHerbs(b, required)
  {
    if a == [] {
      assert a + b == b;
    } else {
      assert (a + b)[0] == a[0];
      assert (a + b)[1..] == a[1..] + b;
      CorrectHerbsAppend(a[1..], b, required);
    }
  }

  /** A matching herb is counted once per selection of it, and a herb that matches nothing is never counted. */
  lemma {:induction false} CorrectHerbsCount(selected: seq<string>, required: seq<string>, x: string)
    ensures multiset(CorrectHerbs(selected, required))[x] == if MatchesAny(x, required) then multiset(selected)[x] else 0
  {
    if selected != [] {
      assert selected == [selected[0]] + selected[1..];
      CorrectHerbsCount(selected[1..], required, x);
    }
  }

  /** The report submitPrescription sends: the percentage of the required herbs matched, success at 50, no time bonus. */
  function PharmacyReport(selected: seq<string>, required: seq<string>): (r: MiniGameResult)
    requires |required| > 0
    ensures r.success <==> 2 * |CorrectHerbs(selected, required)| >= |required|
    ensures r.score == Percent(|CorrectHerbs(selected, required)|, |required|)
    ensures r.timeBonus == 0
  {
    var score := Percent(|CorrectHerbs(selected, required)|, |required|);
    MiniGameResult(score >= 50.0, score, 0)
  }

  /**
   * Unlike the other two mini-games, the pharmacy score is not capped at 100:
   * two short herbs that both occur in one required name count twice.
   */
  lemma OverlappingHerbsScoreAbove100()
    ensures PharmacyReport(["菊花", "花茶"], ["菊花茶"]).score == 200.0
  {
    assert Includes("菊花茶", "菊花");
    assert Includes("花茶", []);
    assert Includes("菊花茶"[1..], "花茶");
    assert MatchesAny("菊花", ["菊花茶"]) by { assert Matches("菊花", ["菊花茶"][0]); }
    assert MatchesAny("花茶", ["菊花茶"]) by { assert Matches("花茶", ["菊花茶"][0]); }
    var selected: seq<string> := ["菊花", "花茶"];
    assert CorrectHerbs(selected[1..], ["菊花茶"]) == ["花茶"];
  }

  /** toggleHerb: a selected herb is removed, any other appended. */
  function Toggle(selected: seq<string>, herb: string): (r: seq<string>)
    ensures herb in r <==> herb !in selected
    ensures forall x :: x != herb ==> (x in r <==> x in selected)
    ensures Distinct(selected) ==> Distinct(r)
  {
    if herb in selected then Without(selected, herb) else selected + [herb]
  }

  /** Toggling a herb that is not selected twice gives back the same selection. */
  lemma ToggleTwiceRestores(selected: seq<string>, herb: string)
    requires herb !in selected
    ensures Toggle(Toggle(selected, herb), herb) == selected
  {
    WithoutAppended(selected, herb);
  }

  class Station {
    var selectedPatient: Option<PatientId>
    var selectedHerbs: seq<string>

    ghost predicate Valid()
      reads this
    {
      Distinct(selectedHerbs)
    }

    /** The current patient: the selected one among the patients at the pharmacy. */
    function Current(g: GameState): Option<Patient>
      reads this
    {
      Selected(g.patients, Pharmacy, selectedPatient)
    }

    constructor ()
      ensures Valid() && selectedPatient == None && selectedHerbs == []
    {
      selectedPatient := None;
      selectedHerbs := [];
    }

    /** startPharmacy: select the patient with an empty selection. */
    method StartPharmacy(id: PatientId)
      modifies this
      ensures Valid() && selectedPatient == Some(id) && selectedHerbs == []
    {
      selectedPatient := Some(id);
      selectedHerbs := [];
    }

    method ToggleHerb(herb: string)
      requires Valid()
      modifies this
      ensures Valid()
      ensures selectedPatient == old(selectedPatient) && selectedHerbs == Toggle(old(selectedHerbs), herb)
    {
      selectedHerbs := Toggle(selectedHerbs, herb);
    }

    /**
     * submitPrescription: without a current patient nothing happens; otherwise
     * the report goes to completePharmacy and the selection is cleared.
     */
    method SubmitPrescription(game: GameProvider)
      requires Valid() && game.Valid()
      modifies this, game
      ensures Valid() && game.Valid() && game.nextId == old(game.nextId)
      ensures old(Current(game.state)).None? ==>
        game.state == old(game.state) && selectedPatient == old(selectedPatient) && selectedHerbs == old(selectedHerbs)
      ensures old(Current(game.state)).Some? ==>
        var p := old(Current(game.state)).value;
        && |p.diagnosis.prescription.herbs| > 0
        && game.state == PharmacyCompleted(old(game.state), p.id, PharmacyReport(old(selectedHerbs), p.diagnosis.prescription.herbs))
        && selectedPatient == None && selectedHerbs == []
    {
      var current := Current(game.state);
      if current.Some? {
        var p := current.value;
        SelectedWellFormed(game.state.patients, Pharmacy, selectedPatient);
        game.CompletePharmacy(p.id, PharmacyReport(selectedHerbs, p.diagnosis.prescription.herbs));
        selectedPatient := None;
        selectedHerbs := [];
      }
    }
  }

  /** Only patients at the pharmacy are listed, and every one of them is. */
  lemma ListsOnlyPharmacy(g: GameState, i: nat)
    requires i < |g.patients|
    ensures g.patients[i] in WithStatus(g.patients, Pharmacy) <==> g.patients[i].status == Pharmacy
  {
  }
}
