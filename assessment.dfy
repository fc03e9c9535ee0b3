// The symptom checker page: the selection form, the assessment it runs and
// what it shows about each suggested condition.

module Assessment {
  import opened Wrappers
  import opened Lists
  import opened Catalog
  import opened Matcher

  /** The state the HealthAssessment component keeps. */
  class AssessmentState {
    var selectedSymptoms: seq<string>
    var duration: string
    var severity: string
    var results: seq<Condition>
    var showResults: bool

    /** The form as first shown, and as resetAssessment leaves it. */
    predicate Initial()
      reads this
    {
      selectedSymptoms == [] && duration == "today" && severity == "mild" && results == [] && !showResults
    }

    constructor()
      ensures Initial()
    {
      selectedSymptoms := [];
      duration := "today";
      severity := "mild";
      results := [];
      showResults := false;
    }

    /**
     * handleSymptomChange, called with `checked === true`: a ticked box
     * appends the id, an unticked one removes every occurrence of it.
     */
    method HandleSymptomChange(symptomId: string, checked: bool)
      modifies this
      ensures selectedSymptoms == Checked(old(selectedSymptoms), symptomId, checked)
      ensures duration == old(duration) && severity == old(severity)
      ensures results == old(results) && showResults == old(showResults)
    {
      selectedSymptoms := Checked(selectedSymptoms, symptomId, checked);
    }

    /** The duration radio group. */
    method SetDuration(value: string)
      modifies this
      ensures duration == value
      ensures selectedSymptoms == old(selectedSymptoms) && severity == old(severity)
      ensures results == old(results) && showResults == old(showResults)
    {
      duration := value;
    }

    /** The severity radio group. */
    method SetSeverity(value: string)
      modifies this
      ensures severity == value
      ensures selectedSymptoms == old(selectedSymptoms) && duration == old(duration)
      ensures results == old(results) && showResults == old(showResults)
    {
      severity := value;
    }

    /**
     * handleAssessment: with nothing selected nothing happens; otherwise the
     * results are checkSymptoms of the selection and are shown. Duration and
     * severity play no part.
     */
    method HandleAssessment()
      modifies this
      ensures |old(selectedSymptoms)| == 0 ==> results == old(results) && showResults == old(showResults)
      ensures |old(selectedSymptoms)| > 0 ==> results == CheckSymptoms(selectedSymptoms) && showResults
      ensures selectedSymptoms == old(selectedSymptoms)
      ensures duration == old(duration) && severity == old(severity)
    {
      if |selectedSymptoms| == 0 {
        return;
      }
      var assessmentResults := CheckSymptoms(selectedSymptoms);
      results := assessmentResults;
      showResults := true;
    }

    /** resetAssessment: back to the initial form. */
    method ResetAssessment()
      modifies this
      ensures Initial()
    {
      selectedSymptoms := [];
      duration := "today";
      severity := "mild";
      results := [];
      showResults := false;
    }
  }

  const DefaultColor := "bg-gray-100 text-gray-800 border-gray-200"

  /** getUrgencyColor: the card colours for an urgency string. */
  function UrgencyColor(urgency: string): string {
    if urgency == "low" then "bg-green-100 text-green-800 border-green-200"
    else if urgency == "medium" then "bg-yellow-100 text-yellow-800 border-yellow-200"
    else if urgency == "high" then "bg-orange-100 text-orange-800 border-orange-200"
    else if urgency == "emergency" then "bg-red-100 text-red-800 border-red-200"
    else DefaultColor
  }

  datatype Icon = AlertTriangle | CheckCircle2

  /** getUrgencyIcon: a warning triangle for emergency and high, a tick otherwise. */
  function UrgencyIcon(urgency: string): Icon {
    if urgency == "emergency" || urgency == "high" then AlertTriangle else CheckCircle2
  }

  /**
   * Every urgency level of a condition gets its own colour, and none of them
   * gets the fallback grey.
   */
  lemma UrgencyColorsDistinct(u: Urgency, v: Urgency)
    ensures UrgencyColor(UrgencyName(u)) != DefaultColor
    ensures u != v ==> UrgencyColor(UrgencyName(u)) != UrgencyColor(UrgencyName(v))
  {
  }

  /** A string that is not one of the four levels gets the grey fallback. */
  lemma UrgencyColorFallback(urgency: string)
    requires forall u :: UrgencyName(u) != urgency
    ensures UrgencyColor(urgency) == DefaultColor
  {
    assert UrgencyName(Low) != urgency && UrgencyName(Medium) != urgency;
    assert UrgencyName(High) != urgency && UrgencyName(Emergency) != urgency;
  }

  /** Only the two serious levels show the warning triangle. */
  lemma UrgencyIconOfLevel(u: Urgency)
    ensures UrgencyIcon(UrgencyName(u)) == AlertTriangle <==> u == High || u == Emergency
  {
  }

  /** `results.slice(0, 3)`: the first three results, or all of them when there are fewer. */
  function TopResults(results: seq<Condition>): (shown: seq<Condition>)
    ensures |shown| == if |results| < 3 then |results| else 3
    ensures shown == results[..|shown|]
  {
    if |results| < 3 then results else results[..3]
  }

  /**
   * The three conditions shown are the best matches: every suggested
   * condition left out has no more selected symptoms than any shown one.
   */
  lemma TopResultsAreBestMatches(conditions: seq<Condition>, selected: seq<string>)
    ensures var results := CheckSymptomsIn(conditions, selected);
      forall i, j :: 0 <= i < |TopResults(results)| <= j < |results| ==>
        MatchCount(TopResults(results)[i], selected) >= MatchCount(results[j], selected)
  {
    CheckSymptomsRanked(conditions, selected);
  }

  /**
   * The "Matching Symptoms" list of a condition card: its symptoms that were
   * selected, by name; an id the symptom list does not know renders nothing.
   */
  function MatchingSymptomNames(symptoms: seq<Symptom>, c: Condition, selected: seq<string>): seq<string> {
    NamesOf(symptoms, MatchingSymptoms(c, selected))
  }

  /** The names of the ids that `symptoms` knows, in the order of `ids`. */
  function NamesOf(symptoms: seq<Symptom>, ids: seq<string>): seq<string> {
    if ids == [] then []
    else match FindSymptom(symptoms, ids[0])
      case Some(s) => [s.name] + NamesOf(symptoms, ids[1..])
      case None => NamesOf(symptoms, ids[1..])
  }

  lemma {:induction false} NamesOfSpec(symptoms: seq<Symptom>, ids: seq<string>)
    ensures forall n :: n in NamesOf(symptoms, ids) <==>
      exists id :: id in ids && FindSymptom(symptoms, id).Some? && FindSymptom(symptoms, id).value.name == n
    ensures |NamesOf(symptoms, ids)| <= |ids|
    ensures (forall id :: id in ids ==> FindSymptom(symptoms, id).Some?) ==> |NamesOf(symptoms, ids)| == |ids|
  {
    if ids != [] {
      NamesOfSpec(symptoms, ids[1..]);
      assert forall id :: id in ids <==> id == ids[0] || id in ids[1..];
      var rest := NamesOf(symptoms, ids[1..]);
      match FindSymptom(symptoms, ids[0]) {
        case Some(sym) =>
          assert NamesOf(symptoms, ids) == [sym.name] + rest;
          assert ids[0] in ids && FindSymptom(symptoms, ids[0]).value.name == sym.name;
        case None =>
          assert NamesOf(symptoms, ids) == rest;
      }
    }
  }

  /** When every id is known, the i-th name is the name of the i-th id. */
  lemma {:induction false} NamesOfInOrder(symptoms: seq<Symptom>, ids: seq<string>)
    requires forall id :: id in ids ==> FindSymptom(symptoms, id).Some?
    ensures |NamesOf(symptoms, ids)| == |ids|
    ensures forall i :: 0 <= i < |ids| ==> NamesOf(symptoms, ids)[i] == FindSymptom(symptoms, ids[i]).value.name
  {
    if ids != [] {
      assert ids[0] in ids;
      NamesOfInOrder(symptoms, ids[1..]);
      assert NamesOf(symptoms, ids) == [FindSymptom(symptoms, ids[0]).value.name] + NamesOf(symptoms, ids[1..]);
    }
  }

  /**
   * A name is listed exactly when it belongs to a selected symptom of the
   * condition, and for a catalog condition every selected symptom is listed,
   * one name per symptom, in the order the condition lists its symptoms.
   */
  lemma MatchingSymptomNamesSpec(c: Condition, selected: seq<string>)
    ensures forall n :: n in MatchingSymptomNames(CommonSymptoms, c, selected) <==>
      exists id :: id in c.symptoms && id in selected &&
        FindSymptom(CommonSymptoms, id).Some? && FindSymptom(CommonSymptoms, id).value.name == n
    ensures c in HealthConditions ==> |MatchingSymptomNames(CommonSymptoms, c, selected)| == MatchCount(c, selected)
    ensures c in HealthConditions ==>
      var ids := MatchingSymptoms(c, selected);
      IsSubsequence(ids, c.symptoms) &&
      |MatchingSymptomNames(CommonSymptoms, c, selected)| == |ids| &&
      forall i :: 0 <= i < |ids| ==>
        FindSymptom(CommonSymptoms, ids[i]).Some? &&
        MatchingSymptomNames(CommonSymptoms, c, selected)[i] == FindSymptom(CommonSymptoms, ids[i]).value.name
  {
    var ids := MatchingSymptoms(c, selected);
    SelectedAmongSpec(c.symptoms, selected);
    NamesOfSpec(CommonSymptoms, ids);
    CountIsFilterLength(c.symptoms, selected);
    if c in HealthConditions {
      ConditionsUseKnownSymptoms();
      assert forall id :: id in ids ==> FindSymptom(CommonSymptoms, id).Some?;
      NamesOfInOrder(CommonSymptoms, ids);
    }
  }
}
