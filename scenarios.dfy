// Two worked examples of checkSymptoms on the condition catalog, each proved
// from the per-condition match counts.

module CheckExamples {
  import opened Catalog
  import opened Matcher

  /** The symptom lists of the six catalog conditions. */
  lemma ConditionSymptomLists()
    ensures CommonCold.symptoms == ["cough", "sore_throat", "fever", "headache"]
    ensures Flu.symptoms == ["fever", "cough", "fatigue", "headache", "sore_throat"]
    ensures FoodPoisoning.symptoms == ["nausea", "vomiting", "diarrhea", "stomachache"]
    ensures Dehydration.symptoms == ["dizziness", "fatigue", "headache", "weakness"]
    ensures HeatStroke.symptoms == ["headache", "dizziness", "fever", "nausea"]
    ensures HeartAttack.symptoms == ["chest_pain", "short_breath", "nausea", "fatigue"]
  {
  }

  // Selection A: fever, cough, sore throat and headache.

  lemma CountsA1()
    ensures CountSelected(["cough", "sore_throat", "fever", "headache"], ["fever", "cough", "sore_throat", "headache"]) == 4
    ensures CountSelected(["fever", "cough", "fatigue", "headache", "sore_throat"], ["fever", "cough", "sore_throat", "headache"]) == 4
  {
  }

  lemma CountsA2()
    ensures CountSelected(["dizziness", "fatigue", "headache", "weakness"], ["fever", "cough", "sore_throat", "headache"]) == 1
    ensures CountSelected(["headache", "dizziness", "fever", "nausea"], ["fever", "cough", "sore_throat", "headache"]) == 2
  {
  }

  lemma CountsA3()
    ensures CountSelected(["nausea", "vomiting", "diarrhea", "stomachache"], ["fever", "cough", "sore_throat", "headache"]) == 0
  {
  }

  lemma CountsA4()
    ensures CountSelected(["chest_pain", "short_breath", "nausea", "fatigue"], ["fever", "cough", "sore_throat", "headache"]) == 0
  {
  }

  lemma FilterA(a: Condition, b: Condition, c: Condition, d: Condition, e: Condition, f: Condition, sel: seq<string>)
    requires AnySelected(a.symptoms, sel) && AnySelected(b.symptoms, sel) && !AnySelected(c.symptoms, sel)
    requires AnySelected(d.symptoms, sel) && AnySelected(e.symptoms, sel) && !AnySelected(f.symptoms, sel)
    ensures Candidates([a, b, c, d, e, f], sel) == [a, b, d, e]
  {
    var cs := [a, b, c, d, e, f];
    assert cs[1..][1..][1..][1..][1..][1..] == [];
    assert Candidates(cs[1..][1..][1..][1..][1..], sel) == [];
    assert Candidates(cs[1..][1..][1..][1..], sel) == [e];
    assert Candidates(cs[1..][1..][1..], sel) == [d, e];
    assert Candidates(cs[1..][1..], sel) == [d, e];
    assert Candidates(cs[1..], sel) == [b, d, e];
  }

  lemma SortA(a: Condition, b: Condition, d: Condition, e: Condition, sel: seq<string>)
    requires MatchCount(a, sel) == 4 && MatchCount(b, sel) == 4
    requires MatchCount(d, sel) == 1 && MatchCount(e, sel) == 2
    ensures SortByMatches([a, b, d, e], sel) == [a, b, e, d]
  {
    var cs := [a, b, d, e];
    assert SortByMatches(cs[3..], sel) == [e];
    assert InsertByMatches(d, [e], sel) == [e, d];
    assert SortByMatches(cs[2..], sel) == [e, d];
    assert SortByMatches(cs[1..], sel) == [b, e, d];
  }

  lemma AssembleA(sel: seq<string>)
    requires MatchCount(CommonCold, sel) == 4 && MatchCount(Flu, sel) == 4 && MatchCount(FoodPoisoning, sel) == 0
    requires MatchCount(Dehydration, sel) == 1 && MatchCount(HeatStroke, sel) == 2 && MatchCount(HeartAttack, sel) == 0
    ensures CheckSymptoms(sel) == [CommonCold, Flu, HeatStroke, Dehydration]
  {
    AnySelectedSpec(CommonCold.symptoms, sel);
    AnySelectedSpec(Flu.symptoms, sel);
    AnySelectedSpec(FoodPoisoning.symptoms, sel);
    AnySelectedSpec(Dehydration.symptoms, sel);
    AnySelectedSpec(HeatStroke.symptoms, sel);
    AnySelectedSpec(HeartAttack.symptoms, sel);
    FilterA(CommonCold, Flu, FoodPoisoning, Dehydration, HeatStroke, HeartAttack, sel);
    SortA(CommonCold, Flu, Dehydration, HeatStroke, sel);
  }

  /**
   * Fever, cough, sore throat and headache: Common Cold and Influenza (four
   * matches each, in catalog order), then Heat Stroke (two), then Dehydration
   * (one).
   */
  lemma ScenarioRespiratory()
    ensures CheckSymptoms(["fever", "cough", "sore_throat", "headache"]) == [CommonCold, Flu, HeatStroke, Dehydration]
  {
    ConditionSymptomLists();
    CountsA1();
    CountsA2();
    CountsA3();
    CountsA4();
    AssembleA(["fever", "cough", "sore_throat", "headache"]);
  }

  // Selection B: chest pain, shortness of breath, nausea and fatigue.

  lemma CountsB1()
    ensures CountSelected(["cough", "sore_throat", "fever", "headache"], ["chest_pain", "short_breath", "nausea", "fatigue"]) == 0
    ensures CountSelected(["fever", "cough", "fatigue", "headache", "sore_throat"], ["chest_pain", "short_breath", "nausea", "fatigue"]) == 1
  {
  }

  lemma CountsB2()
    ensures CountSelected(["nausea", "vomiting", "diarrhea", "stomachache"], ["chest_pain", "short_breath", "nausea", "fatigue"]) == 1
    ensures CountSelected(["dizziness", "fatigue", "headache", "weakness"], ["chest_pain", "short_breath", "nausea", "fatigue"]) == 1
  {
  }

  lemma CountsB3()
    ensures CountSelected(["headache", "dizziness", "fever", "nausea"], ["chest_pain", "short_breath", "nausea", "fatigue"]) == 1
    ensures CountSelected(["chest_pain", "short_breath", "nausea", "fatigue"], ["chest_pain", "short_breath", "nausea", "fatigue"]) == 4
  {
  }

  lemma FilterB(a: Condition, b: Condition, c: Condition, d: Condition, e: Condition, f: Condition, sel: seq<string>)
    requires !AnySelected(a.symptoms, sel) && AnySelected(b.symptoms, sel) && AnySelected(c.symptoms, sel)
    requires AnySelected(d.symptoms, sel) && AnySelected(e.symptoms, sel) && AnySelected(f.symptoms, sel)
    ensures Candidates([a, b, c, d, e, f], sel) == [b, c, d, e, f]
  {
    var cs := [a, b, c, d, e, f];
    assert cs[1..][1..][1..][1..][1..][1..] == [];
    assert Candidates(cs[1..][1..][1..][1..][1..], sel) == [f];
    assert Candidates(cs[1..][1..][1..][1..], sel) == [e, f];
    assert Candidates(cs[1..][1..][1..], sel) == [d, e, f];
    assert Candidates(cs[1..][1..], sel) == [c, d, e, f];
    assert Candidates(cs[1..], sel) == [b, c, d, e, f];
  }

  lemma SortB(b: Condition, c: Condition, d: Condition, e: Condition, f: Condition, sel: seq<string>)
    requires MatchCount(b, sel) == 1 && MatchCount(c, sel) == 1 && MatchCount(d, sel) == 1
    requires MatchCount(e, sel) == 1 && MatchCount(f, sel) == 4
    ensures SortByMatches([b, c, d, e, f], sel) == [f, b, c, d, e]
  {
    var cs := [b, c, d, e, f];
    assert SortByMatches(cs[4..], sel) == [f];
    assert InsertByMatches(e, [f], sel) == [f, e];
    assert SortByMatches(cs[3..], sel) == [f, e];
    assert InsertByMatches(d, [f, e], sel) == [f, d, e];
    assert SortByMatches(cs[2..], sel) == [f, d, e];
    assert InsertByMatches(c, [f, d, e], sel) == [f, c, d, e];
    assert SortByMatches(cs[1..], sel) == [f, c, d, e];
    assert InsertByMatches(b, [f, c, d, e], sel) == [f, b, c, d, e];
  }

  lemma AssembleB(sel: seq<string>)
    requires MatchCount(CommonCold, sel) == 0 && MatchCount(Flu, sel) == 1 && MatchCount(FoodPoisoning, sel) == 1
    requires MatchCount(Dehydration, sel) == 1 && MatchCount(HeatStroke, sel) == 1 && MatchCount(HeartAttack, sel) == 4
    ensures CheckSymptoms(sel) == [HeartAttack, Flu, FoodPoisoning, Dehydration, HeatStroke]
  {
    AnySelectedSpec(CommonCold.symptoms, sel);
    AnySelectedSpec(Flu.symptoms, sel);
    AnySelectedSpec(FoodPoisoning.symptoms, sel);
    AnySelectedSpec(Dehydration.symptoms, sel);
    AnySelectedSpec(HeatStroke.symptoms, sel);
    AnySelectedSpec(HeartAttack.symptoms, sel);
    FilterB(CommonCold, Flu, FoodPoisoning, Dehydration, HeatStroke, HeartAttack, sel);
    SortB(Flu, FoodPoisoning, Dehydration, HeatStroke, HeartAttack, sel);
  }

  /**
   * Chest pain, shortness of breath, nausea and fatigue: Heart Attack first
   * (four matches), then the four conditions with one match each, in catalog
   * order.
   */
  lemma ScenarioCardiac()
    ensures CheckSymptoms(["chest_pain", "short_breath", "nausea", "fatigue"]) ==
              [HeartAttack, Flu, FoodPoisoning, Dehydration, HeatStroke]
  {
    ConditionSymptomLists();
    CountsB1();
    CountsB2();
    CountsB3();
    AssembleB(["chest_pain", "short_breath", "nausea", "fatigue"]);
  }
}
