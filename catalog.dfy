// The static health data: the symptom catalog, the condition catalog and the
// sample health records, with the record types they are built from.

module Catalog {
  import opened Wrappers

  datatype Symptom = Symptom(id: string, name: string, description: Option<string>, bodyPart: Option<string>)

  datatype Urgency = Low | Medium | High | Emergency

  datatype Condition = Condition(
    id: string,
    name: string,
    symptoms: seq<string>,
    urgency: Urgency,
    description: string,
    homeRemedies: Option<seq<string>>,
    seekMedicalAttention: bool)

  datatype HealthRecord = HealthRecord(
    id: string,
    date: string,
    symptoms: seq<string>,
    diagnosis: Option<string>,
    notes: Option<string>,
    followUp: Option<string>)

  const Fever := Symptom("fever", "Fever", Some("Body temperature higher than normal (98.6°F or 37°C)"), Some("whole_body"))
  const Cough := Symptom("cough", "Cough", Some("Sudden expulsion of air from the lungs"), Some("chest"))
  const Headache := Symptom("headache", "Headache", Some("Pain in the head or upper neck"), Some("head"))
  const Fatigue := Symptom("fatigue", "Fatigue", Some("Extreme tiredness or lack of energy"), Some("whole_body"))
  const Nausea := Symptom("nausea", "Nausea", Some("Feeling of sickness with an inclination to vomit"), Some("stomach"))
  const Dizziness := Symptom("dizziness", "Dizziness", Some("Feeling of spinning or lightheadedness"), Some("head"))
  const JointPain := Symptom("jointpain", "Joint Pain", Some("Pain in one or more joints"), Some("joints"))
  const SkinRash := Symptom("rashorskin", "Skin Rash", Some("Area of irritated or swollen skin"), Some("skin"))
  const SoreThroat := Symptom("sore_throat", "Sore Throat", Some("Pain or irritation in the throat"), Some("throat"))
  const Diarrhea := Symptom("diarrhea", "Diarrhea", Some("Loose, watery stools"), Some("stomach"))
  const ChestPain := Symptom("chest_pain", "Chest Pain", Some("Pain or discomfort in the chest"), Some("chest"))
  const ShortBreath := Symptom("short_breath", "Shortness of Breath", Some("Difficulty breathing or catching your breath"), Some("chest"))
  const StomachPain := Symptom("stomachache", "Stomach Pain", Some("Pain in the abdominal region"), Some("stomach"))
  const Weakness := Symptom("weakness", "Weakness", Some("Lack of physical strength"), Some("whole_body"))
  const Vomiting := Symptom("vomiting", "Vomiting", Some("Forceful expulsion of stomach contents"), Some("stomach"))

  /** commonSymptoms, in catalog order. */
  const CommonSymptoms: seq<Symptom> := [
    Fever, Cough, Headache, Fatigue, Nausea, Dizziness, JointPain, SkinRash,
    SoreThroat, Diarrhea, ChestPain, ShortBreath, StomachPain, Weakness, Vomiting
  ]

  const CommonCold := Condition(
    "common_cold", "Common Cold", ["cough", "sore_throat", "fever", "headache"], Low,
    "A viral infection of the upper respiratory tract that is usually harmless.",
    Some([
      "Rest and drink plenty of fluids",
      "Gargle with warm salt water",
      "Use honey for cough (adults and children over 1 year)",
      "Use over-the-counter pain relievers if needed"]),
    false)

  const Flu := Condition(
    "flu", "Influenza (Flu)", ["fever", "cough", "fatigue", "headache", "sore_throat"], Medium,
    "A contagious respiratory illness caused by influenza viruses.",
    Some([
      "Rest and stay hydrated",
      "Take over-the-counter fever reducers",
      "Use a humidifier"]),
    false)

  const FoodPoisoning := Condition(
    "food_poisoning", "Food Poisoning", ["nausea", "vomiting", "diarrhea", "stomachache"], Medium,
    "Illness caused by eating contaminated food.",
    Some([
      "Stay hydrated with small sips of water",
      "Rest the stomach for a few hours",
      "Gradually reintroduce bland foods",
      "Avoid dairy, caffeine, alcohol, and fatty foods"]),
    true)

  const Dehydration := Condition(
    "dehydration", "Dehydration", ["dizziness", "fatigue", "headache", "weakness"], Medium,
    "A condition that occurs when the body loses more fluids than it takes in.",
    Some([
      "Drink water and oral rehydration solutions",
      "Avoid caffeine and alcohol",
      "Eat fruits and vegetables with high water content"]),
    true)

  const HeatStroke := Condition(
    "heatstroke", "Heat Stroke", ["headache", "dizziness", "fever", "nausea"], High,
    "A condition caused by your body overheating, usually as a result of prolonged exposure to or physical exertion in high temperatures.",
    Some([
      "Move to a cool place",
      "Apply cool compresses",
      "Drink cool water"]),
    true)

  const HeartAttack := Condition(
    "heart_attack", "Heart Attack", ["chest_pain", "short_breath", "nausea", "fatigue"], Emergency,
    "A serious medical emergency where the blood supply to the heart is suddenly blocked.",
    None,
    true)

  /** healthConditions, in catalog order. */
  const HealthConditions: seq<Condition> := [CommonCold, Flu, FoodPoisoning, Dehydration, HeatStroke, HeartAttack]

  /** mockHealthRecords, the records shown when nothing has been stored. */
  const MockHealthRecords: seq<HealthRecord> := [
    HealthRecord("1", "2025-03-15", ["fever", "cough", "sore_throat"],
      Some("Common Cold"), Some("Rest and fluids recommended"), Some("2025-03-22")),
    HealthRecord("2", "2025-02-10", ["headache", "dizziness", "fatigue"],
      Some("Dehydration"), Some("Increase water intake, especially during summer"), Some("2025-02-17"))
  ]

  /** The ids of a list of symptoms, in order (`symptoms.map(s => s.id)`). */
  function Ids(symptoms: seq<Symptom>): (ids: seq<string>)
    ensures |ids| == |symptoms|
    ensures forall i :: 0 <= i < |symptoms| ==> ids[i] == symptoms[i].id
  {
    if symptoms == [] then [] else [symptoms[0].id] + Ids(symptoms[1..])
  }

  /** `symptoms.find(s => s.id === id)`: the first symptom with that id, if any. */
  function FindSymptom(symptoms: seq<Symptom>, id: string): (r: Option<Symptom>)
    ensures r.None? <==> forall s :: s in symptoms ==> s.id != id
    ensures r.Some? ==> r.value.id == id
    ensures r.Some? ==>
      exists i :: 0 <= i < |symptoms| && symptoms[i] == r.value && forall j :: 0 <= j < i ==> symptoms[j].id != id
  {
    if symptoms == [] then None
    else if symptoms[0].id == id then Some(symptoms[0])
    else FindSymptom(symptoms[1..], id)
  }

  /** The lower-case name the source gives an urgency level. */
  function UrgencyName(u: Urgency): string {
    match u
    case Low => "low"
    case Medium => "medium"
    case High => "high"
    case Emergency => "emergency"
  }

  /** The symptom ids of the catalog are pairwise distinct. */
  lemma SymptomIdsDistinct()
    ensures forall i, j :: 0 <= i < j < |CommonSymptoms| ==> CommonSymptoms[i].id != CommonSymptoms[j].id
  {
  }

  /** `id` names a symptom of the catalog. */
  predicate IsKnownSymptom(id: string) {
    exists sym :: sym in CommonSymptoms && sym.id == id
  }

  /** The ids of catalog symptoms are known symptom ids. */
  lemma {:induction false} IdsOfCatalogSymptomsKnown(listed: seq<Symptom>)
    requires forall x :: x in listed ==> x in CommonSymptoms
    ensures forall s :: s in Ids(listed) ==> IsKnownSymptom(s)
  {
    if listed != [] {
      IdsOfCatalogSymptomsKnown(listed[1..]);
      assert listed[0] in CommonSymptoms;
      assert Ids(listed) == [listed[0].id] + Ids(listed[1..]);
    }
  }

  /** A condition whose symptom list names only catalog symptoms. */
  predicate UsesKnownSymptoms(c: Condition) {
    c.symptoms != [] && forall s :: s in c.symptoms ==> IsKnownSymptom(s)
  }

  lemma CommonColdUsesKnownSymptoms()
    ensures UsesKnownSymptoms(CommonCold)
  {
    assert CommonCold.symptoms == Ids([Cough, SoreThroat, Fever, Headache]);
    IdsOfCatalogSymptomsKnown([Cough, SoreThroat, Fever, Headache]);
  }

  lemma FluUsesKnownSymptoms()
    ensures UsesKnownSymptoms(Flu)
  {
    assert Flu.symptoms == Ids([Fever, Cough, Fatigue, Headache, SoreThroat]);
    IdsOfCatalogSymptomsKnown([Fever, Cough, Fatigue, Headache, SoreThroat]);
  }

  lemma FoodPoisoningUsesKnownSymptoms()
    ensures UsesKnownSymptoms(FoodPoisoning)
  {
    assert FoodPoisoning.symptoms == Ids([Nausea, Vomiting, Diarrhea, StomachPain]);
    IdsOfCatalogSymptomsKnown([Nausea, Vomiting, Diarrhea, StomachPain]);
  }

  lemma DehydrationUsesKnownSymptoms()
    ensures UsesKnownSymptoms(Dehydration)
  {
    assert Dehydration.symptoms == Ids([Dizziness, Fatigue, Headache, Weakness]);
    IdsOfCatalogSymptomsKnown([Dizziness, Fatigue, Headache, Weakness]);
  }

  lemma HeatStrokeUsesKnownSymptoms()
    ensures UsesKnownSymptoms(HeatStroke)
  {
    assert HeatStroke.symptoms == Ids([Headache, Dizziness, Fever, Nausea]);
    IdsOfCatalogSymptomsKnown([Headache, Dizziness, Fever, Nausea]);
  }

  lemma HeartAttackUsesKnownSymptoms()
    ensures UsesKnownSymptoms(HeartAttack)
  {
    assert HeartAttack.symptoms == Ids([ChestPain, ShortBreath, Nausea, Fatigue]);
    IdsOfCatalogSymptomsKnown([ChestPain, ShortBreath, Nausea, Fatigue]);
  }

  /**
   * Every condition lists at least one symptom, and each symptom it lists is
   * an id of the symptom catalog.
   */
  lemma ConditionsUseKnownSymptoms()
    ensures forall c :: c in HealthConditions ==> UsesKnownSymptoms(c)
  {
    CommonColdUsesKnownSymptoms();
    FluUsesKnownSymptoms();
    FoodPoisoningUsesKnownSymptoms();
    DehydrationUsesKnownSymptoms();
    HeatStrokeUsesKnownSymptoms();
    HeartAttackUsesKnownSymptoms();
  }
}
