// The health record page: the stored records, the new-record form and the
// handler that turns the form into a record.

module Records {
  import opened Wrappers
  import opened Text
  import opened Lists
  import opened Catalog
  import opened Storage

  /**
   * What a checkbox reports when it changes: a boolean, or the third
   * "indeterminate" state, which is a non-empty string and so truthy.
   */
  datatype CheckedState = Box(ticked: bool) | Indeterminate

  predicate Truthy(checked: CheckedState) {
    match checked
    case Box(ticked) => ticked
    case Indeterminate => true
  }

  /** `value || undefined` on a string: the empty string becomes absent. */
  function OrUndefined(value: string): (r: Option<string>)
    ensures r.None? <==> value == ""
    ensures r.Some? ==> r.value == value
  {
    if value == "" then None else Some(value)
  }

  /** getSymptomName over a symptom list: the name of the first symptom with that id, else the id. */
  function SymptomName(symptoms: seq<Symptom>, id: string): string {
    match FindSymptom(symptoms, id)
    case Some(symptom) => symptom.name
    case None => id
  }

  /** getSymptomName as the page calls it, over commonSymptoms. */
  function GetSymptomName(id: string): string {
    SymptomName(CommonSymptoms, id)
  }

  /** A known id shows the name of the symptom it identifies, when ids are unique. */
  lemma SymptomNameKnown(symptoms: seq<Symptom>, i: nat)
    requires i < |symptoms|
    requires forall j, k :: 0 <= j < k < |symptoms| ==> symptoms[j].id != symptoms[k].id
    ensures SymptomName(symptoms, symptoms[i].id) == symptoms[i].name
  {
    var r := FindSymptom(symptoms, symptoms[i].id);
    var k :| 0 <= k < |symptoms| && symptoms[k] == r.value && forall j :: 0 <= j < k ==> symptoms[j].id != symptoms[i].id;
    assert k == i;
  }

  /** An id no symptom has is shown as it is. */
  lemma SymptomNameUnknown(symptoms: seq<Symptom>, id: string)
    requires forall s :: s in symptoms ==> s.id != id
    ensures SymptomName(symptoms, id) == id
  {
  }

  /** Every catalog symptom is shown by its own name. */
  lemma GetSymptomNameOfCatalog(i: nat)
    requires i < |CommonSymptoms|
    ensures GetSymptomName(CommonSymptoms[i].id) == CommonSymptoms[i].name
  {
    SymptomIdsDistinct();
    SymptomNameKnown(CommonSymptoms, i);
  }

  /** The id of a record created at `now` milliseconds: `record-${Date.now()}`. */
  function RecordId(now: nat): string {
    "record-" + NatToString(now)
  }

  /**
   * Two records get the same id exactly when they are created in the same
   * millisecond.
   */
  lemma RecordIdsCollide(a: nat, b: nat)
    ensures RecordId(a) == RecordId(b) <==> a == b
  {
    NumberedIdInjective("record-", a, b);
  }

  /** The record built from the form fields; the three optional texts become absent when empty. */
  function NewRecord(now: nat, date: string, symptoms: seq<string>, diagnosis: string, notes: string, followUp: string): (r: HealthRecord)
    ensures r.id == RecordId(now) && r.date == date && r.symptoms == symptoms
    ensures r.diagnosis.None? <==> diagnosis == ""
    ensures r.notes.None? <==> notes == ""
    ensures r.followUp.None? <==> followUp == ""
    ensures r.diagnosis.Some? ==> r.diagnosis.value == diagnosis
    ensures r.notes.Some? ==> r.notes.value == notes
    ensures r.followUp.Some? ==> r.followUp.value == followUp
  {
    HealthRecord(RecordId(now), date, symptoms, OrUndefined(diagnosis), OrUndefined(notes), OrUndefined(followUp))
  }

  /** The state the HealthRecord component keeps. */
  class HealthRecordState {
    var records: seq<HealthRecord>
    var activeRecord: Option<HealthRecord>
    var newSymptoms: seq<string>
    var newDiagnosis: string
    var newNotes: string
    var newFollowUp: string
    var dialogOpen: bool

    /** The new-record form is empty and closed. */
    predicate FormReset()
      reads this
    {
      newSymptoms == [] && newDiagnosis == "" && newNotes == "" && newFollowUp == "" && !dialogOpen
    }

    /** The component after its mount effect has read the stored records. */
    constructor(stored: Option<seq<HealthRecord>>)
      ensures records == LoadedOr(stored, MockHealthRecords)
      ensures stored.Some? ==> records == stored.value
      ensures stored.None? ==> records == MockHealthRecords
      ensures activeRecord == None
      ensures FormReset()
    {
      match stored {
        case Some(saved) => records := saved;
        case None => records := MockHealthRecords;
      }
      activeRecord := None;
      newSymptoms := [];
      newDiagnosis := "";
      newNotes := "";
      newFollowUp := "";
      dialogOpen := false;
    }

    /** handleSymptomChange: a truthy state appends the id, a false one removes every occurrence. */
    method HandleSymptomChange(id: string, checked: CheckedState)
      modifies this
      ensures newSymptoms == Checked(old(newSymptoms), id, Truthy(checked))
      ensures Truthy(checked) ==> newSymptoms == old(newSymptoms) + [id]
      ensures !Truthy(checked) ==> id !in newSymptoms && IsSubsequence(newSymptoms, old(newSymptoms))
      ensures records == old(records) && activeRecord == old(activeRecord)
      ensures newDiagnosis == old(newDiagnosis) && newNotes == old(newNotes)
      ensures newFollowUp == old(newFollowUp) && dialogOpen == old(dialogOpen)
    {
      if Truthy(checked) {
        newSymptoms := newSymptoms + [id];
      } else {
        newSymptoms := RemoveAll(newSymptoms, id);
      }
    }

    /** Clicking a record in the timeline shows its details. */
    method SelectRecord(record: HealthRecord)
      modifies this
      ensures activeRecord == Some(record)
      ensures records == old(records) && newSymptoms == old(newSymptoms)
      ensures newDiagnosis == old(newDiagnosis) && newNotes == old(newNotes)
      ensures newFollowUp == old(newFollowUp) && dialogOpen == old(dialogOpen)
    {
      activeRecord := Some(record);
    }

    /** The diagnosis input's onChange. */
    method SetDiagnosis(value: string)
      modifies this
      ensures newDiagnosis == value
      ensures records == old(records) && activeRecord == old(activeRecord) && newSymptoms == old(newSymptoms)
      ensures newNotes == old(newNotes) && newFollowUp == old(newFollowUp) && dialogOpen == old(dialogOpen)
    {
      newDiagnosis := value;
    }

    /** The notes input's onChange. */
    method SetNotes(value: string)
      modifies this
      ensures newNotes == value
      ensures records == old(records) && activeRecord == old(activeRecord) && newSymptoms == old(newSymptoms)
      ensures newDiagnosis == old(newDiagnosis) && newFollowUp == old(newFollowUp) && dialogOpen == old(dialogOpen)
    {
      newNotes := value;
    }

    /** The follow-up input's onChange. */
    method SetFollowUp(value: string)
      modifies this
      ensures newFollowUp == value
      ensures records == old(records) && activeRecord == old(activeRecord) && newSymptoms == old(newSymptoms)
      ensures newDiagnosis == old(newDiagnosis) && newNotes == old(newNotes) && dialogOpen == old(dialogOpen)
    {
      newFollowUp := value;
    }

    /** The dialog's onOpenChange: opening or closing keeps what was typed. */
    method SetDialogOpen(isOpen: bool)
      modifies this
      ensures dialogOpen == isOpen
      ensures records == old(records) && activeRecord == old(activeRecord) && newSymptoms == old(newSymptoms)
      ensures newDiagnosis == old(newDiagnosis) && newNotes == old(newNotes) && newFollowUp == old(newFollowUp)
    {
      dialogOpen := isOpen;
    }

    /**
     * addNewRecord at time `now` with ISO date `date`: without symptoms
     * nothing changes; otherwise the record built from the form goes in
     * front of the others and the form is reset and closed.
     */
    method AddNewRecord(now: nat, date: string)
      modifies this
      ensures |old(newSymptoms)| == 0 ==>
        records == old(records) && newSymptoms == old(newSymptoms) &&
        newDiagnosis == old(newDiagnosis) && newNotes == old(newNotes) &&
        newFollowUp == old(newFollowUp) && dialogOpen == old(dialogOpen)
      ensures |old(newSymptoms)| > 0 ==>
        records == [NewRecord(now, date, old(newSymptoms), old(newDiagnosis), old(newNotes), old(newFollowUp))] + old(records) &&
        FormReset()
      ensures activeRecord == old(activeRecord)
    {
      if |newSymptoms| == 0 {
        return;
      }
      var newRecord := HealthRecord(RecordId(now), date, newSymptoms,
        OrUndefined(newDiagnosis), OrUndefined(newNotes), OrUndefined(newFollowUp));
      records := [newRecord] + records;
      newSymptoms := [];
      newDiagnosis := "";
      newNotes := "";
      newFollowUp := "";
      dialogOpen := false;
    }
  }
}
