// The voice assistant: symptom detection in a transcript, the reply composed
// from the detected symptoms, and the chat history the component keeps.

module Assistant {
  import opened Wrappers
  import opened Text
  import opened Lists
  import opened Catalog
  import opened Matcher
  import opened Normalizer

  /**
   * The symptom is mentioned: its lower-cased name, or its lower-cased
   * description when it has a non-empty one, occurs in the lower-cased input.
   */
  predicate Mentions(sym: Symptom, lowerInput: string) {
    Contains(lowerInput, Lower(sym.name)) ||
    (sym.description.Some? && sym.description.value != "" && Contains(lowerInput, Lower(sym.description.value)))
  }

  function MentionedIn(symptoms: seq<Symptom>, lowerInput: string): seq<Symptom> {
    if symptoms == [] then []
    else if Mentions(symptoms[0], lowerInput) then [symptoms[0]] + MentionedIn(symptoms[1..], lowerInput)
    else MentionedIn(symptoms[1..], lowerInput)
  }

  /** detectSymptoms over a list of symptoms: those mentioned in the input, in list order. */
  function DetectIn(symptoms: seq<Symptom>, input: string): seq<Symptom> {
    MentionedIn(symptoms, Lower(input))
  }

  /** detectSymptoms: the catalog symptoms mentioned in the input, in catalog order. */
  function DetectSymptoms(input: string): seq<Symptom> {
    DetectIn(CommonSymptoms, input)
  }

  lemma {:induction false} MentionedInSpec(symptoms: seq<Symptom>, lowerInput: string)
    ensures forall s :: s in MentionedIn(symptoms, lowerInput) <==> s in symptoms && Mentions(s, lowerInput)
    ensures IsSubsequence(MentionedIn(symptoms, lowerInput), symptoms)
  {
    if symptoms != [] {
      MentionedInSpec(symptoms[1..], lowerInput);
      assert symptoms == [symptoms[0]] + symptoms[1..];
    }
  }

  /**
   * The detected symptoms are exactly the mentioned catalog symptoms; they
   * come in catalog order and without repetition.
   */
  lemma DetectSymptomsSpec(input: string)
    ensures forall s :: s in DetectSymptoms(input) <==> s in CommonSymptoms && Mentions(s, Lower(input))
    ensures IsSubsequence(DetectSymptoms(input), CommonSymptoms)
    ensures Distinct(DetectSymptoms(input))
  {
    MentionedInSpec(CommonSymptoms, Lower(input));
    SymptomsDistinct();
    SubsequenceDistinct(DetectSymptoms(input), CommonSymptoms);
  }

  /** No symptom appears twice in the catalog. */
  lemma SymptomsDistinct()
    ensures Distinct(CommonSymptoms)
  {
    SymptomIdsDistinct();
  }

  /**
   * An input that spells a symptom's name, in any mix of upper and lower
   * case, anywhere in it, detects that symptom.
   */
  lemma DetectsNamedSymptom(before: string, spelled: string, after: string, sym: Symptom)
    requires sym in CommonSymptoms
    requires Lower(spelled) == Lower(sym.name)
    ensures sym in DetectSymptoms(before + spelled + after)
  {
    LowerAppend(before + spelled, after);
    LowerAppend(before, spelled);
    ContainsInfix(Lower(before), Lower(spelled), Lower(after));
    DetectSymptomsSpec(before + spelled + after);
  }

  /** The lower-cased names, `symptoms.map(s => s.name.toLowerCase())`. */
  function LowerNames(symptoms: seq<Symptom>): (names: seq<string>)
    ensures |names| == |symptoms|
    ensures forall i :: 0 <= i < |symptoms| ==> names[i] == Lower(symptoms[i].name)
  {
    if symptoms == [] then [] else [Lower(symptoms[0].name)] + LowerNames(symptoms[1..])
  }

  const NoSymptomsReply := "I couldn't detect any specific symptoms. Could you please describe how you're feeling in more detail?"

  function NoConditionReply(names: string): string {
    "I've detected that you may be experiencing " + names + NoConditionAdvice
  }

  const NoConditionAdvice := ". However, I don't have enough information to suggest a specific condition. Would you like to add any other symptoms?"

  function UrgencySentence(u: Urgency): string {
    match u
    case Low => "This is usually a minor concern. "
    case Medium => "This is a moderate concern that may require attention. "
    case High => "This is a serious concern that requires prompt medical attention. "
    case Emergency => "THIS IS A POTENTIAL EMERGENCY. Please seek immediate medical help! "
  }

  function RemediesClause(remedies: Option<seq<string>>): string {
    if remedies.Some? && |remedies.value| > 0 then "Here are some home remedies: " + Join(remedies.value, ", ") + ". "
    else ""
  }

  const ConsultAdvice := "It's recommended that you consult with a healthcare professional."

  /** The reply about the most likely condition. */
  function ConditionReply(names: string, top: Condition): string {
    var body := "Based on your symptoms (" + names + "), you might be experiencing " + top.name + ". " +
      top.description + " " + UrgencySentence(top.urgency) + RemediesClause(top.homeRemedies);
    if top.seekMedicalAttention then body + ConsultAdvice else body
  }

  /** What generateResponse returns for the detected symptoms, given the conditions it ranks. */
  function ReplyWith(conditions: seq<Condition>, symptoms: seq<Symptom>): string {
    if |symptoms| == 0 then NoSymptomsReply
    else ReplyAbout(Join(LowerNames(symptoms), ", "), CheckSymptomsIn(conditions, Ids(symptoms)))
  }

  /** What generateResponse returns, with the condition catalog. */
  function Reply(symptoms: seq<Symptom>): string {
    ReplyWith(HealthConditions, symptoms)
  }

  /** The reply once the possible conditions, best match first, are known. */
  function ReplyAbout(names: string, conditions: seq<Condition>): string {
    if |conditions| == 0 then NoConditionReply(names) else ConditionReply(names, conditions[0])
  }

  /** generateResponse: the reply built piece by piece, as the component does. */
  method GenerateResponse(conditions: seq<Condition>, symptoms: seq<Symptom>) returns (response: string)
    ensures response == ReplyWith(conditions, symptoms)
  {
    if |symptoms| == 0 {
      return NoSymptomsReply;
    }
    var names := Join(LowerNames(symptoms), ", ");
    var potentialConditions := CheckSymptomsIn(conditions, Ids(symptoms));
    response := RespondAbout(names, potentialConditions);
  }

  /** The part of generateResponse after checkSymptoms has run. */
  method RespondAbout(names: string, potentialConditions: seq<Condition>) returns (response: string)
    ensures response == ReplyAbout(names, potentialConditions)
  {
    if |potentialConditions| == 0 {
      return NoConditionReply(names);
    }
    response := DescribeCondition(names, potentialConditions[0]);
  }

  /** The reply about the top condition, with the urgency sentence, remedies and advice. */
  method DescribeCondition(names: string, top: Condition) returns (response: string)
    ensures response == ConditionReply(names, top)
  {
    response := "Based on your symptoms (" + names + "), you might be experiencing " + top.name + ". ";
    response := response + top.description + " ";
    response := response + UrgencySentence(top.urgency);
    var remedies := "";
    if top.homeRemedies.Some? && |top.homeRemedies.value| > 0 {
      remedies := "Here are some home remedies: " + Join(top.homeRemedies.value, ", ") + ". ";
    }
    response := response + remedies;
    if top.seekMedicalAttention {
      response := response + "It's recommended that you consult with a healthcare professional.";
    }
  }

  /**
   * When some listed condition shares a symptom with the detected ones, the
   * reply describes a condition with the most shared symptoms, and among
   * those the one listed first.
   */
  lemma ReplyDescribesBestMatch(conditions: seq<Condition>, symptoms: seq<Symptom>, c: Condition)
    requires c in conditions && exists s :: s in c.symptoms && s in Ids(symptoms)
    ensures CheckSymptomsIn(conditions, Ids(symptoms)) != []
    ensures var ids := Ids(symptoms);
      var top := CheckSymptomsIn(conditions, ids)[0];
      ReplyWith(conditions, symptoms) == ConditionReply(Join(LowerNames(symptoms), ", "), top) &&
      top in conditions &&
      MatchCount(c, ids) <= MatchCount(top, ids) &&
      (MatchCount(c, ids) == MatchCount(top, ids) ==>
         var tied := WithCount(conditions, ids, MatchCount(c, ids));
         tied != [] && tied[0] == top)
  {
    var ids := Ids(symptoms);
    var result := CheckSymptomsIn(conditions, ids);
    CheckSymptomsMembers(conditions, ids);
    assert c in result;
    var s :| s in c.symptoms && s in ids;
    assert |symptoms| == |ids| > 0;
    var top := result[0];
    CheckSymptomsRanked(conditions, ids);
    var j :| 0 <= j < |result| && result[j] == c;
    assert MatchCount(result[0], ids) >= MatchCount(result[j], ids);
    var k := MatchCount(top, ids);
    if MatchCount(c, ids) == k {
      assert k > 0 by {
        AnySelectedSpec(c.symptoms, ids);
      }
      CheckSymptomsKeepsCatalogOrder(conditions, ids, k);
      assert result == [top] + result[1..];
      assert WithCount(result, ids, k) == [top] + WithCount(result[1..], ids, k);
    }
  }

  /** The fixed opening of a condition reply, up to and including the urgency sentence. */
  function ReplyOpening(names: string, top: Condition): string {
    "Based on your symptoms (" + names + "), you might be experiencing " + top.name + ". " +
    top.description + " " + UrgencySentence(top.urgency)
  }

  /**
   * A reply about a condition opens with the detected names, the condition's
   * name and description and its urgency sentence. Remedies, when listed,
   * come next; otherwise the urgency sentence is directly followed by the
   * consultation advice, or ends the reply.
   */
  lemma ConditionReplyOpening(names: string, top: Condition)
    ensures var opening := ReplyOpening(names, top);
      var r := ConditionReply(names, top);
      var advice := if top.seekMedicalAttention then ConsultAdvice else "";
      |opening| <= |r| && r[..|opening|] == opening &&
      (top.homeRemedies.Some? && |top.homeRemedies.value| > 0 ==>
         r[|opening|..] == "Here are some home remedies: " + Join(top.homeRemedies.value, ", ") + ". " + advice) &&
      (top.homeRemedies.None? || |top.homeRemedies.value| == 0 ==> r[|opening|..] == advice)
  {
    var opening := ReplyOpening(names, top);
    var rest := RemediesClause(top.homeRemedies) + (if top.seekMedicalAttention then ConsultAdvice else "");
    assert ConditionReply(names, top) == opening + rest;
  }

  /**
   * The three kinds of reply never coincide: the one asking for more detail,
   * the one naming symptoms without a condition, and the one about a
   * condition.
   */
  lemma RepliesDistinct(names: string, otherNames: string, top: Condition)
    ensures NoSymptomsReply != NoConditionReply(names)
    ensures NoSymptomsReply != ConditionReply(otherNames, top)
    ensures NoConditionReply(names) != ConditionReply(otherNames, top)
  {
    NoSymptomsReplyEnd();
    NoConditionReplyEnd(names);
    ConditionReplyLast(otherNames, top);
    DifferentEnds(NoSymptomsReply, NoConditionReply(names), 2);
    DifferentEnds(NoSymptomsReply, ConditionReply(otherNames, top), 1);
    DifferentEnds(NoConditionReply(names), ConditionReply(otherNames, top), 1);
  }

  /** Strings that differ in their k-th character from the end differ. */
  lemma DifferentEnds(a: string, b: string, k: nat)
    requires 0 < k <= |a| && k <= |b| && a[|a| - k] != b[|b| - k]
    ensures a != b
  {
  }

  lemma NoSymptomsReplyEnd()
    ensures |NoSymptomsReply| >= 2
    ensures NoSymptomsReply[|NoSymptomsReply| - 1] == '?' && NoSymptomsReply[|NoSymptomsReply| - 2] == 'l'
  {
  }

  lemma NoConditionReplyEnd(names: string)
    ensures var r := NoConditionReply(names); |r| >= 2 && r[|r| - 1] == '?' && r[|r| - 2] == 's'
  {
    assert NoConditionAdvice[|NoConditionAdvice| - 1] == '?' && NoConditionAdvice[|NoConditionAdvice| - 2] == 's';
  }

  /** A reply about a condition ends with a full stop or a space, never a question mark. */
  lemma ConditionReplyLast(names: string, top: Condition)
    ensures var r := ConditionReply(names, top); |r| > 0 && (r[|r| - 1] == '.' || r[|r| - 1] == ' ')
  {
    var r := ConditionReply(names, top);
    ConditionReplyEnding(names, top);
    if top.seekMedicalAttention {
      assert ConsultAdvice[|ConsultAdvice| - 1] == '.';
      assert r[|r| - 1] == r[|r| - |ConsultAdvice|..][|ConsultAdvice| - 1];
    }
  }

  /** Every urgency sentence ends with a space. */
  lemma UrgencySentenceEndsWithSpace(u: Urgency)
    ensures |UrgencySentence(u)| > 0 && UrgencySentence(u)[|UrgencySentence(u)| - 1] == ' '
  {
    match u {
      case Low => LowSentenceEnd();
      case Medium => MediumSentenceEnd();
      case High => HighSentenceEnd();
      case Emergency => EmergencySentenceEnd();
    }
  }

  lemma LowSentenceEnd()
    ensures |UrgencySentence(Low)| == 33 && UrgencySentence(Low)[32] == ' '
  {
  }

  lemma MediumSentenceEnd()
    ensures |UrgencySentence(Medium)| == 55 && UrgencySentence(Medium)[54] == ' '
  {
  }

  lemma HighSentenceEnd()
    ensures |UrgencySentence(High)| == 66 && UrgencySentence(High)[65] == ' '
  {
  }

  lemma EmergencySentenceEnd()
    ensures |UrgencySentence(Emergency)| == 67 && UrgencySentence(Emergency)[66] == ' '
  {
  }

  /**
   * A reply about a condition ends with the consultation advice exactly when
   * the condition calls for medical attention; otherwise it ends with the
   * space after the urgency sentence or after the remedies.
   */
  lemma ConditionReplyEnding(names: string, top: Condition)
    ensures var r := ConditionReply(names, top);
      |r| > 0 &&
      (top.seekMedicalAttention ==> EndsWith(r, ConsultAdvice)) &&
      (!top.seekMedicalAttention ==> r[|r| - 1] == ' ' && !EndsWith(r, ConsultAdvice))
  {
    var u := UrgencySentence(top.urgency);
    UrgencySentenceEndsWithSpace(top.urgency);
    var front := "Based on your symptoms (" + names + "), you might be experiencing " + top.name + ". " +
      top.description + " ";
    var head := front + u;
    LastOfAppend(front, u);
    var rem := RemediesClause(top.homeRemedies);
    var body := head + rem;
    if rem == [] {
      assert body == head;
    } else {
      var opening := "Here are some home remedies: " + Join(top.homeRemedies.value, ", ");
      assert rem == opening + ". ";
      LastOfAppend(opening, ". ");
      LastOfAppend(head, rem);
    }
    assert body[|body| - 1] == ' ';
    if !top.seekMedicalAttention {
      assert ConsultAdvice[|ConsultAdvice| - 1] == '.';
    }
  }

  /** Appending a non-empty string keeps its last character. */
  lemma LastOfAppend(a: string, b: string)
    requires |b| > 0
    ensures |a + b| > 0 && (a + b)[|a + b| - 1] == b[|b| - 1]
  {
  }

  predicate EndsWith(s: string, suffix: string) {
    |suffix| <= |s| && s[|s| - |suffix|..] == suffix
  }

  datatype Speaker = User | Assistant

  datatype ChatMessage = ChatMessage(speaker: Speaker, text: string)

  /**
   * The state of the VoiceAssistant component that its handlers change.
   * processVoiceInput records the user's message, detects the symptoms and
   * composes the answer at once, and shows the answer one second later;
   * `pending` holds the answers composed but not yet shown, oldest first, and
   * CompleteProcessing is the resumption after the delay. The tables the
   * component reads are fixed when it is created.
   */
  class VoiceAssistantState {
    const lexicon: seq<Entry>
    const symptomCatalog: seq<Symptom>
    const conditionCatalog: seq<Condition>
    var transcript: string
    var processing: bool
    var pending: seq<string>
    var detectedSymptoms: seq<Symptom>
    var currentResponse: string
    var chatHistory: seq<ChatMessage>

    constructor()
      ensures lexicon == Lexicon && symptomCatalog == CommonSymptoms && conditionCatalog == HealthConditions
      ensures transcript == "" && !processing && pending == [] && detectedSymptoms == []
      ensures currentResponse == "" && chatHistory == []
    {
      lexicon := Lexicon;
      symptomCatalog := CommonSymptoms;
      conditionCatalog := HealthConditions;
      transcript := "";
      processing := false;
      pending := [];
      detectedSymptoms := [];
      currentResponse := "";
      chatHistory := [];
    }

    /**
     * processVoiceInput up to its delay: a blank input is ignored; otherwise
     * it is appended to the chat as the user's message, its symptoms are
     * detected in its translation, and the answer to them is queued.
     */
    method ProcessVoiceInput(input: string)
      modifies this
      ensures IsBlank(input) ==>
        chatHistory == old(chatHistory) && pending == old(pending) && processing == old(processing) &&
        detectedSymptoms == old(detectedSymptoms)
      ensures !IsBlank(input) ==>
        chatHistory == old(chatHistory) + [ChatMessage(User, input)] && processing &&
        detectedSymptoms == DetectIn(symptomCatalog, TranslatedWith(lexicon, input)) &&
        pending == old(pending) + [ReplyWith(conditionCatalog, detectedSymptoms)]
      ensures transcript == old(transcript) && currentResponse == old(currentResponse)
    {
      if IsBlank(input) {
        return;
      }
      chatHistory := chatHistory + [ChatMessage(User, input)];
      processing := true;
      var detected, response := Answer(lexicon, symptomCatalog, conditionCatalog, input);
      detectedSymptoms := detected;
      pending := pending + [response];
    }

    /**
     * processVoiceInput after its delay: the oldest queued answer becomes the
     * current response and is appended to the chat as the assistant's message.
     */
    method CompleteProcessing()
      requires pending != []
      modifies this
      ensures pending == old(pending[1..]) && !processing
      ensures currentResponse == old(pending[0])
      ensures chatHistory == old(chatHistory) + [ChatMessage(Assistant, old(pending[0]))]
      ensures transcript == old(transcript) && detectedSymptoms == old(detectedSymptoms)
    {
      var response := pending[0];
      pending := pending[1..];
      currentResponse := response;
      chatHistory := chatHistory + [ChatMessage(Assistant, response)];
      processing := false;
    }

    /**
     * processVoiceInput from start to end when no other answer is waiting:
     * a non-blank input adds exactly two messages to the chat, the user's
     * input and then the answer to the symptoms detected in it.
     */
    method ProcessVoiceInputToEnd(input: string)
      requires pending == []
      modifies this
      ensures IsBlank(input) ==>
        chatHistory == old(chatHistory) && processing == old(processing) && currentResponse == old(currentResponse) &&
        detectedSymptoms == old(detectedSymptoms)
      ensures !IsBlank(input) ==>
        detectedSymptoms == DetectIn(symptomCatalog, TranslatedWith(lexicon, input)) &&
        currentResponse == ReplyWith(conditionCatalog, detectedSymptoms) &&
        chatHistory == old(chatHistory) + [ChatMessage(User, input), ChatMessage(Assistant, currentResponse)] &&
        !processing
      ensures pending == [] && transcript == old(transcript)
    {
      ProcessVoiceInput(input);
      if !IsBlank(input) {
        CompleteProcessing();
      }
    }

    /**
     * handleManualSubmit: a non-blank transcript is processed and cleared,
     * unless an answer is still being prepared.
     */
    method HandleManualSubmit()
      modifies this
      ensures IsBlank(old(transcript)) || old(processing) ==>
        transcript == old(transcript) && chatHistory == old(chatHistory) && pending == old(pending) &&
        processing == old(processing) && detectedSymptoms == old(detectedSymptoms)
      ensures !IsBlank(old(transcript)) && !old(processing) ==>
        chatHistory == old(chatHistory) + [ChatMessage(User, old(transcript))] && processing &&
        detectedSymptoms == DetectIn(symptomCatalog, TranslatedWith(lexicon, old(transcript))) &&
        pending == old(pending) + [ReplyWith(conditionCatalog, detectedSymptoms)] && transcript == ""
      ensures currentResponse == old(currentResponse)
    {
      if !IsBlank(transcript) && !processing {
        ProcessVoiceInput(transcript);
        transcript := "";
      }
    }
  }

  /** The synchronous part of processVoiceInput: translate, detect, answer. */
  method Answer(lexicon: seq<Entry>, symptoms: seq<Symptom>, conditions: seq<Condition>, input: string)
    returns (detected: seq<Symptom>, response: string)
    ensures detected == DetectIn(symptoms, TranslatedWith(lexicon, input))
    ensures response == ReplyWith(conditions, detected)
  {
    var translatedInput := TranslateWith(lexicon, input);
    detected := DetectIn(symptoms, translatedInput);
    response := GenerateResponse(conditions, detected);
  }
}
