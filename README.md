# Swasthya Saarthi: a verified model of the triage core

Swasthya Saarthi is a health-assistance web application. Its core is a small,
deterministic symptom triage pipeline. Around that pipeline sit a few React
components that keep lists and flags in state. This project models that core
in Dafny and proves what its code promises.

- **Catalog** (`catalog.dfy`): the symptom catalog, the condition catalog and
  the sample health records. It also proves the catalog's integrity.
- **Matcher** (`matcher.dfy`): `checkSymptoms`. It keeps the conditions that
  share a symptom with the selection. It then sorts them, stably, by the
  number of shared symptoms.
- **Normalizer** (`normalizer.dfy`): the multilingual phrase table and
  `translateSymptom`. That function folds over the table. A rule fires when
  its phrase occurs in the original input. A firing rule rewrites every
  occurrence in the running text.
- **Assistant** (`assistant.dfy`): the voice assistant's symptom detector and
  reply composer, and the chat state its handlers change.
- **Assessment** (`assessment.dfy`): the symptom-checker form and the
  presentation rules for its results.
- **Records** (`records.dfy`): the health record timeline and its new-record
  form.
- **Emergency** (`emergency.dfy`): the SOS alert, the emergency contact list
  and the safe-route search.
- **Welfare** (`welfare.dfy`): the welfare-scheme search and the bookmarks.
- **Storage** (`storage.dfy`): persisting a list in localStorage. It is used
  by the record and contact pages.

Supporting modules:

- `text.dfy` covers `toLowerCase`, `includes`, global regex replacement
  without metacharacters, `join`, decimal rendering of numbers and `trim`.
- `lists.dfy` covers `filter`, the checkbox update and the bookmark toggle.
- `scenarios.dfy` works the two example selections through `checkSymptoms`.

Components are modelled as classes. A class's fields are the component's
`useState` variables. Each event handler is a method that states the whole
new state. Browser services are not modelled as such. The current time, the
stored value, the location answer and the timer callbacks are parameters or
methods of their own.

The voice assistant reads three tables: the phrase table, the symptom catalog
and the condition catalog. It holds them in constant fields that its
constructor fixes to the built-in tables. Its operations are stated over
those fields.

For chest pain, shortness of breath, nausea and fatigue, checkSymptoms
returns Heart Attack first. Influenza, Food Poisoning, Dehydration and Heat
Stroke follow, in catalog order, because each shares one of those symptoms.
`CheckExamples.ScenarioCardiac` proves the full list.

## Model

| member | source | states |
|---|---|---|
| Catalog.FindSymptom | src/components/HealthRecord.tsx:52 | `find` by id: absent exactly when no symptom has the id; otherwise a symptom with that id that no earlier one shares |
| Catalog.Ids | src/components/VoiceAssistant.tsx:145 | `map(s => s.id)`: same length, the i-th id is the i-th symptom's |
| Catalog.SymptomIdsDistinct | src/utils/healthData.ts:13-29 | the catalog's symptom ids are pairwise distinct |
| Catalog.IdsOfCatalogSymptomsKnown | src/utils/healthData.ts:13-29 | the ids of catalog symptoms are known symptom ids |
| Catalog.CommonColdUsesKnownSymptoms | src/utils/healthData.ts:43-56 | Common Cold lists at least one symptom, and each is a catalog symptom id |
| Catalog.FluUsesKnownSymptoms | src/utils/healthData.ts:57-69 | the same for Influenza |
| Catalog.FoodPoisoningUsesKnownSymptoms | src/utils/healthData.ts:70-83 | the same for Food Poisoning |
| Catalog.DehydrationUsesKnownSymptoms | src/utils/healthData.ts:84-96 | the same for Dehydration |
| Catalog.HeatStrokeUsesKnownSymptoms | src/utils/healthData.ts:97-109 | the same for Heat Stroke |
| Catalog.HeartAttackUsesKnownSymptoms | src/utils/healthData.ts:110-117 | the same for Heart Attack |
| Catalog.ConditionsUseKnownSymptoms | src/utils/healthData.ts:42-118 | every catalog condition has a non-empty symptom list of catalog ids |
| Matcher.SelectedAmongSpec | src/utils/healthData.ts:129-130 | the filtered symptom list holds exactly the condition's selected ids, as a subsequence of its list |
| Matcher.CountIsFilterLength | src/utils/healthData.ts:129-130 | the match count is the length of that filtered list |
| Matcher.AnySelectedSpec | src/utils/healthData.ts:124 | `some` holds iff a listed id is selected, iff the count is positive |
| Matcher.CandidatesSpec | src/utils/healthData.ts:123-125 | the filter keeps exactly the conditions sharing a selected id, in catalog order |
| Matcher.InsertPermutes | src/utils/healthData.ts:128-132 | one insertion step adds exactly the inserted condition |
| Matcher.SortPermutes | src/utils/healthData.ts:128-132 | the sort is a permutation of its input |
| Matcher.InsertKeepsRanking | src/utils/healthData.ts:128-132 | inserting into a ranked list keeps it ranked by count, highest first |
| Matcher.InsertWithCount | src/utils/healthData.ts:128-132 | inserting a condition into a ranked list puts it in front of its own count class and leaves every other class as it was |
| Matcher.SortRanks | src/utils/healthData.ts:128-132 | the sorted list is non-increasing in match count |
| Matcher.SortIsStable | src/utils/healthData.ts:128-132 | every count class keeps its input order through the sort |
| Matcher.CandidatesWithCount | src/utils/healthData.ts:123-125 | a positive count class is the same before and after the filter |
| Matcher.CheckSymptomsMembers | src/utils/healthData.ts:121-135 | the result holds exactly the listed conditions sharing at least one symptom with the selection |
| Matcher.CheckSymptomsPermutes | src/utils/healthData.ts:121-135 | the result is a rearrangement of the filtered conditions |
| Matcher.CheckSymptomsRanked | src/utils/healthData.ts:128-132 | the result is ordered by match count, highest first |
| Matcher.CheckSymptomsKeepsCatalogOrder | src/utils/healthData.ts:128-132 | conditions with equal positive count keep their catalog order |
| Matcher.CheckSymptomsNoSelection | src/utils/healthData.ts:124 | an empty selection yields no condition |
| Matcher.CandidatesNone | src/utils/healthData.ts:123-125 | with nothing selected the filter keeps nothing |
| Matcher.CheckSymptomsMembershipOnly | src/utils/healthData.ts:124-130 | two selections with the same members (any order, any repeats) give identical results |
| Matcher.CountMembershipOnly | src/utils/healthData.ts:124-130 | counts and `some` depend on the selection's members only |
| Matcher.CandidatesMembershipOnly | src/utils/healthData.ts:123-125 | the filter depends on the selection only through `some` |
| Matcher.SortSameCounts | src/utils/healthData.ts:128-132 | the sort depends on the selection only through the counts |
| Matcher.InsertSameCounts | src/utils/healthData.ts:128-132 | the same for one insertion step |
| CheckExamples.ConditionSymptomLists | src/utils/healthData.ts:42-118 | the symptom list of each catalog condition |
| CheckExamples.CountsA1 | src/utils/healthData.ts:129-130 | fever, cough, sore throat and headache: Common Cold and Influenza share 4 |
| CheckExamples.CountsA2 | src/utils/healthData.ts:129-130 | Dehydration shares 1, Heat Stroke 2 |
| CheckExamples.CountsA3 | src/utils/healthData.ts:129-130 | Food Poisoning shares none |
| CheckExamples.CountsA4 | src/utils/healthData.ts:129-130 | Heart Attack shares none |
| CheckExamples.FilterA | src/utils/healthData.ts:123-125 | the filter drops exactly the third and sixth condition |
| CheckExamples.SortA | src/utils/healthData.ts:128-132 | counts 4, 4, 1, 2 sort to the order 1, 2, 4, 3 |
| CheckExamples.AssembleA | src/utils/healthData.ts:121-135 | those counts give Common Cold, Influenza, Heat Stroke, Dehydration |
| CheckExamples.ScenarioRespiratory | src/utils/healthData.ts:42-135 | fever, cough, sore throat and headache give Common Cold, Influenza, Heat Stroke, Dehydration |
| CheckExamples.CountsB1 | src/utils/healthData.ts:129-130 | chest pain, shortness of breath, nausea and fatigue: Common Cold shares none, Influenza 1 |
| CheckExamples.CountsB2 | src/utils/healthData.ts:129-130 | Food Poisoning and Dehydration share 1 each |
| CheckExamples.CountsB3 | src/utils/healthData.ts:129-130 | Heat Stroke shares 1, Heart Attack 4 |
| CheckExamples.FilterB | src/utils/healthData.ts:123-125 | the filter drops exactly the first condition |
| CheckExamples.SortB | src/utils/healthData.ts:128-132 | the 4-count condition moves first, the tied ones keep their order |
| CheckExamples.AssembleB | src/utils/healthData.ts:121-135 | those counts give Heart Attack, Influenza, Food Poisoning, Dehydration, Heat Stroke |
| CheckExamples.ScenarioCardiac | src/utils/healthData.ts:42-135 | chest pain, shortness of breath, nausea and fatigue give Heart Attack, Influenza, Food Poisoning, Dehydration, Heat Stroke |
| Normalizer.TranslateWith | src/utils/voiceUtils.ts:310-323 | the forEach loop over a phrase table computes the ordered fold of the rules over the input |
| Normalizer.TranslateSymptom | src/utils/voiceUtils.ts:187-323 | translateSymptom is that loop over the built-in table |
| Normalizer.ApplyRulesAppend | src/utils/voiceUtils.ts:315-320 | rules apply in table order: a table split in two is its first part then its second |
| Normalizer.ApplyRulesNoneFire | src/utils/voiceUtils.ts:316 | rules whose phrase is not in the input leave the text unchanged |
| Normalizer.ApplyRulesFiringSet | src/utils/voiceUtils.ts:311-318 | the result is the firing rules applied in order, the firing set decided on the original input alone |
| Normalizer.FiringRules | src/utils/voiceUtils.ts:316 | the rules that fire are exactly the table's rules whose lower-cased phrase occurs in the lower-cased input |
| Normalizer.TranslatedUnchanged | src/utils/voiceUtils.ts:310-323 | an input containing no phrase of the table, in any case, comes back unchanged |
| Normalizer.FiredRuleLeavesNoPhrase | src/utils/voiceUtils.ts:318 | the replacement is global: after a firing rule whose phrase and term share no first character, no occurrence of its phrase is left |
| Normalizer.NativeRowSeparated | src/utils/voiceUtils.ts:187-209 | a row pairing an Indic-script phrase with an English term meets that condition |
| Normalizer.HindiRowsSeparated | src/utils/voiceUtils.ts:187-209 | every Hindi row of the table meets it, and the Hindi rows open the table |
| Normalizer.HindiRuleLeavesNoPhrase | src/utils/voiceUtils.ts:315-320 | after any Hindi rule of the table fires, no occurrence of its phrase is left |
| Text.ReplaceIgnoreCaseAbsent | src/utils/voiceUtils.ts:318 | a case-insensitive replacement of an absent phrase changes nothing |
| Text.ReplaceIgnoreCaseLeavesNone | src/utils/voiceUtils.ts:318 | a case-insensitive global replacement leaves no occurrence of the phrase |
| Text.LowerReplaceIgnoreCase | src/utils/voiceUtils.ts:318 | lower-casing a case-insensitive replacement is the plain replacement on lower-cased text |
| Text.LowerIdempotent | src/utils/voiceUtils.ts:311 | lower-casing twice is lower-casing once |
| Text.NatToStringRoundTrip | src/pages/EmergencyServices.tsx:142 | the decimal rendering of a number reads back as that number |
| Text.NumberedIdInjective | src/pages/EmergencyServices.tsx:142 | prefix-plus-number ids are equal exactly when the numbers are |
| Text.JoinLength | src/components/VoiceAssistant.tsx:151 | the joined length is the elements' lengths plus one separator per gap |
| Text.JoinAppend | src/components/VoiceAssistant.tsx:151 | one element joins to itself; each further element adds exactly one separator and itself at the end |
| Assistant.MentionedInSpec | src/components/VoiceAssistant.tsx:133-136 | the filter keeps exactly the symptoms whose lower-cased name or description occurs, in list order |
| Assistant.DetectSymptomsSpec | src/components/VoiceAssistant.tsx:130-137 | detected symptoms are a repetition-free subsequence of the catalog, each mentioned in the lower-cased input |
| Assistant.SymptomsDistinct | src/utils/healthData.ts:13-29 | the catalog has no repeated symptom |
| Assistant.DetectsNamedSymptom | src/components/VoiceAssistant.tsx:132-134 | an input containing a catalog symptom's name, in any case, detects it |
| Assistant.LowerNames | src/components/VoiceAssistant.tsx:151-157 | the i-th name is the i-th symptom's name lower-cased |
| Assistant.GenerateResponse | src/components/VoiceAssistant.tsx:139-152 | returns the fixed reply for no symptoms, otherwise the reply about the ranked conditions |
| Assistant.RespondAbout | src/components/VoiceAssistant.tsx:150-155 | the "no condition" reply when none is suggested, else the reply about the first |
| Assistant.DescribeCondition | src/components/VoiceAssistant.tsx:157-186 | the successive appends build the condition reply |
| Assistant.ReplyDescribesBestMatch | src/components/VoiceAssistant.tsx:148-158 | when a condition shares a detected symptom, the reply is about a condition with the most shared symptoms, the first listed among ties |
| Assistant.ConditionReplyOpening | src/components/VoiceAssistant.tsx:157-184 | the condition reply opens with the detected names, the condition's name, description and urgency sentence; the remedies follow exactly when listed, then the advice when attention is called for |
| Assistant.RepliesDistinct | src/components/VoiceAssistant.tsx:139-186 | the no-symptom, no-condition and condition replies never coincide, whatever the names and condition |
| Assistant.ConditionReplyLast | src/components/VoiceAssistant.tsx:157-184 | a condition reply ends with a full stop or a space, never a question mark |
| Assistant.UrgencySentenceEndsWithSpace | src/components/VoiceAssistant.tsx:161-174 | each urgency sentence ends with a space |
| Assistant.ConditionReplyEnding | src/components/VoiceAssistant.tsx:177-184 | the reply ends with the consult advice iff the condition calls for medical attention |
| Assistant.Answer | src/components/VoiceAssistant.tsx:107-114 | translate, detect in the translation, compose the reply to what was detected |
| Assistant.VoiceAssistantState.constructor | src/components/VoiceAssistant.tsx:13-20 | empty transcript, chat and detections, not processing |
| Assistant.VoiceAssistantState.ProcessVoiceInput | src/components/VoiceAssistant.tsx:97-114 | blank input changes nothing; otherwise one user message is appended, symptoms detected and the answer queued |
| Assistant.VoiceAssistantState.CompleteProcessing | src/components/VoiceAssistant.tsx:116-127 | after the delay the queued answer becomes the response and one assistant message is appended |
| Assistant.VoiceAssistantState.ProcessVoiceInputToEnd | src/components/VoiceAssistant.tsx:97-128 | a non-blank input appends exactly the user's message and then the answer |
| Assistant.VoiceAssistantState.HandleManualSubmit | src/components/VoiceAssistant.tsx:189-194 | a non-blank transcript is processed and cleared unless an answer is in progress |
| Assessment.AssessmentState.constructor | src/components/HealthAssessment.tsx:13-17 | no selection, "today", "mild", no results, results hidden |
| Assessment.AssessmentState.HandleSymptomChange | src/components/HealthAssessment.tsx:19-25 | checking appends the id, unchecking removes every occurrence; nothing else changes |
| Assessment.AssessmentState.SetDuration | src/components/HealthAssessment.tsx:124 | sets the duration only |
| Assessment.AssessmentState.SetSeverity | src/components/HealthAssessment.tsx:146 | sets the severity only |
| Assessment.AssessmentState.HandleAssessment | src/components/HealthAssessment.tsx:27-35 | an empty selection changes nothing; otherwise results are checkSymptoms of the selection alone and are shown |
| Assessment.AssessmentState.ResetAssessment | src/components/HealthAssessment.tsx:37-43 | back to exactly the initial state |
| Assessment.UrgencyColorsDistinct | src/components/HealthAssessment.tsx:45-53 | the four levels get four different colours, none of them the grey fallback |
| Assessment.UrgencyColorFallback | src/components/HealthAssessment.tsx:51 | any other string gets the grey fallback |
| Assessment.UrgencyIconOfLevel | src/components/HealthAssessment.tsx:55-63 | the warning icon exactly for high and emergency |
| Assessment.TopResults | src/components/HealthAssessment.tsx:210 | the first three results, or all when fewer |
| Assessment.TopResultsAreBestMatches | src/components/HealthAssessment.tsx:210 | no condition left out shares more symptoms than one shown |
| Assessment.NamesOfSpec | src/components/HealthAssessment.tsx:233-240 | the names listed are those of the ids the catalog knows, at most one per id |
| Assessment.NamesOfInOrder | src/components/HealthAssessment.tsx:233-240 | when every id is known, the i-th name listed is the name of the i-th id |
| Assessment.MatchingSymptomNamesSpec | src/components/HealthAssessment.tsx:231-240 | the names of the condition's selected symptoms; for a catalog condition, one per selected symptom, in the order the condition lists them |
| Records.OrUndefined | src/components/HealthRecord.tsx:78-80 | `value \|\| undefined`: absent exactly for the empty string |
| Records.SymptomNameKnown | src/components/HealthRecord.tsx:51-54 | a known id shows its symptom's name |
| Records.SymptomNameUnknown | src/components/HealthRecord.tsx:51-54 | an unknown id is shown as it is |
| Records.GetSymptomNameOfCatalog | src/components/HealthRecord.tsx:51-54 | every catalog symptom is shown by its own name |
| Records.RecordIdsCollide | src/components/HealthRecord.tsx:75 | two records get the same id exactly when made in the same millisecond |
| Records.NewRecord | src/components/HealthRecord.tsx:74-81 | the record carries the id, date and symptoms; empty texts become absent, others are kept |
| Records.HealthRecordState.constructor | src/components/HealthRecord.tsx:23-42 | the stored records if any, else the sample records; empty closed form |
| Records.HealthRecordState.HandleSymptomChange | src/components/HealthRecord.tsx:56-62 | a truthy state (indeterminate included) appends the id, false removes every occurrence |
| Records.HealthRecordState.SetDiagnosis | src/components/HealthRecord.tsx:236 | sets the diagnosis input only |
| Records.HealthRecordState.SetNotes | src/components/HealthRecord.tsx:245 | sets the notes input only |
| Records.HealthRecordState.SetFollowUp | src/components/HealthRecord.tsx:256 | sets the follow-up input only |
| Records.HealthRecordState.SetDialogOpen | src/components/HealthRecord.tsx:196 | opens or closes the new-record dialog and keeps what was typed |
| Records.HealthRecordState.SelectRecord | src/components/HealthRecord.tsx:142 | selects the record for display |
| Records.HealthRecordState.AddNewRecord | src/components/HealthRecord.tsx:64-96 | no symptoms changes nothing; otherwise the new record is prepended to the old ones and the form is reset and closed |
| Storage.LoadedOr | src/components/HealthRecord.tsx:34-42 | the stored list when there is one, else the fallback |
| Storage.SaveThenLoad | src/components/HealthRecord.tsx:45-49 | a non-empty list survives a reload; an empty one is not written |
| Storage.RemovedLastEntryReturns | src/pages/EmergencyServices.tsx:74-78 | removing the only stored entry is undone by a reload |
| Storage.SavedEveryChangeRoundTrip | src/pages/EmergencyServices.tsx:74-78 | writing every change makes every list survive a reload |
| Emergency.ContactIdsCollide | src/pages/EmergencyServices.tsx:142 | two contacts get the same id exactly when added in the same millisecond |
| Emergency.CountWithId | src/pages/EmergencyServices.tsx:160 | the number of contacts with the id is zero iff none has it |
| Emergency.WithoutContact | src/pages/EmergencyServices.tsx:159-160 | exactly the contacts with other ids remain, in order, and the list shrinks by the number removed |
| Emergency.WithoutAbsentContact | src/pages/EmergencyServices.tsx:160 | removing an id nobody has changes nothing |
| Emergency.WithoutContactIdempotent | src/pages/EmergencyServices.tsx:160 | removing the same id twice is removing it once |
| Emergency.WithoutAddedContact | src/pages/EmergencyServices.tsx:147-160 | removing a just-added contact with a fresh id restores the list |
| Emergency.ContactHintWording | src/pages/EmergencyServices.tsx:299-301 | singular for one contact, plural otherwise, the count in decimal, the prompt to add contacts when there are none |
| Emergency.EmergencyState.constructor | src/pages/EmergencyServices.tsx:46-63 | the stored contacts if any, else none; all flags off, inputs empty, map loading |
| Emergency.EmergencyState.MapLoaded | src/pages/EmergencyServices.tsx:66-68 | the map stops loading, nothing else changes |
| Emergency.EmergencyState.TriggerSOS | src/pages/EmergencyServices.tsx:80-110 | a position records the location and activates SOS; an error changes nothing |
| Emergency.EmergencyState.CancelSOS | src/pages/EmergencyServices.tsx:112-119 | SOS and recording both off |
| Emergency.EmergencyState.ToggleRecording | src/pages/EmergencyServices.tsx:121-127 | the recording flag flips |
| Emergency.EmergencyState.SetContactName | src/pages/EmergencyServices.tsx:478 | sets the contact name input only |
| Emergency.EmergencyState.SetContactPhone | src/pages/EmergencyServices.tsx:488 | sets the contact phone input only |
| Emergency.EmergencyState.SetFromLocation | src/pages/EmergencyServices.tsx:597 | sets the starting point only |
| Emergency.EmergencyState.SetToLocation | src/pages/EmergencyServices.tsx:610 | sets the destination only |
| Emergency.EmergencyState.AddEmergencyContact | src/pages/EmergencyServices.tsx:129-157 | an empty name or phone changes nothing; otherwise the contact is appended and both inputs cleared |
| Emergency.EmergencyState.RemoveContact | src/pages/EmergencyServices.tsx:159-165 | the contacts with that id leave the list |
| Emergency.EmergencyState.LocateStart | src/pages/EmergencyServices.tsx:638-649 | a found location fills the starting point with "Current Location" |
| Emergency.EmergencyState.RequestSafeRoute | src/pages/EmergencyServices.tsx:619-630 | without both locations nothing happens; otherwise the dialog opens and a calculation starts |
| Emergency.EmergencyState.FindSafeRoute | src/pages/EmergencyServices.tsx:171-172 | the calculation starts and its timer is queued |
| Emergency.EmergencyState.RouteCalculated | src/pages/EmergencyServices.tsx:175-186 | the calculation ends, the dialog closes, both locations are cleared |
| Emergency.EmergencyState.CloseRouteDialog | src/pages/EmergencyServices.tsx:731-746 | the dialog closes, nothing else changes |
| Welfare.FilterSchemes | src/pages/WelfareSchemes.tsx:95-103 | a scheme is shown iff the search term occurs, ignoring case, in its title, benefits or category and the filter is "all" or its exact category; the result is a subsequence |
| Welfare.EmptySearchShowsAll | src/pages/WelfareSchemes.tsx:95-103 | an empty search with "all" shows every scheme in order |
| Welfare.EmptySearchShowsAllFive | src/pages/WelfareSchemes.tsx:31-103 | on the page that is all five schemes |
| Welfare.SearchIgnoresCase | src/pages/WelfareSchemes.tsx:96-98 | search terms equal up to letter case show the same schemes |
| Welfare.CategoryIsCaseSensitive | src/pages/WelfareSchemes.tsx:96-100 | a filter spelling a category in other case hides the scheme that the same spelling as search finds |
| Welfare.WelfareState.constructor | src/pages/WelfareSchemes.tsx:91-93 | empty search, "all", nothing saved |
| Welfare.WelfareState.Visible | src/pages/WelfareSchemes.tsx:95-103 | the listed schemes are exactly the catalog schemes passing both tests |
| Welfare.WelfareState.SetSearchTerm | src/pages/WelfareSchemes.tsx:156 | sets the search term only |
| Welfare.WelfareState.SetCategoryFilter | src/pages/WelfareSchemes.tsx:162 | sets the category filter only |
| Welfare.WelfareState.SaveScheme | src/pages/WelfareSchemes.tsx:105-119 | a saved id is removed everywhere, an unsaved one appended; its membership flips |
| Lists.Filter | src/pages/WelfareSchemes.tsx:95 | `filter` keeps every copy of each passing element and no other, as a subsequence |
| Lists.RemoveAll | src/components/HealthAssessment.tsx:23 | every occurrence removed; the result is a subsequence that loses only those, so every other element is kept in order |
| Lists.Checked | src/components/HealthAssessment.tsx:19-25 | a checked box appends, an unchecked one removes every occurrence; other ids keep membership |
| Lists.Toggle | src/pages/WelfareSchemes.tsx:105-119 | membership of the id flips, others keep theirs |
| Lists.ToggleTwice | src/pages/WelfareSchemes.tsx:105-113 | toggling twice restores every id's membership |
| Lists.SubsequenceDistinct | src/components/VoiceAssistant.tsx:133 | a filtered repetition-free list has no repetitions |
| Lists.FilterSameTest | src/pages/WelfareSchemes.tsx:95 | filters with tests that agree on the list give the same result |
| Lists.FilterKeepsAll | src/pages/WelfareSchemes.tsx:95 | a filter every element passes keeps the whole list |

## Findings

| source | as written | input that shows it | evidently intended | confidence | as-written member | corrected member |
|---|---|---|---|---|---|---|
| src/pages/EmergencyServices.tsx:74-78 | the save effect writes the contact list only when it is non-empty | add one contact, remove it, reload the page: the removed contact is back | every change, including the removal of the last contact, is written | medium, not executed | Storage.RemovedLastEntryReturns | Storage.SavedEveryChangeRoundTrip |

## Left out

- Speech recognition, speech synthesis and the language selector are left
  out. They are thin wrappers over the browser's Web Speech API.
- localStorage itself is left out. The stored value is a parameter of the
  constructors. Parsing JSON is not modelled: a stored list is given as a
  value. The save effect is modelled as the functions of `Storage`; the
  classes keep no copy of the store.
- Geolocation is left out. Its answer is a parameter: a position or an error.
- Timers are left out. Each one is a method the caller runs when it fires:
  - `CompleteProcessing` for the one-second answer delay;
  - `RouteCalculated` for the route timer;
  - `MapLoaded` for the map placeholder.
- The clock and the calendar are left out. `Date.now()` and the ISO date of a
  new record are parameters.
- Record and contact ids are made from the millisecond clock. Two additions
  within the same millisecond get the same id (`Records.RecordIdsCollide`,
  `Emergency.ContactIdsCollide`), and removing one such contact removes both.
  Since the UI clears the form after each addition, this cannot happen in
  practice, so it is not listed as a finding.
- `toLowerCase` is modelled on ASCII letters only. Full Unicode case mapping
  is left out. The phrase table's scripts (Devanagari, Gujarati, Kannada,
  Gurmukhi, Bengali and the others) have no letter case. What the user types
  is lower-cased too, by symptom detection and by the welfare search. Typed
  non-ASCII cased letters can therefore be lower-cased differently. For
  example, JavaScript lower-cases the Kelvin sign (U+212A) to "k", so
  "WEA\u212ANESS" detects Weakness there but not in the model.
- Regular expressions are not modelled in general. `new RegExp(phrase, 'gi')`
  is modelled as a case-insensitive global literal replacement, because no
  phrase of the table contains a metacharacter.
- Normalizer.TranslateSymptom: two things are not proved over the whole
  103-entry table, because the verifier cannot evaluate the table within its
  resource limit:
  - the worked examples (a Hindi sentence with two symptom words, and the
    Hindi and Marathi "चक्कर" overlap);
  - the absence of feedback between rules.
  The order, firing and global-replacement properties are proved for every
  table instead.
- The phrase table repeats one key, "सर्दी", once among the Hindi rows and
  once among the Marathi rows. A JavaScript object keeps the first position
  and the last value, which is "cold" both times, so the table holds that
  entry once.
- Normalizer.HindiRowsSeparated checks the 20 Hindi rows one by one. The
  rows of the other seven languages are not checked that way, so global
  replacement is proved for them only through the general
  Normalizer.FiredRuleLeavesNoPhrase, under its condition.
- The stale `transcript` captured by the recognition `onEnd` callback is left
  out. It is React closure timing, not logic.
- The urgency badge's capitalisation, all other JSX and CSS rendering, and
  the toasts are left out.
- `applyForScheme` is left out: it only shows a toast.
- The Open Directions link, `callEmergency` (`tel:` navigation) and the
  hospital and pharmacy searches are left out. They are browser navigation.
- Login, registration, the dashboard, the header, the hero, the footer and the
  index page are not part of this model.
