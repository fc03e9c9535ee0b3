// The multilingual normaliser: the phrase table languageSymptomsMap and
// translateSymptom, which rewrites local-language symptom phrases into the
// English terms the symptom detector looks for.

module Normalizer {
  import opened Text

  /** One row of the phrase table: a local-language phrase and its English term. */
  datatype Entry = Entry(phrase: string, term: string)

  /**
   * languageSymptomsMap in the order Object.entries yields it. The key that
   * the object literal repeats keeps the position of its first occurrence
   * (Hindi) and the value of its last one (Marathi); both are "cold". The
   * rows are grouped by language, in the order the object lists them.
   */
  const Lexicon: seq<Entry> :=
    HindiRows + BengaliRows + TamilRows + TeluguRows + MarathiRows + GujaratiRows + KannadaRows + PunjabiRows

  const HindiRows: seq<Entry> := [
    Entry("सिरदर्द", "headache"),
    Entry("बुखार", "fever"),
    Entry("खांसी", "cough"),
    Entry("जुकाम", "cold"),
    Entry("उल्टी", "vomiting"),
    Entry("दस्त", "diarrhea"),
    Entry("थकान", "fatigue"),
    Entry("चक्कर", "dizziness"),
    Entry("पेट दर्द", "stomach ache"),
    Entry("सांस की तकलीफ", "breathing difficulty"),
    Entry("सर्दी", "cold"),
    Entry("गले में खराश", "sore throat"),
    Entry("कमजोरी", "weakness"),
    Entry("जोड़ों का दर्द", "joint pain"),
    Entry("मांसपेशियों में दर्द", "muscle pain"),
    Entry("नाक बहना", "runny nose"),
    Entry("कंधे का दर्द", "shoulder pain"),
    Entry("पीठ दर्द", "back pain"),
    Entry("आंखों में जलन", "eye irritation"),
    Entry("कमर दर्द", "lower back pain")
  ]

  const BengaliRows: seq<Entry> := [
    Entry("মাথাব্যথা", "headache"),
    Entry("জ্বর", "fever"),
    Entry("কাশি", "cough"),
    Entry("সর্দি", "cold"),
    Entry("বমি", "vomiting"),
    Entry("ডায়রিয়া", "diarrhea"),
    Entry("ক্লান্তি", "fatigue"),
    Entry("মাথা ঘোরা", "dizziness"),
    Entry("পেট ব্যথা", "stomach ache"),
    Entry("শ্বাস নিতে কষ্ট", "breathing difficulty"),
    Entry("গলা ব্যথা", "sore throat"),
    Entry("দুর্বলতা", "weakness")
  ]

  const TamilRows: seq<Entry> := [
    Entry("தலைவலி", "headache"),
    Entry("காய்ச்சல்", "fever"),
    Entry("இருமல்", "cough"),
    Entry("சளி", "cold"),
    Entry("வாந்தி", "vomiting"),
    Entry("வயிற்றுப்போக்கு", "diarrhea"),
    Entry("சோர்வு", "fatigue"),
    Entry("தலைசுற்றல்", "dizziness"),
    Entry("வயிற்று வலி", "stomach ache"),
    Entry("மூச்சுத் திணறல்", "breathing difficulty"),
    Entry("தொண்டை வலி", "sore throat"),
    Entry("பலவீனம்", "weakness")
  ]

  const TeluguRows: seq<Entry> := [
    Entry("తలనొప్పి", "headache"),
    Entry("జ్వరం", "fever"),
    Entry("దగ్గు", "cough"),
    Entry("జలుబు", "cold"),
    Entry("వాంతి", "vomiting"),
    Entry("విరేచనాలు", "diarrhea"),
    Entry("అలసట", "fatigue"),
    Entry("తలతిరుగుడు", "dizziness"),
    Entry("కడుపు నొప్పి", "stomach ache"),
    Entry("శ్వాస తీసుకోవడంలో ఇబ్బంది", "breathing difficulty"),
    Entry("గొంతు నొప్పి", "sore throat"),
    Entry("బలహీనత", "weakness")
  ]

  const MarathiRows: seq<Entry> := [
    Entry("डोकेदुखी", "headache"),
    Entry("ताप", "fever"),
    Entry("खोकला", "cough"),
    Entry("उलटी", "vomiting"),
    Entry("अतिसार", "diarrhea"),
    Entry("थकवा", "fatigue"),
    Entry("चक्कर येणे", "dizziness"),
    Entry("पोटदुखी", "stomach ache"),
    Entry("श्वास घेण्यास त्रास", "breathing difficulty"),
    Entry("घसा दुखणे", "sore throat"),
    Entry("अशक्तपणा", "weakness")
  ]

  const GujaratiRows: seq<Entry> := [
    Entry("માથાનો દુખાવો", "headache"),
    Entry("તાવ", "fever"),
    Entry("ખાંસી", "cough"),
    Entry("શરદી", "cold"),
    Entry("ઉલટી", "vomiting"),
    Entry("ઝાડા", "diarrhea"),
    Entry("થાક", "fatigue"),
    Entry("ચક્કર", "dizziness"),
    Entry("પેટમાં દુખાવો", "stomach ache"),
    Entry("શ્વાસ લેવામાં તકલીફ", "breathing difficulty"),
    Entry("ગળામાં દુખાવો", "sore throat"),
    Entry("નબળાઈ", "weakness")
  ]

  const KannadaRows: seq<Entry> := [
    Entry("ತಲೆನೋವು", "headache"),
    Entry("ಜ್ವರ", "fever"),
    Entry("ಕೆಮ್ಮು", "cough"),
    Entry("ಶೀತ", "cold"),
    Entry("ವಾಂತಿ", "vomiting"),
    Entry("ಅತಿಸಾರ", "diarrhea"),
    Entry("ಆಯಾಸ", "fatigue"),
    Entry("ತಲೆ ತಿರುಗುವಿಕೆ", "dizziness"),
    Entry("ಹೊಟ್ಟೆ ನೋವು", "stomach ache"),
    Entry("ಉಸಿರಾಟದ ತೊಂದರೆ", "breathing difficulty"),
    Entry("ಗಂಟಲು ನೋವು", "sore throat"),
    Entry("ದುರ್ಬಲತೆ", "weakness")
  ]

  const PunjabiRows: seq<Entry> := [
    Entry("ਸਿਰ ਦਰਦ", "headache"),
    Entry("ਬੁਖਾਰ", "fever"),
    Entry("ਖੰਘ", "cough"),
    Entry("ਜ਼ੁਕਾਮ", "cold"),
    Entry("ਉਲਟੀ", "vomiting"),
    Entry("ਦਸਤ", "diarrhea"),
    Entry("ਥਕਾਵਟ", "fatigue"),
    Entry("ਚੱਕਰ", "dizziness"),
    Entry("ਪੇਟ ਦਰਦ", "stomach ache"),
    Entry("ਸਾਹ ਲੈਣ ਵਿੱਚ ਤਕਲੀਫ", "breathing difficulty"),
    Entry("ਗਲੇ ਦੀ ਖਰਾਬੀ", "sore throat"),
    Entry("ਕਮਜ਼ੋਰੀ", "weakness")
  ]

  /**
   * One step of the forEach: the rule fires when its lower-cased phrase occurs
   * in the lower-cased ORIGINAL input, and then replaces every occurrence of
   * the phrase, in any case, in the text translated so far.
   */
  function ApplyRule(e: Entry, lowerText: string, acc: string): string {
    if Fires(e, lowerText) then ReplaceAllIgnoreCase(acc, e.phrase, e.term) else acc
  }

  predicate Fires(e: Entry, lowerText: string) {
    Contains(lowerText, Lower(e.phrase))
  }

  /** The rules applied left to right, each to the result of the previous ones. */
  function ApplyRules(rules: seq<Entry>, lowerText: string, acc: string): string {
    if rules == [] then acc else ApplyRules(rules[1..], lowerText, ApplyRule(rules[0], lowerText, acc))
  }

  /** What translateSymptom returns with a given table of phrases. */
  function TranslatedWith(lexicon: seq<Entry>, text: string): string {
    ApplyRules(lexicon, Lower(text), text)
  }

  /** What translateSymptom returns. */
  function Translated(text: string): string {
    TranslatedWith(Lexicon, text)
  }

  /** The forEach of translateSymptom over a table of phrases, as a loop over its entries. */
  method TranslateWith(lexicon: seq<Entry>, text: string) returns (translated: string)
    ensures translated == TranslatedWith(lexicon, text)
  {
    var lowerText := Lower(text);
    translated := text;
    var i := 0;
    while i < |lexicon|
      invariant 0 <= i <= |lexicon|
      invariant ApplyRules(lexicon[i..], lowerText, translated) == TranslatedWith(lexicon, text)
    {
      var e := lexicon[i];
      if Contains(lowerText, Lower(e.phrase)) {
        translated := ReplaceAllIgnoreCase(translated, e.phrase, e.term);
      }
      assert lexicon[i..][1..] == lexicon[i + 1..];
      i := i + 1;
    }
  }

  /** translateSymptom: the loop over the built-in table. */
  method TranslateSymptom(text: string) returns (translated: string)
    ensures translated == Translated(text)
  {
    translated := TranslateWith(Lexicon, text);
  }

  /** Running two tables one after the other is running their concatenation. */
  lemma {:induction false} ApplyRulesAppend(a: seq<Entry>, b: seq<Entry>, lowerText: string, acc: string)
    ensures ApplyRules(a + b, lowerText, acc) == ApplyRules(b, lowerText, ApplyRules(a, lowerText, acc))
  {
    if a == [] {
      assert a + b == b;
    } else {
      assert (a + b)[1..] == a[1..] + b;
      ApplyRulesAppend(a[1..], b, lowerText, ApplyRule(a[0], lowerText, acc));
    }
  }

  /** Rules that do not fire on the input leave the text as it is. */
  lemma {:induction false} ApplyRulesNoneFire(rules: seq<Entry>, lowerText: string, acc: string)
    requires forall k :: 0 <= k < |rules| ==> !Fires(rules[k], lowerText)
    ensures ApplyRules(rules, lowerText, acc) == acc
  {
    if rules != [] {
      ApplyRulesNoneFire(rules[1..], lowerText, acc);
    }
  }

  /**
   * Whether a rule fires is decided on the original input alone: a rule fires
   * even when an earlier replacement has already rewritten its phrase, and a
   * rule whose phrase appears only through an earlier replacement does not.
   */
  lemma {:induction false} ApplyRulesFiringSet(rules: seq<Entry>, lowerText: string, acc: string)
    ensures ApplyRules(rules, lowerText, acc) == ApplyAll(FiringRules(rules, lowerText), acc)
  {
    if rules != [] {
      ApplyRulesFiringSet(rules[1..], lowerText, ApplyRule(rules[0], lowerText, acc));
    }
  }

  /** The rules of a table that fire on the given lower-cased input, in table order. */
  function FiringRules(rules: seq<Entry>, lowerText: string): (fired: seq<Entry>)
    ensures forall e :: e in fired <==> e in rules && Fires(e, lowerText)
    ensures |fired| <= |rules|
  {
    if rules == [] then []
    else if Fires(rules[0], lowerText) then [rules[0]] + FiringRules(rules[1..], lowerText)
    else FiringRules(rules[1..], lowerText)
  }

  /** Every rule of the sequence applied unconditionally, left to right. */
  function ApplyAll(rules: seq<Entry>, acc: string): string {
    if rules == [] then acc else ApplyAll(rules[1..], ReplaceAllIgnoreCase(acc, rules[0].phrase, rules[0].term))
  }

  /** An input in which no phrase of the table occurs, in any case, is returned unchanged. */
  lemma TranslatedUnchanged(text: string)
    requires forall k :: 0 <= k < |Lexicon| ==> !Contains(Lower(text), Lower(Lexicon[k].phrase))
    ensures Translated(text) == text
  {
    ApplyRulesNoneFire(Lexicon, Lower(text), text);
  }

  /**
   * A rule the replacement cannot feed back into: the phrase and the term are
   * non-empty, the term holds no lower-cased first character of the phrase and
   * the phrase no lower-cased first character of the term.
   */
  predicate Separated(e: Entry) {
    e.phrase != [] && e.term != [] &&
    Lower(e.phrase)[0] !in Lower(e.term) && Lower(e.term)[0] !in Lower(e.phrase)
  }

  /** A phrase written in an Indic script, possibly with spaces between its words. */
  predicate NativeScript(phrase: string) {
    phrase != [] && phrase[0] as int >= 0x80 &&
    forall i :: 0 <= i < |phrase| ==> phrase[i] as int >= 0x80 || phrase[i] == ' '
  }

  /** An English term: ASCII only, starting with a lower-case letter. */
  predicate EnglishTerm(term: string) {
    term != [] && 'a' <= term[0] <= 'z' &&
    forall i :: 0 <= i < |term| ==> term[i] as int < 0x80
  }

  /** A row pairing a native-script phrase with an English term is separated. */
  lemma NativeRowSeparated(e: Entry)
    requires NativeScript(e.phrase) && EnglishTerm(e.term)
    ensures Separated(e)
  {
    LowerIndex(e.phrase);
    LowerIndex(e.term);
    assert Lower(e.phrase)[0] == e.phrase[0];
    assert Lower(e.term)[0] == e.term[0];
    forall i | 0 <= i < |e.term|
      ensures Lower(e.term)[i] as int < 0x80
    {
    }
    forall i | 0 <= i < |e.phrase|
      ensures Lower(e.phrase)[i] == e.phrase[i]
    {
    }
  }

  /**
   * Every Hindi row is separated, so when one fires no occurrence of its
   * phrase is left (FiredRuleLeavesNoPhrase).
   */
  lemma HindiRowsSeparated()
    ensures forall k :: 0 <= k < |HindiRows| ==> Lexicon[k] == HindiRows[k] && Separated(Lexicon[k])
  {
    HindiRowsSeparatedA();
    HindiRowsSeparatedB();
    HindiRowsSeparatedC();
    HindiRowsSeparatedD();
    HindiRowsSeparatedE();
    HindiRowsSeparatedF();
  }

  lemma HindiRowsSeparatedA()
    ensures forall k :: 0 <= k < 5 ==> Separated(HindiRows[k])
  {
    forall k | 0 <= k < 5
      ensures Separated(HindiRows[k])
    {
      NativeRowSeparated(HindiRows[k]);
    }
  }

  lemma HindiRowsSeparatedB()
    ensures forall k :: 5 <= k < 10 ==> Separated(HindiRows[k])
  {
    forall k | 5 <= k < 10
      ensures Separated(HindiRows[k])
    {
      NativeRowSeparated(HindiRows[k]);
    }
  }

  lemma HindiRowsSeparatedC()
    ensures forall k :: 10 <= k < 13 ==> Separated(HindiRows[k])
  {
    forall k | 10 <= k < 13
      ensures Separated(HindiRows[k])
    {
      NativeRowSeparated(HindiRows[k]);
    }
  }

  lemma HindiRowsSeparatedD()
    ensures forall k :: 13 <= k < 16 ==> Separated(HindiRows[k])
  {
    forall k | 13 <= k < 16
      ensures Separated(HindiRows[k])
    {
      NativeRowSeparated(HindiRows[k]);
    }
  }

  lemma HindiRowsSeparatedE()
    ensures forall k :: 16 <= k < 18 ==> Separated(HindiRows[k])
  {
    forall k | 16 <= k < 18
      ensures Separated(HindiRows[k])
    {
      NativeRowSeparated(HindiRows[k]);
    }
  }

  lemma HindiRowsSeparatedF()
    ensures forall k :: 18 <= k < 20 ==> Separated(HindiRows[k])
  {
    forall k | 18 <= k < 20
      ensures Separated(HindiRows[k])
    {
      NativeRowSeparated(HindiRows[k]);
    }
  }

  /**
   * When a separated rule fires, no occurrence of its phrase, in any case, is
   * left in the text it produces.
   */
  lemma FiredRuleLeavesNoPhrase(e: Entry, lowerText: string, acc: string)
    requires Separated(e)
    requires Fires(e, lowerText)
    ensures !Contains(Lower(ApplyRule(e, lowerText, acc)), Lower(e.phrase))
  {
    ReplaceIgnoreCaseLeavesNone(acc, e.phrase, e.term);
  }

  /** The replacement is global for every Hindi row of the table. */
  lemma HindiRuleLeavesNoPhrase(k: nat, lowerText: string, acc: string)
    requires k < |HindiRows| && Fires(Lexicon[k], lowerText)
    ensures !Contains(Lower(ApplyRule(Lexicon[k], lowerText, acc)), Lower(Lexicon[k].phrase))
  {
    HindiRowsSeparated();
    FiredRuleLeavesNoPhrase(Lexicon[k], lowerText, acc);
  }
}
