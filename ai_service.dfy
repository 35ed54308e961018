/** The AI service of the server (server/services/aiService.js): keyword
    severity classification of reported symptoms, the advice table per
    severity, the canned answers used when the language model cannot be
    reached, the prompt built from the patient context, and the
    "never fails, falls back" behaviour of a chat request. The language-model
    provider is an oracle: given the prompt it completes or fails. */
module AiService {
  import opened Js
  import opened Text

  datatype Severity = Mild | Moderate | Severe

  // ---------------------------------------------------------------------
  // Severity classification (assessSymptomSeverity)

  const SevereMarkers: seq<string> := [
    "severe pain", "difficulty breathing", "chest pain", "unconsciousness",
    "severe bleeding", "high fever", "severe headache", "confusion"
  ]

  const ModerateMarkers: seq<string> := [
    "moderate pain", "nausea", "vomiting", "diarrhea", "fatigue",
    "loss of appetite", "mild fever", "cough"
  ]

  /** `markers.some(m => text.includes(m))` */
  function MentionsAny(text: string, markers: seq<string>): (r: bool)
    ensures r <==> exists j :: 0 <= j < |markers| && Includes(text, markers[j])
  {
    if markers == [] then false
    else
      var rest := MentionsAny(text, markers[1..]);
      assert forall j :: 1 <= j < |markers| ==> markers[j] == markers[1..][j - 1];
      Includes(text, markers[0]) || rest
  }

  /** The lower-cased `symptom` contains `marker`. */
  predicate Mentions(symptom: string, marker: string) {
    Includes(Lower(symptom), marker)
  }

  /** `symptoms.some(s => markers.some(m => s.toLowerCase().includes(m)))` */
  function AnySymptomMentions(symptoms: seq<string>, markers: seq<string>): (r: bool)
    ensures r <==> exists i, j :: 0 <= i < |symptoms| && 0 <= j < |markers| && Mentions(symptoms[i], markers[j])
  {
    if symptoms == [] then false
    else
      var rest := AnySymptomMentions(symptoms[1..], markers);
      assert forall i :: 1 <= i < |symptoms| ==> symptoms[i] == symptoms[1..][i - 1];
      MentionsAny(Lower(symptoms[0]), markers) || rest
  }

  /** A severe marker anywhere wins; otherwise a moderate marker anywhere
      gives moderate; otherwise (also for no symptoms at all) mild. */
  function AssessSymptomSeverity(symptoms: seq<string>): (r: Severity)
    ensures r == Severe <==>
      exists i, j :: 0 <= i < |symptoms| && 0 <= j < |SevereMarkers| && Mentions(symptoms[i], SevereMarkers[j])
    ensures r == Moderate <==>
      (forall i, j :: 0 <= i < |symptoms| && 0 <= j < |SevereMarkers| ==> !Mentions(symptoms[i], SevereMarkers[j]))
      && exists i, j :: 0 <= i < |symptoms| && 0 <= j < |ModerateMarkers| && Mentions(symptoms[i], ModerateMarkers[j])
    ensures r == Mild <==>
      (forall i, j :: 0 <= i < |symptoms| && 0 <= j < |SevereMarkers| ==> !Mentions(symptoms[i], SevereMarkers[j]))
      && (forall i, j :: 0 <= i < |symptoms| && 0 <= j < |ModerateMarkers| ==> !Mentions(symptoms[i], ModerateMarkers[j]))
  {
    var hasSevere := AnySymptomMentions(symptoms, SevereMarkers);
    var hasModerate := AnySymptomMentions(symptoms, ModerateMarkers);
    if hasSevere then Severe
    else if hasModerate then Moderate
    else Mild
  }

  /** An empty symptom list is mild: no marker can match. */
  lemma NoSymptomsIsMild()
    ensures AssessSymptomSeverity([]) == Mild
  {
  }

  /** No severe marker occurs in "mild cough": the longer markers do not
      fit, and the shorter ones have no place to start. */
  lemma MildCoughNotSevere()
    ensures forall j :: 0 <= j < |SevereMarkers| ==> !Mentions("mild cough", SevereMarkers[j])
  {
    var s := "mild cough";
    assert Lower(s) == s;
    NotIncludedWithoutStart(s, "chest pain");
    NotIncludedWithoutStart(s, "high fever");
    NotIncludedWithoutStart(s, "confusion");
    forall j | 0 <= j < |SevereMarkers| ensures !Includes(s, SevereMarkers[j]) {
      if j != 2 && j != 5 && j != 7 {
        assert |SevereMarkers[j]| > |s|;
      }
    }
  }

  /** Matching is on substrings: "cough" inside "mild cough" makes it moderate. */
  lemma MildCoughIsModerate()
    ensures AssessSymptomSeverity(["mild cough"]) == Moderate
  {
    var s := "mild cough";
    assert Lower(s) == s;
    assert OccursAt(Lower(s), "cough", 5);
    assert Mentions(s, ModerateMarkers[7]);
    MildCoughNotSevere();
  }

  /** Matching ignores the case of ASCII letters in the symptom. */
  lemma ShoutedHeadacheIsSevere()
    ensures AssessSymptomSeverity(["SEVERE HEADACHE today"]) == Severe
  {
    var s := "SEVERE HEADACHE today";
    assert Lower(s) == "severe headache today";
    assert OccursAt(Lower(s), "severe headache", 0);
    assert Mentions(s, SevereMarkers[6]);
  }

  // ---------------------------------------------------------------------
  // Recommendations (generateSymptomRecommendations)

  const GoNow := "Contact your healthcare provider immediately or go to the emergency room"
  const CallWithinADay := "Contact your healthcare provider within 24 hours"
  const MonitorClosely := "Monitor symptoms closely"
  const KeepMonitoring := "Continue monitoring symptoms"
  const CallIfWorse := "Contact healthcare provider if symptoms worsen or persist"

  /** The advice list for a severity, most urgent first. */
  function RecommendationsFor(severity: Severity): seq<string> {
    match severity
    case Severe => [GoNow]
    case Moderate => [CallWithinADay, MonitorClosely]
    case Mild => [KeepMonitoring, CallIfWorse]
  }

  /** Builds the advice list by pushing onto an empty list, as the service does. */
  method GenerateSymptomRecommendations(symptoms: seq<string>) returns (recommendations: seq<string>)
    ensures recommendations == RecommendationsFor(AssessSymptomSeverity(symptoms))
    ensures AssessSymptomSeverity(symptoms) == Severe ==> recommendations == [GoNow]
    ensures AssessSymptomSeverity(symptoms) == Moderate ==> recommendations == [CallWithinADay, MonitorClosely]
    ensures AssessSymptomSeverity(symptoms) == Mild ==> recommendations == [KeepMonitoring, CallIfWorse]
    ensures 1 <= |recommendations| <= 2
  {
    recommendations := [];
    if AssessSymptomSeverity(symptoms) == Severe {
      recommendations := recommendations + [GoNow];
    } else if AssessSymptomSeverity(symptoms) == Moderate {
      recommendations := recommendations + [CallWithinADay];
      recommendations := recommendations + [MonitorClosely];
    } else {
      recommendations := recommendations + [KeepMonitoring];
      recommendations := recommendations + [CallIfWorse];
    }
  }

  /** The advice is one item exactly for the severe tier, whose single item
      sends the patient to the emergency room; the tiers' lists share nothing. */
  lemma RecommendationsDistinguishTiers(a: Severity, b: Severity)
    ensures |RecommendationsFor(a)| == 1 <==> a == Severe
    ensures RecommendationsFor(a)[0] == GoNow <==> a == Severe
    ensures RecommendationsFor(a) == RecommendationsFor(b) <==> a == b
  {
    if a != b {
      assert RecommendationsFor(a)[0] != RecommendationsFor(b)[0];
    }
  }

  // ---------------------------------------------------------------------
  // Canned answers (getFallbackResponse)

  const SymptomGuidance :=
    "I understand you're experiencing symptoms. While I can't provide specific medical advice, I recommend:\n"
    + "      \n"
    + "1. Monitor your symptoms closely\n"
    + "2. Contact your healthcare provider if symptoms worsen\n"
    + "3. Keep a symptom diary to share with your medical team\n"
    + "4. Don't hesitate to seek emergency care for severe symptoms\n"
    + "\n"
    + "Remember: I'm here to support you, but always consult with your healthcare providers for medical decisions."

  const TreatmentGuidance :=
    "Regarding your treatment questions, I recommend:\n"
    + "\n"
    + "1. Discuss all treatment options with your oncologist\n"
    + "2. Ask about potential side effects and how to manage them\n"
    + "3. Follow your treatment plan as prescribed\n"
    + "4. Keep track of any side effects you experience\n"
    + "5. Don't hesitate to ask questions during appointments\n"
    + "\n"
    + "Your healthcare team is the best source for treatment-specific guidance."

  const AppointmentGuidance :=
    "For your upcoming appointment, I suggest:\n"
    + "\n"
    + "1. Write down your questions beforehand\n"
    + "2. Bring a list of current symptoms\n"
    + "3. Have your medication list ready\n"
    + "4. Consider bringing a family member or friend\n"
    + "5. Don't be afraid to ask for clarification\n"
    + "\n"
    + "Preparation helps make the most of your time with your healthcare provider."

  const GeneralSupport :=
    "Thank you for reaching out. I'm here to support you on your health journey. \n"
    + "\n"
    + "For the best medical guidance, please:\n"
    + "- Consult with your healthcare providers\n"
    + "- Keep them informed about any changes in your condition\n"
    + "- Don't hesitate to ask questions during appointments\n"
    + "- Trust your instincts - if something doesn't feel right, contact your medical team\n"
    + "\n"
    + "I'm here to listen and support you, but your healthcare providers are your best resource for medical decisions."

  predicate AsksAboutSymptoms(message: string) {
    var m := Lower(message);
    Includes(m, "symptom") || Includes(m, "pain") || Includes(m, "feel")
  }

  predicate AsksAboutTreatment(message: string) {
    var m := Lower(message);
    Includes(m, "treatment") || Includes(m, "therapy") || Includes(m, "medication")
  }

  predicate AsksAboutAppointments(message: string) {
    var m := Lower(message);
    Includes(m, "appointment") || Includes(m, "doctor") || Includes(m, "visit")
  }

  /** The canned answers have different lengths, so no two are alike. */
  lemma CannedAnswerLengths()
    ensures |SymptomGuidance| == 423 && |TreatmentGuidance| == 384
    ensures |AppointmentGuidance| == 321 && |GeneralSupport| == 465
  {
    SymptomGuidanceLength();
    TreatmentGuidanceLength();
    AppointmentGuidanceLength();
    GeneralSupportLength();
  }

  lemma SymptomGuidanceLength() ensures |SymptomGuidance| == 423 {}
  lemma TreatmentGuidanceLength() ensures |TreatmentGuidance| == 384 {}
  lemma AppointmentGuidanceLength() ensures |AppointmentGuidance| == 321 {}
  lemma GeneralSupportLength() ensures |GeneralSupport| == 465 {}

  /** The canned answer chosen by keyword, first rule first; the patient
      context the service also passes is not consulted. */
  function GetFallbackResponse(userMessage: string): (r: string)
    ensures r == SymptomGuidance <==> AsksAboutSymptoms(userMessage)
    ensures r == TreatmentGuidance <==> !AsksAboutSymptoms(userMessage) && AsksAboutTreatment(userMessage)
    ensures r == AppointmentGuidance <==>
      !AsksAboutSymptoms(userMessage) && !AsksAboutTreatment(userMessage) && AsksAboutAppointments(userMessage)
    ensures r == GeneralSupport <==>
      !AsksAboutSymptoms(userMessage) && !AsksAboutTreatment(userMessage) && !AsksAboutAppointments(userMessage)
    ensures r != ""
  {
    CannedAnswerLengths();
    if AsksAboutSymptoms(userMessage) then SymptomGuidance
    else if AsksAboutTreatment(userMessage) then TreatmentGuidance
    else if AsksAboutAppointments(userMessage) then AppointmentGuidance
    else GeneralSupport
  }

  /** "I have severe pain" gets the symptom answer through the word "pain". */
  lemma SeverePainGetsSymptomGuidance()
    ensures GetFallbackResponse("I have severe pain") == SymptomGuidance
  {
    SeverePainAsksAboutSymptoms();
  }

  /** "pain" occurs in the lower-cased message. */
  lemma SeverePainAsksAboutSymptoms()
    ensures AsksAboutSymptoms("I have severe pain")
  {
    var m := "I have severe pain";
    assert Lower(m) == "i have severe pain";
    assert OccursAt(Lower(m), "pain", 14);
  }


  // ---------------------------------------------------------------------
  // Prompt building (buildContextualMessage)

  /** The optional fields of the patient context a caller may attach. */
  datatype PatientContext = PatientContext(
    cancerType: Option<string>,
    treatmentStage: Option<string>,
    currentTreatments: Option<seq<string>>,
    symptoms: Option<seq<string>>)

  const NoContext := PatientContext(None, None, None, None)

  /** A text field is used only when present and non-empty (truthy). */
  predicate Given(field: Option<string>) {
    field.Some? && field.value != ""
  }

  /** A list field is used only when present and non-empty. */
  predicate Listed(field: Option<seq<string>>) {
    field.Some? && |field.value| > 0
  }

  /** Some field of the context contributes to the prompt. */
  predicate Informative(ctx: PatientContext) {
    Given(ctx.cancerType) || Given(ctx.treatmentStage) || Listed(ctx.currentTreatments) || Listed(ctx.symptoms)
  }

  function DiagnosisClause(ctx: PatientContext): string {
    if Given(ctx.cancerType) then "\n\nPatient has been diagnosed with " + ctx.cancerType.value + "." else ""
  }

  function StageClause(ctx: PatientContext): string {
    if Given(ctx.treatmentStage) then "\n\nCurrent treatment stage: " + ctx.treatmentStage.value + "." else ""
  }

  function TreatmentsClause(ctx: PatientContext): string {
    if Listed(ctx.currentTreatments) then "\n\nCurrent treatments: " + Join(ctx.currentTreatments.value, ", ") + "." else ""
  }

  function SymptomsClause(ctx: PatientContext): string {
    if Listed(ctx.symptoms) then "\n\nRecent symptoms: " + Join(ctx.symptoms.value, ", ") + "." else ""
  }

  /** The message sent to the provider: the user's words, then one clause per
      usable context field in a fixed order. */
  function ContextualMessage(userMessage: string, ctx: PatientContext): string {
    userMessage + DiagnosisClause(ctx) + StageClause(ctx) + TreatmentsClause(ctx) + SymptomsClause(ctx)
  }

  /** Builds the prompt by successive appends to a local, as the service does. */
  method BuildContextualMessage(userMessage: string, ctx: PatientContext) returns (contextualMessage: string)
    ensures contextualMessage == ContextualMessage(userMessage, ctx)
  {
    contextualMessage := userMessage;
    if Given(ctx.cancerType) {
      contextualMessage := contextualMessage + ("\n\nPatient has been diagnosed with " + ctx.cancerType.value + ".");
    }
    assert contextualMessage == userMessage + DiagnosisClause(ctx);
    if Given(ctx.treatmentStage) {
      contextualMessage := contextualMessage + ("\n\nCurrent treatment stage: " + ctx.treatmentStage.value + ".");
    }
    assert contextualMessage == userMessage + DiagnosisClause(ctx) + StageClause(ctx);
    if ctx.currentTreatments.Some? && |ctx.currentTreatments.value| > 0 {
      contextualMessage := contextualMessage + ("\n\nCurrent treatments: " + Join(ctx.currentTreatments.value, ", ") + ".");
    }
    assert contextualMessage == userMessage + DiagnosisClause(ctx) + StageClause(ctx) + TreatmentsClause(ctx);
    if ctx.symptoms.Some? && |ctx.symptoms.value| > 0 {
      contextualMessage := contextualMessage + ("\n\nRecent symptoms: " + Join(ctx.symptoms.value, ", ") + ".");
    }
  }

  /** The prompt starts with the user's message, and is that message alone
      exactly when no context field is usable. */
  lemma ContextualMessageExtends(userMessage: string, ctx: PatientContext)
    ensures userMessage <= ContextualMessage(userMessage, ctx)
    ensures ContextualMessage(userMessage, ctx) == userMessage <==> !Informative(ctx)
  {
    var d, st, t, sy := DiagnosisClause(ctx), StageClause(ctx), TreatmentsClause(ctx), SymptomsClause(ctx);
    assert |d| > 0 <==> Given(ctx.cancerType);
    assert |st| > 0 <==> Given(ctx.treatmentStage);
    assert |t| > 0 <==> Listed(ctx.currentTreatments);
    assert |sy| > 0 <==> Listed(ctx.symptoms);
    var r1 := userMessage + d;
    var r2 := r1 + st;
    var r3 := r2 + t;
    var r := r3 + sy;
    assert r == ContextualMessage(userMessage, ctx);
    assert userMessage <= r1 && r1 <= r2 && r2 <= r3 && r3 <= r;
    assert |r| == |userMessage| + |d| + |st| + |t| + |sy|;
  }

  /** A call without a patient context gets the default `{}`, which adds
      nothing to the user's message. */
  lemma DefaultContextAddsNothing(userMessage: string)
    ensures ContextualMessage(userMessage, NoContext) == userMessage
  {
    ContextualMessageExtends(userMessage, NoContext);
  }

  /** With only a cancer type and a stage, exactly those two clauses follow
      the message, diagnosis first; nothing stands in for the absent lists. */
  lemma DiagnosisThenStage(userMessage: string, cancerType: string, stage: string)
    requires cancerType != "" && stage != ""
    ensures ContextualMessage(userMessage, PatientContext(Some(cancerType), Some(stage), None, Some([])))
      == userMessage + "\n\nPatient has been diagnosed with " + cancerType + "."
         + "\n\nCurrent treatment stage: " + stage + "."
  {
    var ctx := PatientContext(Some(cancerType), Some(stage), None, Some([]));
    var d := "\n\nPatient has been diagnosed with " + cancerType + ".";
    var st := "\n\nCurrent treatment stage: " + stage + ".";
    assert DiagnosisClause(ctx) == d && StageClause(ctx) == st;
    assert TreatmentsClause(ctx) == [] && SymptomsClause(ctx) == [];
    assert ContextualMessage(userMessage, ctx) == userMessage + d + st;
  }

  // ---------------------------------------------------------------------
  // The provider call and its fallback (generateResponse, analyzeSymptoms)

  /** What the language-model provider does with a prompt. */
  datatype Completion = Completed(text: string) | Failed(reason: string)

  /** The placeholder key shipped in the example environment file. */
  const PlaceholderKey := "your-openai-api-key-here"

  /** The answer to a chat message: the provider's text when the service is
      available and the call completes, the canned answer otherwise. */
  function Answer(available: bool, userMessage: string, ctx: PatientContext, provider: string -> Completion): string {
    if !available then GetFallbackResponse(userMessage)
    else match provider(ContextualMessage(userMessage, ctx))
      case Completed(text) => text
      case Failed(_) => GetFallbackResponse(userMessage)
  }

  /** The prompt analyzeSymptoms asks the provider to answer. */
  const PromptIntro := "Please analyze these symptoms and provide guidance: "
  const PromptCancer := ". \n         Consider the patient's cancer type ("
  const PromptTreatments := ") \n         and current treatments ("
  const PromptClosing :=
    "). \n         Provide severity assessment and recommendations for when to contact healthcare providers."

  function AnalysisPrompt(symptoms: seq<string>, ctx: PatientContext): string {
    var cancer := if Given(ctx.cancerType) then ctx.cancerType.value else "not specified";
    var joined := if ctx.currentTreatments.Some? then Join(ctx.currentTreatments.value, ", ") else "";
    var treatments := if joined != "" then joined else "none specified";
    PromptIntro + Join(symptoms, ", ") + PromptCancer + cancer + PromptTreatments + treatments + PromptClosing
  }

  datatype SymptomAnalysis = SymptomAnalysis(analysis: string, severity: Severity, recommendations: seq<string>)

  class AIService {
    /** Whether a usable provider key was configured; fixed at construction. */
    const isAvailable: bool

    constructor (apiKey: Option<string>)
      ensures isAvailable <==> apiKey.Some? && apiKey.value != "" && apiKey.value != PlaceholderKey
    {
      isAvailable := apiKey.Some? && apiKey.value != "" && apiKey.value != PlaceholderKey;
    }

    /** Never fails: when the service is unavailable or the provider call
        fails, the canned answer for the message is returned instead.
        `queried` tells whether the provider was called. */
    method GenerateResponse(userMessage: string, ctx: PatientContext, provider: string -> Completion)
      returns (response: string, queried: bool)
      ensures queried == isAvailable
      ensures !isAvailable ==> response == GetFallbackResponse(userMessage)
      ensures isAvailable && provider(ContextualMessage(userMessage, ctx)).Failed? ==>
        response == GetFallbackResponse(userMessage)
      ensures isAvailable && provider(ContextualMessage(userMessage, ctx)).Completed? ==>
        response == provider(ContextualMessage(userMessage, ctx)).text
      ensures response == Answer(isAvailable, userMessage, ctx, provider)
    {
      if !isAvailable {
        return GetFallbackResponse(userMessage), false;
      }
      var prompt := BuildContextualMessage(userMessage, ctx);
      var completion := provider(prompt);
      queried := true;
      match completion {
        case Completed(text) => response := text;
        case Failed(_) => response := GetFallbackResponse(userMessage);
      }
    }

    /** The narrative comes from the provider (or the fallback); severity and
        advice are computed from the symptoms alone. */
    method AnalyzeSymptoms(symptoms: seq<string>, ctx: PatientContext, provider: string -> Completion)
      returns (result: SymptomAnalysis, queried: bool)
      ensures queried == isAvailable
      ensures result.analysis == Answer(isAvailable, AnalysisPrompt(symptoms, ctx), ctx, provider)
      ensures result.severity == AssessSymptomSeverity(symptoms)
      ensures result.recommendations == RecommendationsFor(AssessSymptomSeverity(symptoms))
    {
      var narrative;
      narrative, queried := GenerateResponse(AnalysisPrompt(symptoms, ctx), ctx, provider);
      var recommendations := GenerateSymptomRecommendations(symptoms);
      result := SymptomAnalysis(narrative, AssessSymptomSeverity(symptoms), recommendations);
    }
  }

  /** Whatever the provider does, an available service answers with the
      provider's text or with the canned answer, never with anything else. */
  lemma AnswerIsProviderTextOrFallback(available: bool, userMessage: string, ctx: PatientContext, provider: string -> Completion)
    ensures var a := Answer(available, userMessage, ctx, provider);
      a == GetFallbackResponse(userMessage)
      || (available && provider(ContextualMessage(userMessage, ctx)) == Completed(a))
  {
  }
}
