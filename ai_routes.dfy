/** The AI endpoints of the server (server/routes/ai.js) that carry logic of
    their own: the input guards of `/chat`, `/symptoms/analyze` and
    `/emergency/assessment`, and the emergency answer, which puts an urgent
    notice in front of the advice and flags the case when the symptoms are
    severe. Request timestamps are not modelled. */
module AiRoutes {
  import opened Js
  import opened Text
  import opened AiService

  const UrgentNotice := "URGENT: Consider calling 911 or going to the emergency room immediately"

  datatype ChatReply = ChatReply(success: bool, response: string)

  datatype AnalysisReply = AnalysisReply(success: bool, analysis: SymptomAnalysis)

  datatype EmergencyAnalysis = EmergencyAnalysis(
    analysis: string,
    severity: Severity,
    recommendations: seq<string>,
    isEmergency: bool)

  datatype EmergencyReply = EmergencyReply(success: bool, analysis: EmergencyAnalysis)

  /** The chat guard `!message || message.trim().length === 0` rejects the
      message (a non-string message is not rejected here). */
  predicate MissingMessage(message: Value) {
    !Truthy(message) || (message.Str? && Trim(message.s) == "")
  }

  /** The symptoms guard `!symptoms || !Array.isArray(symptoms) ||
      symptoms.length === 0` lets the value through. */
  predicate SymptomList(symptoms: Value) {
    symptoms.Arr? && |symptoms.items| > 0
  }

  predicate AllText(items: seq<Value>) {
    forall i :: 0 <= i < |items| ==> items[i].Str?
  }

  function Texts(items: seq<Value>): (r: seq<string>)
    requires AllText(items)
    ensures |r| == |items|
    ensures forall i :: 0 <= i < |items| ==> r[i] == items[i].s
  {
    seq(|items|, i requires 0 <= i < |items| => items[i].s)
  }

  /** The advice of an emergency answer: the urgent notice first when the
      tier is severe, then the tier's own advice in its order. */
  function EmergencyRecommendations(severity: Severity): seq<string> {
    var advice := RecommendationsFor(severity);
    if severity == Severe then [UrgentNotice] + advice else advice
  }

  /** The urgent notice heads the advice exactly for the severe tier; the
      tier's advice follows it unchanged, and other tiers pass through. */
  lemma UrgentOnlyWhenSevere(severity: Severity)
    ensures |EmergencyRecommendations(severity)| > 0
    ensures EmergencyRecommendations(severity)[0] == UrgentNotice <==> severity == Severe
    ensures severity == Severe ==> EmergencyRecommendations(severity)[1..] == RecommendationsFor(severity)
    ensures severity != Severe ==> EmergencyRecommendations(severity) == RecommendationsFor(severity)
  {
    RecommendationsDistinguishTiers(severity, severity);
  }

  /** POST /chat */
  method Chat(service: AIService, message: Value, ctx: PatientContext, provider: string -> Completion)
    returns (resp: Response<ChatReply>, queried: bool)
    ensures MissingMessage(message) ==> resp == Failure(400, "Message is required") && !queried
    ensures !MissingMessage(message) && !message.Str? ==>
      resp == Failure(500, "Unable to process chat request") && !queried
    ensures !MissingMessage(message) && message.Str? ==>
      resp == Success(200, ChatReply(true, Answer(service.isAvailable, message.s, ctx, provider)))
      && queried == service.isAvailable
  {
    if !Truthy(message) {
      return Failure(400, "Message is required"), false;
    }
    if !message.Str? {
      // `trim` is not a method of this value: the call throws and the
      // handler's catch answers 500.
      return Failure(500, "Unable to process chat request"), false;
    }
    if Trim(message.s) == "" {
      return Failure(400, "Message is required"), false;
    }
    var response;
    response, queried := service.GenerateResponse(message.s, ctx, provider);
    resp := Success(200, ChatReply(true, response));
  }

  /** POST /symptoms/analyze */
  method AnalyzeRoute(service: AIService, symptoms: Value, ctx: PatientContext, provider: string -> Completion)
    returns (resp: Response<AnalysisReply>, queried: bool)
    ensures !SymptomList(symptoms) ==> resp == Failure(400, "Symptoms array is required") && !queried
    ensures SymptomList(symptoms) && !AllText(symptoms.items) ==>
      resp == Failure(500, "Unable to analyze symptoms") && queried == service.isAvailable
    ensures SymptomList(symptoms) && AllText(symptoms.items) ==>
      var names := Texts(symptoms.items);
      resp == Success(200, AnalysisReply(true, SymptomAnalysis(
        Answer(service.isAvailable, AnalysisPrompt(names, ctx), ctx, provider),
        AssessSymptomSeverity(names),
        RecommendationsFor(AssessSymptomSeverity(names)))))
      && queried == service.isAvailable
  {
    if !SymptomList(symptoms) {
      return Failure(400, "Symptoms array is required"), false;
    }
    if !AllText(symptoms.items) {
      // The provider is asked first; lower-casing a non-string entry then throws.
      return Failure(500, "Unable to analyze symptoms"), service.isAvailable;
    }
    var names := Texts(symptoms.items);
    var analysis;
    analysis, queried := service.AnalyzeSymptoms(names, ctx, provider);
    resp := Success(200, AnalysisReply(true, analysis));
  }

  /** POST /emergency/assessment */
  method EmergencyAssessment(service: AIService, symptoms: Value, ctx: PatientContext, provider: string -> Completion)
    returns (resp: Response<EmergencyReply>, queried: bool)
    ensures !SymptomList(symptoms) ==> resp == Failure(400, "Symptoms array is required") && !queried
    ensures SymptomList(symptoms) && !AllText(symptoms.items) ==>
      resp == Failure(500, "Unable to perform emergency assessment") && queried == service.isAvailable
    ensures SymptomList(symptoms) && AllText(symptoms.items) ==>
      var names := Texts(symptoms.items);
      var severity := AssessSymptomSeverity(names);
      resp == Success(200, EmergencyReply(true, EmergencyAnalysis(
        Answer(service.isAvailable, AnalysisPrompt(names, ctx), ctx, provider),
        severity,
        EmergencyRecommendations(severity),
        severity == Severe)))
      && queried == service.isAvailable
  {
    if !SymptomList(symptoms) {
      return Failure(400, "Symptoms array is required"), false;
    }
    if !AllText(symptoms.items) {
      return Failure(500, "Unable to perform emergency assessment"), service.isAvailable;
    }
    var assessment;
    assessment, queried := AssessEmergency(service, Texts(symptoms.items), ctx, provider);
    resp := Success(200, EmergencyReply(true, assessment));
  }

  /** The payload of a successful emergency assessment: the service's
      analysis, with the urgent notice put in front of the advice (the
      handler's `unshift`) and the emergency flag set, when severe. */
  method AssessEmergency(service: AIService, names: seq<string>, ctx: PatientContext, provider: string -> Completion)
    returns (assessment: EmergencyAnalysis, queried: bool)
    ensures var severity := AssessSymptomSeverity(names);
      assessment == EmergencyAnalysis(
        Answer(service.isAvailable, AnalysisPrompt(names, ctx), ctx, provider),
        severity,
        EmergencyRecommendations(severity),
        severity == Severe)
      && queried == service.isAvailable
  {
    var analysis;
    analysis, queried := service.AnalyzeSymptoms(names, ctx, provider);
    var recommendations := analysis.recommendations;
    if analysis.severity == Severe {
      recommendations := [UrgentNotice] + recommendations;
    }
    assessment := EmergencyAnalysis(analysis.analysis, analysis.severity, recommendations, analysis.severity == Severe);
  }
}
