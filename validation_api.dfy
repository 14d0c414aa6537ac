/**
 * The response handling of `fetchValidationResult`: a non-ok HTTP status becomes
 * an error carrying "API <status>: <body>", and a loosely typed JSON record is
 * normalised into a `ValidationResult` by defaulting missing text to "",
 * keeping `messages` only when it is an array, and stripping one leading
 * `risk_assessment:` label from the risk text.
 */
module ValidationApi {
  import opened Wrappers
  import opened JsStrings
  import opened Validation

  /** A parsed JSON value (numbers are kept as integers; their value is never inspected). */
  datatype JsonValue =
    | JNull
    | JBool(b: bool)
    | JNumber(n: int)
    | JString(str: string)
    | JArray(items: seq<JsonValue>)
    | JObject(fields: map<string, JsonValue>)

  /** The nine member names the report is built from. */
  const KnownKeys: set<string> := {"startup_idea", "idea_analysis", "swot_analysis", "market_analysis",
                                   "competition_analysis", "risk_assessment", "advisor_recommendations",
                                   "advice", "messages"}

  /** The members of a parsed body, as `rawData.<key>` reads them. */
  type RawRecord = map<string, JsonValue>

  /**
   * `rawData.<key>` seen through `??`: a missing member and a JSON `null`
   * are both `None`.
   */
  function Field(raw: RawRecord, key: string): (r: Option<JsonValue>)
    ensures r.None? <==> key !in raw || raw[key] == JNull
    ensures r.Some? ==> r.value == raw[key]
  {
    if key in raw && raw[key] != JNull then Some(raw[key]) else None
  }

  /** Property access on a parsed body: only an object has members; `null` has none and throws. */
  function Members(v: JsonValue): RawRecord
  {
    if v.JObject? then v.fields else map[]
  }

  /**
   * The typing the `ValidationResult` annotation takes for granted of the
   * fields that `??` passes through unchanged: each is a string when present,
   * and an array in `messages` holds strings.
   */
  predicate TextOk(raw: RawRecord, key: string)
  {
    Field(raw, key).Some? ==> Field(raw, key).value.JString?
  }

  predicate WellTyped(raw: RawRecord)
  {
    TextOk(raw, "startup_idea") && TextOk(raw, "idea_analysis") && TextOk(raw, "swot_analysis")
    && TextOk(raw, "market_analysis") && TextOk(raw, "competition_analysis")
    && TextOk(raw, "advisor_recommendations") && TextOk(raw, "advice")
    && (Field(raw, "messages").Some? && Field(raw, "messages").value.JArray? ==>
          forall v :: v in Field(raw, "messages").value.items ==> v.JString?)
  }

  /** `rawData.<key> ?? ''` for a text field. */
  function TextOrEmpty(raw: RawRecord, key: string): (r: string)
    requires TextOk(raw, key)
    ensures Field(raw, key).None? ==> r == ""
    ensures Field(raw, key).Some? ==> Field(raw, key) == Some(JString(r))
  {
    match Field(raw, key)
    case None => ""
    case Some(v) => v.str
  }

  /** The strings held by an array whose items are all strings. */
  function Strings(items: seq<JsonValue>): (r: seq<string>)
    requires forall v :: v in items ==> v.JString?
    ensures |r| == |items| && forall i :: 0 <= i < |r| ==> items[i] == JString(r[i])
  {
    if items == [] then [] else [items[0].str] + Strings(items[1..])
  }

  /** `Array.isArray(rawData.messages) ? rawData.messages : []`. */
  function MessagesOrEmpty(raw: RawRecord): (r: seq<string>)
    requires WellTyped(raw)
    ensures Field(raw, "messages").Some? && Field(raw, "messages").value.JArray? ==>
              |r| == |Field(raw, "messages").value.items|
              && forall i :: 0 <= i < |r| ==> Field(raw, "messages").value.items[i] == JString(r[i])
    ensures !(Field(raw, "messages").Some? && Field(raw, "messages").value.JArray?) ==> r == []
  {
    match Field(raw, "messages")
    case Some(JArray(items)) => Strings(items)
    case _ => []
  }

  // ---------------------------------------------------------------------------
  // The risk label

  /** The label that the pattern `^risk_assessment:\s*` (flag `i`) removes, 16 characters. */
  const RiskLabel := "risk_assessment:"

  /** The risk text starts with the label in any letter case. */
  predicate HasRiskLabel(s: string)
  {
    |s| >= |RiskLabel| && Lower(s[..|RiskLabel|]) == RiskLabel
  }

  /**
   * `s.replace` of the pattern `^risk_assessment:\s*` (flag `i`) by "": when the text starts with the
   * label in any letter case, the label and all the white space after it go;
   * otherwise the text is returned as it is. The result is always a suffix.
   */
  function StripRiskLabel(s: string): (r: string)
    ensures |r| <= |s| && r == s[|s| - |r|..]
    ensures !HasRiskLabel(s) ==> r == s
    ensures HasRiskLabel(s) ==>
              |r| <= |s| - |RiskLabel|
              && (forall i :: |RiskLabel| <= i < |s| - |r| ==> IsJsWhitespace(s[i]))
              && (r != [] ==> !IsJsWhitespace(r[0]))
  {
    if HasRiskLabel(s) then TrimStart(s[|RiskLabel|..]) else s
  }

  /** A label in any case, any run of white space, then text: exactly the text is left. */
  lemma StripRiskLabelRemovesLabel(prefix: string, pad: string, t: string)
    requires Lower(prefix) == RiskLabel
    requires forall i :: 0 <= i < |pad| ==> IsJsWhitespace(pad[i])
    requires t == [] || !IsJsWhitespace(t[0])
    ensures StripRiskLabel(prefix + pad + t) == t
  {
    var s := prefix + pad + t;
    assert s[..|RiskLabel|] == prefix;
    assert s[|RiskLabel|..] == pad + t;
    TrimStartSkipsPad(pad, t);
  }

  /** "risk_assessment: high" is normalised to "high". */
  lemma StripRiskLabelExample()
    ensures StripRiskLabel("risk_assessment: high") == "high"
  {
    var s := "risk_assessment: high";
    assert s[..16] == "risk_assessment:" && Lower("risk_assessment:") == RiskLabel;
    assert s[16..] == " " + "high";
    TrimStartSkipsPad(" ", "high");
  }

  /** The label goes whatever its letter case, and so does a run of mixed white space. */
  lemma StripRiskLabelAnyCase()
    ensures StripRiskLabel("RISK_Assessment:\t\nhigh") == "high"
  {
    var s := "RISK_Assessment:\t\nhigh";
    assert s[..16] == "RISK_Assessment:" && Lower("RISK_Assessment:") == RiskLabel;
    assert s[16..] == "\t\n" + "high";
    TrimStartSkipsPad("\t\n", "high");
  }

  /** Stripping a doubled label removes the first copy and the space after it. */
  lemma StripDoubledLabel(t: string)
    requires t == [] || !IsJsWhitespace(t[0])
    ensures StripRiskLabel(RiskLabel + " " + RiskLabel + " " + t) == RiskLabel + " " + t
  {
    RiskLabelIsLowerCase();
    assert RiskLabel + " " + RiskLabel + " " + t == RiskLabel + " " + (RiskLabel + " " + t);
    StripRiskLabelRemovesLabel(RiskLabel, " ", RiskLabel + " " + t);
  }

  /**
   * Only the first label goes, so stripping is not idempotent: a doubled label
   * ("risk_assessment: risk_assessment: x") leaves a text that still carries
   * one ("risk_assessment: x"), which a second strip would remove.
   */
  lemma StripRiskLabelNotIdempotent(t: string)
    requires t == [] || !IsJsWhitespace(t[0])
    ensures StripRiskLabel(RiskLabel + " " + RiskLabel + " " + t) == RiskLabel + " " + t
    ensures HasRiskLabel(StripRiskLabel(RiskLabel + " " + RiskLabel + " " + t))
    ensures StripRiskLabel(StripRiskLabel(RiskLabel + " " + RiskLabel + " " + t))
            != StripRiskLabel(RiskLabel + " " + RiskLabel + " " + t)
  {
    var once := RiskLabel + " " + t;
    StripDoubledLabel(t);
    assert once[..16] == RiskLabel;
    LabelledHasRiskLabel(once);
    assert |StripRiskLabel(once)| < |once|;
  }

  /** A text that starts with the lower-case label carries it. */
  lemma LabelledHasRiskLabel(s: string)
    requires |s| >= 16 && s[..16] == RiskLabel
    ensures HasRiskLabel(s)
  {
    RiskLabelIsLowerCase();
  }

  /** The label is written in lower case. */
  lemma RiskLabelIsLowerCase()
    ensures Lower(RiskLabel) == RiskLabel
  {
    assert forall i :: 0 <= i < |RiskLabel| ==> LowerChar(RiskLabel[i]) == RiskLabel[i];
  }

  // ---------------------------------------------------------------------------
  // Normalisation and the whole call

  /** What `fetchValidationResult` throws. */
  datatype FetchError =
    | HttpError(status: nat, body: string)  // `!response.ok`
    | NetworkError                          // `fetch` rejected
    | BodyNotJson                           // `response.json()` rejected
    | NullBody                              // the body is JSON `null`: reading a member throws
    | RiskNotString                         // `.replace` on a risk value that is not a string

  /** The message of the `Error` raised for a non-ok status. */
  function HttpErrorMessage(status: nat, body: string): (m: string)
    ensures |m| > 4 && m[..4] == "API "
  {
    "API " + NatToString(status) + ": " + body
  }

  /** The HTTP status is recoverable from the error message: its digits follow "API ". */
  lemma HttpErrorMessageCarriesStatus(status: nat, body: string)
    ensures var m := HttpErrorMessage(status, body);
            var k := |NatToString(status)|;
            4 + k + 2 <= |m|
            && (forall i :: 4 <= i < 4 + k ==> '0' <= m[i] <= '9')
            && ParseNat(m[4..4 + k]) == status
            && m[4 + k..4 + k + 2] == ": " && m[4 + k + 2..] == body
  {
    var m := HttpErrorMessage(status, body);
    var k := |NatToString(status)|;
    assert m[4..4 + k] == NatToString(status);
    ParseNatToString(status);
  }

  /** `(rawData.risk_assessment ?? '').replace(...)`, which throws on a non-string. */
  function NormalizeRisk(raw: RawRecord): (r: Result<string, FetchError>)
    ensures Field(raw, "risk_assessment").None? ==> r == Success("")
    ensures (Field(raw, "risk_assessment").Some? && !Field(raw, "risk_assessment").value.JString?)
            <==> r == Failure(RiskNotString)
    ensures Field(raw, "risk_assessment").Some? && Field(raw, "risk_assessment").value.JString? ==>
              r == Success(StripRiskLabel(Field(raw, "risk_assessment").value.str))
  {
    match Field(raw, "risk_assessment")
    case None => Success(StripRiskLabel(""))
    case Some(JString(s)) => Success(StripRiskLabel(s))
    case Some(_) => Failure(RiskNotString)
  }

  /** The object literal `cleanedData` built from a parsed body. */
  function Normalize(body: JsonValue): Result<ValidationResult, FetchError>
    requires WellTyped(Members(body))
  {
    if body == JNull then Failure(NullBody)
    else
      var raw := Members(body);
      match NormalizeRisk(raw)
      case Failure(e) => Failure(e)
      case Success(risk) =>
        Success(ValidationResult(
          startupIdea := TextOrEmpty(raw, "startup_idea"),
          ideaAnalysis := TextOrEmpty(raw, "idea_analysis"),
          swotAnalysis := TextOrEmpty(raw, "swot_analysis"),
          marketAnalysis := TextOrEmpty(raw, "market_analysis"),
          competitionAnalysis := TextOrEmpty(raw, "competition_analysis"),
          riskAssessment := risk,
          advisorRecommendations := TextOrEmpty(raw, "advisor_recommendations"),
          advice := TextOrEmpty(raw, "advice"),
          messages := MessagesOrEmpty(raw)))
  }

  /** The body of an HTTP response, as `response.json()` would see it. */
  datatype ParsedBody = NotJson | Json(value: JsonValue)

  /** An HTTP response: its status, its text, and the parse of that text as JSON. */
  datatype HttpResponse = HttpResponse(status: nat, bodyText: string, parsed: ParsedBody)

  /** `response.ok`. */
  predicate IsOk(r: HttpResponse)
  {
    200 <= r.status <= 299
  }

  /** What the network delivers for the POST to the `/validate` endpoint. */
  datatype Transport = Unreachable | Responded(response: HttpResponse)

  /** The typing assumption of `WellTyped`, for the body of an ok response. */
  predicate WellTypedTransport(t: Transport)
  {
    t.Responded? && IsOk(t.response) && t.response.parsed.Json? ==>
      WellTyped(Members(t.response.parsed.value))
  }

  /** `fetchValidationResult` once the request has been answered (or not). */
  function FetchValidationResult(t: Transport): (r: Result<ValidationResult, FetchError>)
    requires WellTypedTransport(t)
    ensures t.Unreachable? ==> r == Failure(NetworkError)
    ensures t.Responded? && !IsOk(t.response) ==>
              r == Failure(HttpError(t.response.status, t.response.bodyText))
    ensures r.Success? ==> t.Responded? && IsOk(t.response) && t.response.parsed.Json?
    ensures t.Responded? && IsOk(t.response) && t.response.parsed.NotJson? ==> r == Failure(BodyNotJson)
    ensures t.Responded? && IsOk(t.response) && t.response.parsed.Json? ==>
              r == Normalize(t.response.parsed.value)
  {
    match t
    case Unreachable => Failure(NetworkError)
    case Responded(resp) =>
      if !IsOk(resp) then Failure(HttpError(resp.status, resp.bodyText))
      else match resp.parsed
        case NotJson => Failure(BodyNotJson)
        case Json(v) => Normalize(v)
  }

  // ---------------------------------------------------------------------------
  // Properties of the normalisation

  /**
   * Every text field is the raw string when one is present and "" otherwise;
   * only the risk text is changed beyond that, by `StripRiskLabel`; `messages`
   * is the raw array or empty.
   */
  lemma NormalizeDefaults(body: JsonValue)
    requires body != JNull && WellTyped(Members(body))
    requires TextOk(Members(body), "risk_assessment")
    ensures var raw := Members(body);
            var r := Normalize(body);
            r.Success?
            && (Field(raw, "startup_idea").None? ==> r.value.startupIdea == "")
            && (Field(raw, "startup_idea").Some? ==> Field(raw, "startup_idea") == Some(JString(r.value.startupIdea)))
            && (Field(raw, "idea_analysis").None? ==> r.value.ideaAnalysis == "")
            && (Field(raw, "idea_analysis").Some? ==> Field(raw, "idea_analysis") == Some(JString(r.value.ideaAnalysis)))
            && (Field(raw, "swot_analysis").None? ==> r.value.swotAnalysis == "")
            && (Field(raw, "swot_analysis").Some? ==> Field(raw, "swot_analysis") == Some(JString(r.value.swotAnalysis)))
            && (Field(raw, "market_analysis").None? ==> r.value.marketAnalysis == "")
            && (Field(raw, "market_analysis").Some? ==> Field(raw, "market_analysis") == Some(JString(r.value.marketAnalysis)))
            && (Field(raw, "competition_analysis").None? ==> r.value.competitionAnalysis == "")
            && (Field(raw, "competition_analysis").Some? ==> Field(raw, "competition_analysis") == Some(JString(r.value.competitionAnalysis)))
            && (Field(raw, "advisor_recommendations").None? ==> r.value.advisorRecommendations == "")
            && (Field(raw, "advisor_recommendations").Some? ==> Field(raw, "advisor_recommendations") == Some(JString(r.value.advisorRecommendations)))
            && (Field(raw, "advice").None? ==> r.value.advice == "")
            && (Field(raw, "advice").Some? ==> Field(raw, "advice") == Some(JString(r.value.advice)))
            && (Field(raw, "risk_assessment").None? ==> r.value.riskAssessment == "")
            && (Field(raw, "risk_assessment").Some? ==>
                  r.value.riskAssessment == StripRiskLabel(Field(raw, "risk_assessment").value.str))
            && (!(Field(raw, "messages").Some? && Field(raw, "messages").value.JArray?) ==> r.value.messages == [])
            && (Field(raw, "messages").Some? && Field(raw, "messages").value.JArray? ==>
                  var items := Field(raw, "messages").value.items;
                  |r.value.messages| == |items|
                  && forall i :: 0 <= i < |items| ==> items[i] == JString(r.value.messages[i]))
  {
  }

  /** The JSON object the server would send for a report. */
  function Encode(v: ValidationResult): JsonValue
  {
    JObject(map[
      "startup_idea" := JString(v.startupIdea),
      "idea_analysis" := JString(v.ideaAnalysis),
      "swot_analysis" := JString(v.swotAnalysis),
      "market_analysis" := JString(v.marketAnalysis),
      "competition_analysis" := JString(v.competitionAnalysis),
      "risk_assessment" := JString(v.riskAssessment),
      "advisor_recommendations" := JString(v.advisorRecommendations),
      "advice" := JString(v.advice),
      "messages" := JArray(seq(|v.messages|, i requires 0 <= i < |v.messages| => JString(v.messages[i])))])
  }

  /** The JSON form of a report is well typed, and its messages read back unchanged. */
  lemma EncodeWellTyped(v: ValidationResult)
    ensures WellTyped(Members(Encode(v)))
    ensures MessagesOrEmpty(Members(Encode(v))) == v.messages
  {
    var raw := Members(Encode(v));
    var items := seq(|v.messages|, i requires 0 <= i < |v.messages| => JString(v.messages[i]));
    assert raw["messages"] == JArray(items);
    assert forall x :: x in items ==> x.JString?;
  }

  /** Each member of the JSON form of a report holds the matching field. */
  lemma EncodeFields(v: ValidationResult)
    ensures var raw := Members(Encode(v));
            Field(raw, "startup_idea") == Some(JString(v.startupIdea))
            && Field(raw, "idea_analysis") == Some(JString(v.ideaAnalysis))
            && Field(raw, "swot_analysis") == Some(JString(v.swotAnalysis))
            && Field(raw, "market_analysis") == Some(JString(v.marketAnalysis))
            && Field(raw, "competition_analysis") == Some(JString(v.competitionAnalysis))
            && Field(raw, "risk_assessment") == Some(JString(v.riskAssessment))
            && Field(raw, "advisor_recommendations") == Some(JString(v.advisorRecommendations))
            && Field(raw, "advice") == Some(JString(v.advice))
  {
    EncodeAnalysisFields(v);
    EncodeAdviceFields(v);
  }

  /** The idea and the first three analyses, as `EncodeFields` states them. */
  lemma EncodeAnalysisFields(v: ValidationResult)
    ensures var raw := Members(Encode(v));
            Field(raw, "startup_idea") == Some(JString(v.startupIdea))
            && Field(raw, "idea_analysis") == Some(JString(v.ideaAnalysis))
            && Field(raw, "swot_analysis") == Some(JString(v.swotAnalysis))
            && Field(raw, "market_analysis") == Some(JString(v.marketAnalysis))
  {
  }

  /** The remaining four text members, as `EncodeFields` states them. */
  lemma EncodeAdviceFields(v: ValidationResult)
    ensures var raw := Members(Encode(v));
            Field(raw, "competition_analysis") == Some(JString(v.competitionAnalysis))
            && Field(raw, "risk_assessment") == Some(JString(v.riskAssessment))
            && Field(raw, "advisor_recommendations") == Some(JString(v.advisorRecommendations))
            && Field(raw, "advice") == Some(JString(v.advice))
  {
  }

  /**
   * Normalisation gives back a report sent in full, except that a leading
   * risk label is stripped: the round trip is exact iff the risk text has none.
   */
  lemma NormalizeEncode(v: ValidationResult)
    ensures WellTyped(Members(Encode(v)))
    ensures Normalize(Encode(v)) == Success(v.(riskAssessment := StripRiskLabel(v.riskAssessment)))
    ensures Normalize(Encode(v)) == Success(v) <==> !HasRiskLabel(v.riskAssessment)
  {
    NormalizeEncodeValue(v);
    if HasRiskLabel(v.riskAssessment) {
      assert |StripRiskLabel(v.riskAssessment)| < |v.riskAssessment|;
    }
  }

  /** Each field of the normalised JSON form of a report, one at a time. */
  lemma NormalizeEncodeValue(v: ValidationResult)
    ensures WellTyped(Members(Encode(v)))
    ensures Normalize(Encode(v)) == Success(v.(riskAssessment := StripRiskLabel(v.riskAssessment)))
  {
    var raw := Members(Encode(v));
    EncodeWellTyped(v);
    EncodeFields(v);
    assert TextOrEmpty(raw, "startup_idea") == v.startupIdea;
    assert TextOrEmpty(raw, "idea_analysis") == v.ideaAnalysis;
    assert TextOrEmpty(raw, "swot_analysis") == v.swotAnalysis;
    assert TextOrEmpty(raw, "market_analysis") == v.marketAnalysis;
    assert TextOrEmpty(raw, "competition_analysis") == v.competitionAnalysis;
    assert TextOrEmpty(raw, "advisor_recommendations") == v.advisorRecommendations;
    assert TextOrEmpty(raw, "advice") == v.advice;
    assert NormalizeRisk(raw) == Success(StripRiskLabel(v.riskAssessment));
  }

  /** Adding a member outside the nine leaves each of the nine as it was. */
  lemma ExtraMemberKeepsFields(fields: map<string, JsonValue>, extra: string, x: JsonValue)
    requires extra !in KnownKeys
    ensures forall k :: k in KnownKeys ==> Field(fields[extra := x], k) == Field(fields, k)
  {
  }

  /** Two records that agree on the nine members the report reads. */
  predicate SameKnownFields(a: RawRecord, b: RawRecord)
  {
    Field(a, "startup_idea") == Field(b, "startup_idea")
    && Field(a, "idea_analysis") == Field(b, "idea_analysis")
    && Field(a, "swot_analysis") == Field(b, "swot_analysis")
    && Field(a, "market_analysis") == Field(b, "market_analysis")
    && Field(a, "competition_analysis") == Field(b, "competition_analysis")
    && Field(a, "risk_assessment") == Field(b, "risk_assessment")
    && Field(a, "advisor_recommendations") == Field(b, "advisor_recommendations")
    && Field(a, "advice") == Field(b, "advice")
    && Field(a, "messages") == Field(b, "messages")
  }

  /** The normalisation reads nothing but the nine members. */
  lemma NormalizeReadsKnownFields(a: RawRecord, b: RawRecord)
    requires WellTyped(a) && SameKnownFields(a, b)
    ensures WellTyped(b)
    ensures Normalize(JObject(a)) == Normalize(JObject(b))
  {
    SameKnownFieldsWellTyped(a, b);
    assert TextOrEmpty(a, "startup_idea") == TextOrEmpty(b, "startup_idea");
    assert TextOrEmpty(a, "idea_analysis") == TextOrEmpty(b, "idea_analysis");
    assert TextOrEmpty(a, "swot_analysis") == TextOrEmpty(b, "swot_analysis");
    assert TextOrEmpty(a, "market_analysis") == TextOrEmpty(b, "market_analysis");
    assert TextOrEmpty(a, "competition_analysis") == TextOrEmpty(b, "competition_analysis");
    assert TextOrEmpty(a, "advisor_recommendations") == TextOrEmpty(b, "advisor_recommendations");
    assert TextOrEmpty(a, "advice") == TextOrEmpty(b, "advice");
    assert MessagesOrEmpty(a) == MessagesOrEmpty(b);
    assert NormalizeRisk(a) == NormalizeRisk(b);
  }

  /** The typing assumption reads nothing but the nine members. */
  lemma SameKnownFieldsWellTyped(a: RawRecord, b: RawRecord)
    requires WellTyped(a) && SameKnownFields(a, b)
    ensures WellTyped(b)
  {
  }

  /** Members outside the nine the report reads have no effect. */
  lemma NormalizeIgnoresExtraMembers(fields: map<string, JsonValue>, extra: string, x: JsonValue)
    requires extra !in KnownKeys
    requires WellTyped(fields)
    ensures WellTyped(fields[extra := x])
    ensures Normalize(JObject(fields[extra := x])) == Normalize(JObject(fields))
  {
    var f2 := fields[extra := x];
    ExtraMemberKeepsFields(fields, extra, x);
    assert SameKnownFields(fields, f2);
    NormalizeReadsKnownFields(fields, f2);
  }

  /** Whatever the server omits, an ok JSON body yields a complete report. */
  lemma EmptyObjectIsEmptyReport()
    ensures Normalize(JObject(map[])) == Success(ValidationResult("", "", "", "", "", "", "", "", []))
  {
    NormalizeDefaults(JObject(map[]));
  }
}
