/**
 * The client for the flow backend's review agent: the normalisation every call goes
 * through (an HTTP outcome becomes `{success, data}` or `{success, error}`), the review
 * endpoints, and the composite review flow collect -> analyze -> backlog -> optional
 * report email, which stops at the first unsuccessful response.
 *
 * The backend is an oracle from the request sent to its outcome; the service keeps a
 * ghost log of the requests it sent, so that what was (not) sent can be stated.
 */
module Api {
  import opened Wrappers
  import opened Json
  import opened Http
  import Text

  // ---------------------------------------------------------------------------
  // HTTP exchanges

  /** The base URL used when no `VITE_API_URL` is configured. */
  const DefaultBaseUrl := "http://200.98.64.133/api"

  /** A request as `fetch` sends it; `body` is the value given to `JSON.stringify`. */
  datatype HttpRequest = HttpRequest(url: string, verb: string, body: Option<Value>)

  /** Something thrown: an `Error` instance with its message, or any other value. */
  datatype Thrown = ErrorInstance(message: string) | OtherThrown

  /** What `response.json()` gives: the parsed body, or the failure it rejects with. */
  datatype Body = Parsed(value: Value) | Unparseable(thrown: Thrown)

  /** What `fetch` gives: a response, or the failure it rejects with. */
  datatype HttpOutcome =
    | Responded(status: nat, statusText: string, body: Body)
    | TransportFailure(thrown: Thrown)

  /** `ApiResponse`: `{success: true, data}` or `{success: false, error}`. */
  datatype ApiResponse = Succeeded(data: Value) | Failed(error: Value)

  const UnknownError := "Erro desconhecido"

  /** The `TypeError` that reading `.error` on a `null` body throws. */
  const NullBodyError := "Cannot read properties of null (reading 'error')"

  /** The message a caught failure is reported with. */
  function ThrownMessage(t: Thrown): string {
    match t
    case ErrorInstance(m) => m
    case OtherThrown => UnknownError
  }

  /** The fallback error of a non-2xx response: `HTTP <status>: <statusText>`. */
  function StatusMessage(status: nat, statusText: string): (r: string)
    ensures |r| > 7 + |statusText| && r[..5] == "HTTP " && r[|r| - |statusText|..] == statusText
  {
    "HTTP " + Text.DecimalString(status) + ": " + statusText
  }

  /**
   * `request`'s mapping of an outcome to a response. The body is parsed before the
   * status is looked at, so an unparseable body fails the call whatever the status.
   */
  function Normalize(o: HttpOutcome): (r: ApiResponse)
    ensures r.Succeeded? <==> o.Responded? && o.body.Parsed? && IsOkStatus(o.status)
    ensures r.Succeeded? ==> r.data == o.body.value
    ensures o.TransportFailure? ==> r == Failed(JStr(ThrownMessage(o.thrown)))
    ensures o.Responded? && o.body.Unparseable? ==> r == Failed(JStr(ThrownMessage(o.body.thrown)))
  {
    match o
    case TransportFailure(t) => Failed(JStr(ThrownMessage(t)))
    case Responded(status, statusText, body) =>
      match body
      case Unparseable(t) => Failed(JStr(ThrownMessage(t)))
      case Parsed(v) =>
        if IsOkStatus(status) then Succeeded(v)
        else if v.JNull? then Failed(JStr(NullBodyError))
        else Failed(Or(Member(v, "error"), JStr(StatusMessage(status, statusText))))
  }

  /**
   * A parsed non-2xx response fails with the body's `error` field when that is truthy,
   * and otherwise with the status line; a `null` body fails on reading the field.
   */
  lemma NormalizeHttpError(status: nat, statusText: string, v: Value)
    requires !IsOkStatus(status)
    ensures var r := Normalize(Responded(status, statusText, Parsed(v)));
      && r.Failed?
      && (v.JNull? ==> r.error == JStr(NullBodyError))
      && (!v.JNull? && Given(Member(v, "error")) ==> r.error == v.fields["error"])
      && (!v.JNull? && !Given(Member(v, "error")) ==> r.error == JStr(StatusMessage(status, statusText)))
  {
  }

  /** The status line determines the status code and the status text. */
  lemma StatusMessageInjective(s1: nat, t1: string, s2: nat, t2: string)
    requires StatusMessage(s1, t1) == StatusMessage(s2, t2)
    ensures s1 == s2 && t1 == t2
  {
    var d1, d2 := Text.DecimalString(s1), Text.DecimalString(s2);
    var m1, m2 := StatusMessage(s1, t1), StatusMessage(s2, t2);
    assert m1 == "HTTP " + d1 + ": " + t1;
    assert m2 == "HTTP " + d2 + ": " + t2;
    assert m1[5..] == d1 + (": " + t1);
    assert m2[5..] == d2 + (": " + t2);
    Text.LeadingDigitsOfNumeral(d1, ": " + t1);
    Text.LeadingDigitsOfNumeral(d2, ": " + t2);
    assert d1 == m1[5..5 + |d1|];
    assert d2 == m2[5..5 + |d2|];
    Text.ParseDecimalString(s1);
    Text.ParseDecimalString(s2);
    assert t1 == m1[7 + |d1|..];
    assert t2 == m2[7 + |d2|..];
  }

  // ---------------------------------------------------------------------------
  // Review endpoints

  /** The three stages of the review agent, each a POST on the package's resource. */
  datatype Stage = Collect | Analyze | Backlog

  function StageName(s: Stage): (r: string)
    ensures |r| == 7
  {
    match s
    case Collect => "collect"
    case Analyze => "analyze"
    case Backlog => "backlog"
  }

  /** `/review-agent/apps/{packageName}/{stage}`; the package name is inserted as given. */
  function ReviewPath(packageName: string, s: Stage): string {
    "/review-agent/apps/" + packageName + "/" + StageName(s)
  }

  /** Different packages or different stages never share an endpoint. */
  lemma ReviewPathInjective(p1: string, s1: Stage, p2: string, s2: Stage)
    requires ReviewPath(p1, s1) == ReviewPath(p2, s2)
    ensures p1 == p2 && s1 == s2
  {
    var e1, e2 := ReviewPath(p1, s1), ReviewPath(p2, s2);
    assert |p1| == |p2|;
    assert p1 == e1[19..19 + |p1|];
    assert p2 == e2[19..19 + |p2|];
    assert StageName(s1) == e1[|e1| - 7..];
    assert StageName(s2) == e2[|e2| - 7..];
  }

  const SendReportPath := "/review-agent/send-report-email"

  /** The number of days a backlog covers when the caller gives none. */
  const DefaultBacklogDays := 7.0

  /** The body of a backlog request: `{days}`, with `days` defaulting to 7. */
  function BacklogBody(days: Option<real>): Value {
    JObj(map["days" := JNum(if days.Some? then days.value else DefaultBacklogDays)])
  }

  /** The request a stage sends; only the backlog stage has a body. */
  function StageRequest(baseUrl: string, packageName: string, s: Stage, days: Option<real>): HttpRequest {
    HttpRequest(baseUrl + ReviewPath(packageName, s), "POST", if s == Backlog then Some(BacklogBody(days)) else None)
  }

  function EmailRequest(baseUrl: string, recipient: string, report: Value): HttpRequest {
    HttpRequest(baseUrl + SendReportPath, "POST",
      Some(JObj(map["recipient_email" := JStr(recipient), "report_data" := report])))
  }

  // ---------------------------------------------------------------------------
  // The review flow, declaratively

  const FlowSucceededMessage := "Fluxo de review executado com sucesso"

  /** `backlog.data?.summary?.status_summary?.negative?.count`. */
  function NegativeCount(backlog: Value): Option<Value> {
    Path(Some(backlog), ["summary", "status_summary", "negative", "count"])
  }

  /** `count > 0`, for a count that is undefined, null, a boolean or a number. */
  predicate IsPositive(count: Option<Value>) {
    count.Some? &&
    match count.value
    case JNum(n) => n > 0.0
    case JBool(b) => b
    case _ => false
  }

  /** Whether the flow sends the report: a non-empty manager email and a positive negative count. */
  predicate ShouldEmail(managerEmail: Option<string>, backlog: Value) {
    managerEmail.Some? && managerEmail.value != "" && IsPositive(NegativeCount(backlog))
  }

  /** The report: the package, the negative count, and fixed themes and suggestions. */
  function Report(packageName: string, count: Value): Value {
    JObj(map[
      "package_name" := JStr(packageName),
      "negative_reviews_count" := count,
      "main_themes" := JArr([JStr("usabilidade"), JStr("performance")]),
      "critical_reviews" := JArr([]),
      "suggestions" := JArr([JStr("Priorizar correção de bugs"), JStr("Melhorar interface do usuário")])
    ])
  }

  /** The data of a successful flow: each stage's data and the fixed message. */
  function FlowData(collected: Value, analyzed: Value, backlog: Value): Value {
    JObj(map["collect" := collected, "analyze" := analyzed, "backlog" := backlog, "message" := JStr(FlowSucceededMessage)])
  }

  /** What a review flow gives back, and the requests it sent, in order. */
  datatype Flow = Flow(response: ApiResponse, sent: seq<HttpRequest>)

  /** The three stage requests of a flow, in the order the flow sends them. */
  function Stages(baseUrl: string, packageName: string): (r: seq<HttpRequest>)
    ensures |r| == 3
  {
    [StageRequest(baseUrl, packageName, Collect, None),
     StageRequest(baseUrl, packageName, Analyze, None),
     StageRequest(baseUrl, packageName, Backlog, None)]
  }

  /** The response the server's answer to stage request `k` is normalised to. */
  function StageResponse(baseUrl: string, server: HttpRequest -> HttpOutcome, packageName: string, k: nat): ApiResponse
    requires k < 3
  {
    Normalize(server(Stages(baseUrl, packageName)[k]))
  }

  /** The stage requests among the requests a flow sent (all but the report email). */
  function StagesSent(f: Flow): (r: seq<HttpRequest>)
    ensures |r| <= 3
  {
    if |f.sent| > 3 then f.sent[..3] else f.sent
  }

  /** The report email a successful flow sends: one request when it is due, none otherwise. */
  function ReportEmails(baseUrl: string, packageName: string, managerEmail: Option<string>, backlog: Value): (r: seq<HttpRequest>)
    ensures |r| <= 1
    ensures |r| == 1 <==> ShouldEmail(managerEmail, backlog)
  {
    if ShouldEmail(managerEmail, backlog)
    then [EmailRequest(baseUrl, managerEmail.value, Report(packageName, NegativeCount(backlog).value))]
    else []
  }

  /** `executeReviewFlow`, as a value: the response and the requests, in order. */
  function ReviewFlow(baseUrl: string, server: HttpRequest -> HttpOutcome, packageName: string,
                      managerEmail: Option<string>): (f: Flow)
    ensures 1 <= |f.sent| <= 4
  {
    var collect := StageRequest(baseUrl, packageName, Collect, None);
    var analyze := StageRequest(baseUrl, packageName, Analyze, None);
    var backlog := StageRequest(baseUrl, packageName, Backlog, None);
    var collected := Normalize(server(collect));
    if collected.Failed? then Flow(collected, [collect])
    else
      var analyzed := Normalize(server(analyze));
      if analyzed.Failed? then Flow(analyzed, [collect, analyze])
      else
        var backlogged := Normalize(server(backlog));
        if backlogged.Failed? then Flow(backlogged, [collect, analyze, backlog])
        else
          Flow(Succeeded(FlowData(collected.data, analyzed.data, backlogged.data)),
               [collect, analyze, backlog] + ReportEmails(baseUrl, packageName, managerEmail, backlogged.data))
  }

  /**
   * Order: the flow sends collect, analyze and backlog in that order, as far as it
   * gets, and anything after them only once the flow has succeeded.
   */
  lemma ReviewFlowOrder(baseUrl: string, server: HttpRequest -> HttpOutcome, packageName: string,
                        managerEmail: Option<string>)
    ensures var f := ReviewFlow(baseUrl, server, packageName, managerEmail);
      && (forall k :: 0 <= k < |f.sent| && k < 3 ==> f.sent[k] == Stages(baseUrl, packageName)[k])
      && (f.response.Succeeded? <==> |f.sent| >= 3 && Normalize(server(f.sent[2])).Succeeded?)
  {
  }

  /** The flow asks for a backlog of the default seven days, in a POST body holding only `days`. */
  lemma ReviewFlowBacklogDefault(baseUrl: string, server: HttpRequest -> HttpOutcome, packageName: string,
                                 managerEmail: Option<string>)
    ensures var f := ReviewFlow(baseUrl, server, packageName, managerEmail);
      |f.sent| >= 3 ==> f.sent[2].verb == "POST" && f.sent[2].body == Some(JObj(map["days" := JNum(7.0)]))
  {
  }

  /**
   * Fail-fast: when stage `k` is the first to fail, the flow returns that stage's
   * response unchanged, having sent the first `k + 1` stage requests and nothing else.
   */
  lemma ReviewFlowFailsFast(baseUrl: string, server: HttpRequest -> HttpOutcome, packageName: string,
                            managerEmail: Option<string>, k: nat)
    requires k < 3 && StageResponse(baseUrl, server, packageName, k).Failed?
    requires forall j :: 0 <= j < k ==> StageResponse(baseUrl, server, packageName, j).Succeeded?
    ensures var f := ReviewFlow(baseUrl, server, packageName, managerEmail);
      && f.response == StageResponse(baseUrl, server, packageName, k)
      && f.sent == Stages(baseUrl, packageName)[..k + 1]
  {
    if k > 0 {
      assert StageResponse(baseUrl, server, packageName, 0).Succeeded?;
    }
    if k > 1 {
      assert StageResponse(baseUrl, server, packageName, 1).Succeeded?;
    }
  }

  /**
   * Success: when every stage succeeds, the flow succeeds with the three stages' data
   * and the fixed message, whatever the email request (if any) gets back; the three
   * stage requests go first.
   */
  lemma ReviewFlowSucceeds(baseUrl: string, server: HttpRequest -> HttpOutcome, packageName: string,
                           managerEmail: Option<string>)
    requires forall k :: 0 <= k < 3 ==> StageResponse(baseUrl, server, packageName, k).Succeeded?
    ensures var f := ReviewFlow(baseUrl, server, packageName, managerEmail);
      && StagesSent(f) == Stages(baseUrl, packageName)
      && f.response == Succeeded(FlowData(StageResponse(baseUrl, server, packageName, 0).data,
                                          StageResponse(baseUrl, server, packageName, 1).data,
                                          StageResponse(baseUrl, server, packageName, 2).data))
  {
    assert StageResponse(baseUrl, server, packageName, 0).Succeeded?;
    assert StageResponse(baseUrl, server, packageName, 1).Succeeded?;
    assert StageResponse(baseUrl, server, packageName, 2).Succeeded?;
  }

  /**
   * The report is sent if and only if all three stages succeed, a manager email is
   * given and the backlog's negative count is positive; it is sent last, to that
   * address, and carries the package name and the count.
   */
  lemma ReviewFlowEmail(baseUrl: string, server: HttpRequest -> HttpOutcome, packageName: string,
                        managerEmail: Option<string>)
    ensures var f := ReviewFlow(baseUrl, server, packageName, managerEmail);
      var backlog := StageResponse(baseUrl, server, packageName, 2);
      && (|f.sent| == 4 <==>
            (forall k :: 0 <= k < 3 ==> StageResponse(baseUrl, server, packageName, k).Succeeded?)
            && ShouldEmail(managerEmail, backlog.data))
      && (|f.sent| == 4 ==>
            f.sent[3] == EmailRequest(baseUrl, managerEmail.value, Report(packageName, NegativeCount(backlog.data).value)))
  {
    var collected := StageResponse(baseUrl, server, packageName, 0);
    var analyzed := StageResponse(baseUrl, server, packageName, 1);
    var backlog := StageResponse(baseUrl, server, packageName, 2);
  }

  /** The email address changes what is sent, never what the flow returns. */
  lemma ReviewFlowIgnoresEmail(baseUrl: string, server: HttpRequest -> HttpOutcome, packageName: string,
                               e1: Option<string>, e2: Option<string>)
    ensures ReviewFlow(baseUrl, server, packageName, e1).response == ReviewFlow(baseUrl, server, packageName, e2).response
    ensures StagesSent(ReviewFlow(baseUrl, server, packageName, e1)) == StagesSent(ReviewFlow(baseUrl, server, packageName, e2))
  {
  }

  // ---------------------------------------------------------------------------
  // The service

  class ApiService {
    /** `API_BASE_URL`. */
    const baseUrl: string
    /** Every request sent so far, in order. */
    ghost var sent: seq<HttpRequest>

    constructor (configuredUrl: Option<string>)
      ensures baseUrl == (if configuredUrl.Some? && configuredUrl.value != "" then configuredUrl.value else DefaultBaseUrl)
      ensures sent == []
    {
      baseUrl := if configuredUrl.Some? && configuredUrl.value != "" then configuredUrl.value else DefaultBaseUrl;
      sent := [];
    }

    /** `request`: sends one request to `baseUrl + endpoint` and normalises the outcome. */
    method Request(endpoint: string, verb: string, body: Option<Value>, server: HttpRequest -> HttpOutcome)
      returns (r: ApiResponse)
      modifies this
      ensures sent == old(sent) + [HttpRequest(baseUrl + endpoint, verb, body)]
      ensures r == Normalize(server(HttpRequest(baseUrl + endpoint, verb, body)))
    {
      var request := HttpRequest(baseUrl + endpoint, verb, body);
      sent := sent + [request];
      var outcome := server(request);
      r := Normalize(outcome);
    }

    method CollectReviews(packageName: string, server: HttpRequest -> HttpOutcome) returns (r: ApiResponse)
      modifies this
      ensures sent == old(sent) + [StageRequest(baseUrl, packageName, Collect, None)]
      ensures r == Normalize(server(StageRequest(baseUrl, packageName, Collect, None)))
    {
      r := Request(ReviewPath(packageName, Collect), "POST", None, server);
    }

    method AnalyzeReviews(packageName: string, server: HttpRequest -> HttpOutcome) returns (r: ApiResponse)
      modifies this
      ensures sent == old(sent) + [StageRequest(baseUrl, packageName, Analyze, None)]
      ensures r == Normalize(server(StageRequest(baseUrl, packageName, Analyze, None)))
    {
      r := Request(ReviewPath(packageName, Analyze), "POST", None, server);
    }

    /** `generateBacklog`; `days` is undefined when the caller leaves it out. */
    method GenerateBacklog(packageName: string, days: Option<real>, server: HttpRequest -> HttpOutcome)
      returns (r: ApiResponse)
      modifies this
      ensures sent == old(sent) + [StageRequest(baseUrl, packageName, Backlog, days)]
      ensures r == Normalize(server(StageRequest(baseUrl, packageName, Backlog, days)))
    {
      r := Request(ReviewPath(packageName, Backlog), "POST", Some(BacklogBody(days)), server);
    }

    method SendReportEmail(recipient: string, report: Value, server: HttpRequest -> HttpOutcome)
      returns (r: ApiResponse)
      modifies this
      ensures sent == old(sent) + [EmailRequest(baseUrl, recipient, report)]
      ensures r == Normalize(server(EmailRequest(baseUrl, recipient, report)))
    {
      r := Request(SendReportPath, "POST",
        Some(JObj(map["recipient_email" := JStr(recipient), "report_data" := report])), server);
    }

    /**
     * `executeReviewFlow`: collect, analyze and backlog in turn, returning the first
     * unsuccessful response unchanged; then the report email when it is due (its
     * response is ignored); then the combined success.
     */
    method ExecuteReviewFlow(packageName: string, managerEmail: Option<string>, server: HttpRequest -> HttpOutcome)
      returns (r: ApiResponse)
      modifies this
      ensures var f := ReviewFlow(baseUrl, server, packageName, managerEmail);
        r == f.response && sent == old(sent) + f.sent
    {
      var collected := CollectReviews(packageName, server);
      if collected.Failed? {
        return collected;
      }
      var analyzed := AnalyzeReviews(packageName, server);
      if analyzed.Failed? {
        return analyzed;
      }
      var backlog := GenerateBacklog(packageName, None, server);
      if backlog.Failed? {
        return backlog;
      }
      SendReportIfDue(packageName, managerEmail, backlog.data, server);
      r := Succeeded(FlowData(collected.data, analyzed.data, backlog.data));
    }

    /** Sends the report email when it is due; its response is ignored. */
    method SendReportIfDue(packageName: string, managerEmail: Option<string>, backlog: Value,
                           server: HttpRequest -> HttpOutcome)
      modifies this
      ensures sent == old(sent) + ReportEmails(baseUrl, packageName, managerEmail, backlog)
    {
      if managerEmail.Some? && managerEmail.value != "" && IsPositive(NegativeCount(backlog)) {
        var report := Report(packageName, NegativeCount(backlog).value);
        var _ := SendReportEmail(managerEmail.value, report, server);
      }
    }
  }
}
