/** The alert webhook: the message Alertmanager posts, the collaborators the
    handlers call, and, as pure functions, what one request does — the ordered
    trace of collaborator calls it makes and the reply it leaves on the
    response writer. */
module Webhook {
  import opened Wrappers
  import opened Http

  /** One alert of a notification; only kept so that the message is whole,
      the handlers never read it. */
  datatype Alert = Alert(
    status: string,
    labels: map<string, string>,
    annotations: map<string, string>,
    startsAt: string,
    endsAt: string,
    generatorURL: string,
    fingerprint: string)

  /** The message Alertmanager posts. Only `status`, `commonLabels` and
      `commonAnnotations` drive the receiver. */
  datatype HookMessage = HookMessage(
    version: string,
    groupKey: string,
    truncatedAlerts: nat,
    status: string,
    receiver: string,
    groupLabels: map<string, string>,
    commonLabels: map<string, string>,
    commonAnnotations: map<string, string>,
    externalURL: string,
    alerts: seq<Alert>)

  /** A batch/v1 Job object; the receiver never looks inside one. */
  type Job(==)

  /** An HTTP request as the alerts handler sees it. */
  datatype Request = Request(verb: string, body: string)

  /** Parsing a job definition as a template and executing it on the label
      values: either the parse fails (and `template.Must` panics), or execution
      leaves some text in the buffer, possibly together with an error. */
  datatype Rendering =
    | ParseFailed(parseError: string)
    | Executed(output: string, execError: Option<string>)

  /** The collaborators a request may call, each one succeeding with a value
      or failing: the JSON decoder, the ConfigMap read, the template engine,
      the YAML-to-JSON conversion, the unmarshalling into a Job, and the Job
      creation. `render(definition, labels)` parses `definition` and executes
      it on the map {"Values": labels}, so a template reads a label `l` as
      `.Values.l`. */
  datatype Collaborators = Collaborators(
    decodeHook: string -> Result<HookMessage, string>,
    getConfigMap: (string, string) -> Result<map<string, string>, string>,
    render: (string, map<string, string>) -> Rendering,
    yamlToJson: string -> Result<string, string>,
    unmarshalJob: string -> Result<Job, string>,
    createJob: (string, Job) -> Result<Job, string>)

  /** The receiver's fixed configuration. */
  datatype Settings = Settings(
    jobDestinationNamespace: string,
    configmapNamespace: string,
    responsesConfigmap: string)

  /** The steps of handling an alert, in the order they must happen. */
  datatype Step = Decode | Fetch | Render | Convert | Unmarshal | Create

  const FullPipeline: seq<Step> := [Decode, Fetch, Render, Convert, Unmarshal, Create]

  /** The steps of submitting a job, after the message is decoded. */
  const JobSteps: seq<Step> := [Fetch, Render, Convert, Unmarshal, Create]

  /** Where a step stands in FullPipeline. */
  function Position(step: Step): (i: nat)
    ensures i < |FullPipeline| && FullPipeline[i] == step
    ensures forall j | 0 <= j < |FullPipeline| :: FullPipeline[j] == step ==> j == i
  {
    match step
    case Decode => 0
    case Fetch => 1
    case Render => 2
    case Convert => 3
    case Unmarshal => 4
    case Create => 5
  }

  /** One call to a collaborator, with its arguments. */
  datatype Call =
    | DecodeBody(body: string)
    | GetConfigMap(namespace: string, name: string)
    | RenderTemplate(definition: string, values: map<string, string>)
    | YamlToJson(yaml: string)
    | UnmarshalJob(json: string)
    | CreateJob(namespace: string, job: Job)
  {
    function Kind(): Step {
      match this
      case DecodeBody(_) => Decode
      case GetConfigMap(_, _) => Fetch
      case RenderTemplate(_, _) => Render
      case YamlToJson(_) => Convert
      case UnmarshalJob(_) => Unmarshal
      case CreateJob(_, _) => Create
    }
  }

  /** What a handler does to the response writer. */
  datatype Reply =
    | Silent                          // writes nothing: the server sends 200 with an empty body
    | HttpError(code: int, text: string)
    | JsonOK                          // the fixed reply of the GET handler
    | Panicked(reason: string)        // template.Must panicked

  /** The calls a request made, in order, and its reply. */
  datatype Outcome = Outcome(calls: seq<Call>, reply: Reply)

  const InvalidBodyText: string := "Invalid request body"
  const UnsupportedMethodPrefix: string := "Unsupported HTTP method: "
  const FetchErrorText: string := "Webhook error during retrieving configMap with job definitions"
  const ConvertErrorText: string := "Webhook error during creating a job"
  const UnmarshalErrorText: string := "Webhook error creating a job"
  const CreateErrorText: string := "Webhook error during creating a job"

  const FiringStatus: string := "firing"
  const ResolvedStatus: string := "resolved"
  const FiringJobAnnotation: string := "firing_job"
  const ResolvedJobAnnotation: string := "resolved_job"

  /** The steps of `calls` are the first |calls| steps of `order`. */
  predicate FollowsOrder(calls: seq<Call>, order: seq<Step>) {
    |calls| <= |order| && forall i | 0 <= i < |calls| :: calls[i].Kind() == order[i]
  }

  /** Go's map index: a missing key, or a nil map, yields "". */
  function Lookup(m: map<string, string>, key: string): string {
    if key in m then m[key] else ""
  }

  /** The job key an alert group is routed to: the annotation named after the
      status with "_job" appended, provided the status is firing or resolved
      and that annotation is non-empty; otherwise none. */
  function RouteKey(status: string, annotations: map<string, string>): (key: Option<string>)
    ensures key.Some? <==>
      (status == FiringStatus || status == ResolvedStatus) && Lookup(annotations, status + "_job") != ""
    ensures key.Some? ==> key.value == Lookup(annotations, status + "_job")
  {
    assert FiringStatus + "_job" == FiringJobAnnotation;
    assert ResolvedStatus + "_job" == ResolvedJobAnnotation;
    var firingJobKey := Lookup(annotations, FiringJobAnnotation);
    var resolvedJobKey := Lookup(annotations, ResolvedJobAnnotation);
    if |firingJobKey| > 0 && status == FiringStatus then Some(firingJobKey)
    else if |resolvedJobKey| > 0 && status == ResolvedStatus then Some(resolvedJobKey)
    else None
  }

  /** Submitting the job stored under `jobKey`: fetch the definitions, render
      the chosen one with the labels, convert it to JSON, unmarshal it into a
      Job and create it. Every failure but a template execution error answers
      500 and stops. */
  function Pipeline(s: Settings, x: Collaborators, labels: map<string, string>, jobKey: string): (o: Outcome)
    ensures 1 <= |o.calls| <= 5
    ensures o.calls[0] == GetConfigMap(s.configmapNamespace, s.responsesConfigmap)
    ensures o.reply.HttpError? ==> o.reply.code == StatusInternalServerError
    ensures !o.reply.JsonOK?
    ensures o.reply.Panicked? ==> |o.calls| == 2
    ensures o.reply.Silent? ==> |o.calls| == 5
    ensures |o.calls| == 5 ==> o.calls[4].CreateJob? && o.calls[4].namespace == s.jobDestinationNamespace
  {
    var fetch := GetConfigMap(s.configmapNamespace, s.responsesConfigmap);
    var fetched := x.getConfigMap(s.configmapNamespace, s.responsesConfigmap);
    if fetched.Failure? then Outcome([fetch], HttpError(StatusInternalServerError, FetchErrorText))
    else
      var definition := Lookup(fetched.value, jobKey);
      var render := RenderTemplate(definition, labels);
      var rendering := x.render(definition, labels);
      if rendering.ParseFailed? then Outcome([fetch, render], Panicked(rendering.parseError))
      else
        // an execution error is only logged: the buffer goes on as it is
        var text := rendering.output;
        var converted := x.yamlToJson(text);
        if converted.Failure? then
          Outcome([fetch, render, YamlToJson(text)], HttpError(StatusInternalServerError, ConvertErrorText))
        else
          var unmarshal := UnmarshalJob(converted.value);
          var decoded := x.unmarshalJob(converted.value);
          if decoded.Failure? then
            Outcome([fetch, render, YamlToJson(text), unmarshal], HttpError(StatusInternalServerError, UnmarshalErrorText))
          else
            var create := CreateJob(s.jobDestinationNamespace, decoded.value);
            var created := x.createJob(s.jobDestinationNamespace, decoded.value);
            var trace := [fetch, render, YamlToJson(text), unmarshal, create];
            if created.Failure? then Outcome(trace, HttpError(StatusInternalServerError, CreateErrorText))
            else Outcome(trace, Silent)
  }

  /** A POST: decode the body, route on status and annotations, and submit
      the routed job with the common labels. */
  function Post(s: Settings, x: Collaborators, body: string): (o: Outcome)
    ensures 1 <= |o.calls| && o.calls[0] == DecodeBody(body)
    ensures o.reply == HttpError(StatusBadRequest, InvalidBodyText) <==> x.decodeHook(body).Failure?
    ensures !o.reply.JsonOK?
    ensures |o.calls| > 1 <==>
      x.decodeHook(body).Success? &&
      RouteKey(x.decodeHook(body).value.status, x.decodeHook(body).value.commonAnnotations).Some?
  {
    var decode := DecodeBody(body);
    match x.decodeHook(body)
    case Failure(_) => Outcome([decode], HttpError(StatusBadRequest, InvalidBodyText))
    case Success(message) =>
      match RouteKey(message.status, message.commonAnnotations)
      case None => Outcome([decode], Silent)
      case Some(jobKey) =>
        var job := Pipeline(s, x, message.commonLabels, jobKey);
        Outcome([decode] + job.calls, job.reply)
  }

  /** The alerts endpoint: POST is handled, GET answers the fixed "OK", any
      other method is refused with 400. */
  function Handle(s: Settings, x: Collaborators, r: Request): (o: Outcome)
    ensures o.calls != [] <==> r.verb == MethodPost
    ensures o.reply.JsonOK? <==> r.verb == MethodGet
    ensures r.verb != MethodPost && r.verb != MethodGet ==>
      o.reply == HttpError(StatusBadRequest, UnsupportedMethodPrefix + r.verb)
  {
    if r.verb == MethodPost then Post(s, x, r.body)
    else if r.verb == MethodGet then Outcome([], JsonOK)
    else Outcome([], HttpError(StatusBadRequest, UnsupportedMethodPrefix + r.verb))
  }

  /** The writer after a handler has given `reply`: a silent handler leaves
      it as it was, a panic only marks it aborted, and an error or the GET
      reply appends its text to the body, sets its content type and fixes the
      status unless one was already written. */
  function Respond(w: WriterState, reply: Reply): (r: WriterState)
    ensures reply.Silent? ==> r == w
    ensures r.aborted <==> w.aborted || reply.Panicked?
    ensures reply.Panicked? ==> r.(aborted := w.aborted) == w
    ensures reply.HttpError? ==>
      r.wroteHeader && r.code == (if w.wroteHeader then w.code else reply.code) &&
      r.body == w.body + reply.text + "\n" &&
      "Content-Type" in r.header && r.header["Content-Type"] == "text/plain; charset=utf-8" &&
      "X-Content-Type-Options" in r.header && r.header["X-Content-Type-Options"] == "nosniff"
    ensures reply.JsonOK? ==>
      r.wroteHeader && r.code == (if w.wroteHeader then w.code else StatusOK) &&
      r.body == w.body + "\"OK\"\n" &&
      r.header == w.header["Content-Type" := "application/json"]
  {
    match reply
    case Silent => w
    case HttpError(code, text) => w.WithError(text, code)
    case JsonOK => w.SetHeader("Content-Type", "application/json").WriteHeader(StatusOK).Write("\"OK\"\n")
    case Panicked(_) => w.Abort()
  }

  /** How many calls in the trace are of the given step. */
  function Count(calls: seq<Call>, step: Step): (n: nat)
    ensures n <= |calls|
  {
    if calls == [] then 0
    else Count(calls[..|calls| - 1], step) + (if calls[|calls| - 1].Kind() == step then 1 else 0)
  }
}
