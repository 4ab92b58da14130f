/** What the alerts endpoint promises, stated over the pure description of a
    request in module Webhook: routing, the order of the steps, early abort,
    the error replies and the fixed GET reply. */
module WebhookProperties {
  import opened Wrappers
  import opened Http
  import opened Webhook

  /** The call failed: the collaborator answered with an error, or, for the
      template engine, the definition did not parse. A template execution
      error is not a failure. */
  predicate Fails(x: Collaborators, c: Call) {
    match c
    case DecodeBody(body) => x.decodeHook(body).Failure?
    case GetConfigMap(namespace, name) => x.getConfigMap(namespace, name).Failure?
    case RenderTemplate(definition, values) => x.render(definition, values).ParseFailed?
    case YamlToJson(yaml) => x.yamlToJson(yaml).Failure?
    case UnmarshalJob(json) => x.unmarshalJob(json).Failure?
    case CreateJob(namespace, job) => x.createJob(namespace, job).Failure?
  }

  /** The error reply for a request whose last call, of the given step,
      failed; a template that does not parse panics instead. */
  function ErrorReply(step: Step): Option<Reply> {
    match step
    case Decode => Some(HttpError(StatusBadRequest, InvalidBodyText))
    case Fetch => Some(HttpError(StatusInternalServerError, FetchErrorText))
    case Render => None
    case Convert => Some(HttpError(StatusInternalServerError, ConvertErrorText))
    case Unmarshal => Some(HttpError(StatusInternalServerError, UnmarshalErrorText))
    case Create => Some(HttpError(StatusInternalServerError, CreateErrorText))
  }

  /** The same collaborators, except that template execution reports `err`. */
  function WithExecError(x: Collaborators, err: Option<string>): Collaborators {
    x.(render := (definition, values) =>
      match x.render(definition, values)
      case Executed(output, _) => Executed(output, err)
      case failed => failed)
  }

  /** Submitting a job calls fetch, render, convert, unmarshal and create in
      that order, stopping early or not. */
  lemma PipelineFollowsOrder(s: Settings, x: Collaborators, labels: map<string, string>, jobKey: string)
    ensures FollowsOrder(Pipeline(s, x, labels, jobKey).calls, JobSteps)
  {
  }

  /** Every request's calls are a prefix of decode, fetch, render, convert,
      unmarshal, create: no step runs before the one it depends on. */
  lemma CallsFollowPipelineOrder(s: Settings, x: Collaborators, r: Request)
    ensures FollowsOrder(Handle(s, x, r).calls, FullPipeline)
  {
    if r.verb == MethodPost && x.decodeHook(r.body).Success? {
      var m := x.decodeHook(r.body).value;
      var route := RouteKey(m.status, m.commonAnnotations);
      if route.Some? {
        var job := Pipeline(s, x, m.commonLabels, route.value);
        var calls := Handle(s, x, r).calls;
        assert calls == [DecodeBody(r.body)] + job.calls;
        PipelineFollowsOrder(s, x, m.commonLabels, route.value);
        forall i | 1 <= i < |calls| ensures calls[i].Kind() == FullPipeline[i] {
          assert calls[i] == job.calls[i - 1];
        }
      }
    }
  }

  /** A trace that follows the pipeline order holds each step at most once:
      exactly once when the trace reaches it. */
  lemma {:induction false} CountInOrder(calls: seq<Call>, step: Step)
    requires FollowsOrder(calls, FullPipeline)
    ensures Count(calls, step) == if Position(step) < |calls| then 1 else 0
  {
    if calls != [] {
      var init := calls[..|calls| - 1];
      assert FollowsOrder(init, FullPipeline) by {
        forall i | 0 <= i < |init| ensures init[i].Kind() == FullPipeline[i] {
          assert init[i] == calls[i];
        }
      }
      CountInOrder(init, step);
    }
  }

  /** No request decodes, fetches, renders, converts, unmarshals or creates
      more than once; in particular at most one Job is created per request. */
  lemma EachStepAtMostOnce(s: Settings, x: Collaborators, r: Request, step: Step)
    ensures Count(Handle(s, x, r).calls, step) <= 1
  {
    CallsFollowPipelineOrder(s, x, r);
    CountInOrder(Handle(s, x, r).calls, step);
  }

  /** A body that does not decode gets 400 "Invalid request body" and nothing
      is fetched or created. */
  lemma UndecodableBodyIsRejected(s: Settings, x: Collaborators, body: string)
    requires x.decodeHook(body).Failure?
    ensures Post(s, x, body) == Outcome([DecodeBody(body)], HttpError(StatusBadRequest, InvalidBodyText))
    ensures Count(Post(s, x, body).calls, Fetch) == 0 && Count(Post(s, x, body).calls, Create) == 0
  {
    CallsFollowPipelineOrder(s, x, Request(MethodPost, body));
    CountInOrder(Post(s, x, body).calls, Fetch);
    CountInOrder(Post(s, x, body).calls, Create);
  }

  /** A firing alert group with a non-empty firing_job annotation submits the
      job under that key, rendered with the common labels, exactly once. */
  lemma FiringAlertStartsItsJob(s: Settings, x: Collaborators, body: string)
    requires x.decodeHook(body).Success?
    requires x.decodeHook(body).value.status == FiringStatus
    requires Lookup(x.decodeHook(body).value.commonAnnotations, FiringJobAnnotation) != ""
    ensures
      var m := x.decodeHook(body).value;
      var job := Pipeline(s, x, m.commonLabels, Lookup(m.commonAnnotations, FiringJobAnnotation));
      Post(s, x, body) == Outcome([DecodeBody(body)] + job.calls, job.reply)
    ensures Count(Post(s, x, body).calls, Fetch) == 1
  {
    CallsFollowPipelineOrder(s, x, Request(MethodPost, body));
    CountInOrder(Post(s, x, body).calls, Fetch);
  }

  /** A resolved alert group with a non-empty resolved_job annotation submits
      the job under that key exactly once, whatever firing_job says. */
  lemma ResolvedAlertStartsItsJob(s: Settings, x: Collaborators, body: string)
    requires x.decodeHook(body).Success?
    requires x.decodeHook(body).value.status == ResolvedStatus
    requires Lookup(x.decodeHook(body).value.commonAnnotations, ResolvedJobAnnotation) != ""
    ensures
      var m := x.decodeHook(body).value;
      var job := Pipeline(s, x, m.commonLabels, Lookup(m.commonAnnotations, ResolvedJobAnnotation));
      Post(s, x, body) == Outcome([DecodeBody(body)] + job.calls, job.reply)
    ensures Count(Post(s, x, body).calls, Fetch) == 1
  {
    CallsFollowPipelineOrder(s, x, Request(MethodPost, body));
    CountInOrder(Post(s, x, body).calls, Fetch);
  }

  /** Any other alert group — unknown status, the matching annotation absent
      or empty, a firing group with only resolved_job — is a silent no-op:
      nothing is called after decoding and nothing is written. */
  lemma UnroutedAlertIsSilent(s: Settings, x: Collaborators, body: string)
    requires x.decodeHook(body).Success?
    requires
      var m := x.decodeHook(body).value;
      !(m.status == FiringStatus && Lookup(m.commonAnnotations, FiringJobAnnotation) != "") &&
      !(m.status == ResolvedStatus && Lookup(m.commonAnnotations, ResolvedJobAnnotation) != "")
    ensures Post(s, x, body) == Outcome([DecodeBody(body)], Silent)
    ensures Count(Post(s, x, body).calls, Fetch) == 0
  {
    CallsFollowPipelineOrder(s, x, Request(MethodPost, body));
    CountInOrder(Post(s, x, body).calls, Fetch);
  }

  /** Only the group-common view counts: two messages that agree on status,
      common labels and common annotations make the same calls after decoding
      and get the same reply, whatever their alerts and other fields say. */
  lemma OnlyCommonViewMatters(s: Settings, x: Collaborators, body1: string, body2: string)
    requires x.decodeHook(body1).Success? && x.decodeHook(body2).Success?
    requires x.decodeHook(body1).value.status == x.decodeHook(body2).value.status
    requires x.decodeHook(body1).value.commonLabels == x.decodeHook(body2).value.commonLabels
    requires x.decodeHook(body1).value.commonAnnotations == x.decodeHook(body2).value.commonAnnotations
    ensures Post(s, x, body1).calls[1..] == Post(s, x, body2).calls[1..]
    ensures Post(s, x, body1).reply == Post(s, x, body2).reply
  {
  }

  /** Every call but the last succeeded; an error or a panic follows a
      failure of the last call, with the reply fixed for its step; a silent
      reply follows no failure at all. */
  predicate StoppedAtFirstFailure(x: Collaborators, o: Outcome) {
    && |o.calls| >= 1
    && (forall i | 0 <= i < |o.calls| - 1 :: !Fails(x, o.calls[i]))
    && (o.reply.HttpError? ==>
          Fails(x, o.calls[|o.calls| - 1]) && ErrorReply(o.calls[|o.calls| - 1].Kind()) == Some(o.reply))
    && (o.reply.Panicked? ==>
          Fails(x, o.calls[|o.calls| - 1]) && o.calls[|o.calls| - 1].Kind() == Render)
    && (o.reply.Silent? ==> !Fails(x, o.calls[|o.calls| - 1]))
  }

  /** Submitting a job stops at its first failing step, and only a run in
      which all five steps succeeded is silent. */
  lemma PipelineStopsAtFirstFailure(s: Settings, x: Collaborators, labels: map<string, string>, jobKey: string)
    ensures StoppedAtFirstFailure(x, Pipeline(s, x, labels, jobKey))
    ensures Pipeline(s, x, labels, jobKey).reply.Silent? ==> |Pipeline(s, x, labels, jobKey).calls| == 5
  {
  }

  /** A POST stops at its first failing step; a silent POST either was not
      routed or ran all six steps. */
  lemma StopsAtFirstFailure(s: Settings, x: Collaborators, r: Request)
    requires r.verb == MethodPost
    ensures StoppedAtFirstFailure(x, Handle(s, x, r))
    ensures Handle(s, x, r).reply.Silent? ==> |Handle(s, x, r).calls| == 1 || |Handle(s, x, r).calls| == 6
  {
    var o := Handle(s, x, r);
    match x.decodeHook(r.body)
    case Failure(_) =>
    case Success(m) =>
      match RouteKey(m.status, m.commonAnnotations)
      case None =>
      case Some(key) =>
        var job := Pipeline(s, x, m.commonLabels, key);
        PipelineStopsAtFirstFailure(s, x, m.commonLabels, key);
        assert o.calls == [DecodeBody(r.body)] + job.calls;
        assert o.calls[|o.calls| - 1] == job.calls[|job.calls| - 1];
        forall i | 0 <= i < |o.calls| - 1 ensures !Fails(x, o.calls[i]) {
          if i > 0 {
            assert o.calls[i] == job.calls[i - 1];
          }
        }
  }

  /** A Job is created only as the last call of a request in which every
      earlier step succeeded: the body decoded, the alert was routed, the
      definitions were fetched, the rendered text converted, and the Job
      created is the one unmarshalled from it. */
  lemma CreateFollowsSuccessfulSteps(s: Settings, x: Collaborators, r: Request, i: nat)
    requires i < |Handle(s, x, r).calls| && Handle(s, x, r).calls[i].CreateJob?
    ensures r.verb == MethodPost && i == 5
    ensures x.decodeHook(r.body).Success?
    ensures
      var m := x.decodeHook(r.body).value;
      && RouteKey(m.status, m.commonAnnotations).Some?
      && x.getConfigMap(s.configmapNamespace, s.responsesConfigmap).Success?
      && var definition := Lookup(x.getConfigMap(s.configmapNamespace, s.responsesConfigmap).value,
                                  RouteKey(m.status, m.commonAnnotations).value);
         && x.render(definition, m.commonLabels).Executed?
         && var text := x.render(definition, m.commonLabels).output;
            && x.yamlToJson(text).Success?
            && x.unmarshalJob(x.yamlToJson(text).value).Success?
            && var job := x.unmarshalJob(x.yamlToJson(text).value).value;
               Handle(s, x, r).calls ==
                 [DecodeBody(r.body),
                  GetConfigMap(s.configmapNamespace, s.responsesConfigmap),
                  RenderTemplate(definition, m.commonLabels),
                  YamlToJson(text),
                  UnmarshalJob(x.yamlToJson(text).value),
                  CreateJob(s.jobDestinationNamespace, job)]
  {
    var o := Handle(s, x, r);
    assert o.calls[i].Kind() == FullPipeline[i];
    match x.decodeHook(r.body)
    case Failure(_) =>
    case Success(m) =>
      match RouteKey(m.status, m.commonAnnotations)
      case None =>
      case Some(key) =>
        var job := Pipeline(s, x, m.commonLabels, key);
        assert o.calls == [DecodeBody(r.body)] + job.calls;
  }

  /** A key missing from the ConfigMap is not an error: the empty definition
      is rendered. */
  lemma MissingDefinitionRendersEmpty(s: Settings, x: Collaborators, labels: map<string, string>, jobKey: string)
    requires x.getConfigMap(s.configmapNamespace, s.responsesConfigmap).Success?
    requires jobKey !in x.getConfigMap(s.configmapNamespace, s.responsesConfigmap).value
    ensures |Pipeline(s, x, labels, jobKey).calls| >= 2
    ensures Pipeline(s, x, labels, jobKey).calls[1] == RenderTemplate("", labels)
  {
  }

  /** A template execution error is only logged: whatever execution reports,
      the request makes the same calls and gets the same reply. */
  lemma ExecuteErrorOnlyLogged(s: Settings, x: Collaborators, labels: map<string, string>, jobKey: string, err: Option<string>)
    ensures Pipeline(s, WithExecError(x, err), labels, jobKey) == Pipeline(s, x, labels, jobKey)
  {
  }

  /** A GET always answers 200, as JSON, with the string "OK", and calls
      nothing. */
  lemma GetAlwaysAnswersOK(s: Settings, x: Collaborators, body: string)
    ensures Handle(s, x, Request(MethodGet, body)) == Outcome([], JsonOK)
    ensures
      var w := Respond(Fresh, JsonOK);
      w.wroteHeader && w.code == StatusOK && w.body == "\"OK\"\n" &&
      w.header == map["Content-Type" := "application/json"] && !w.aborted
  {
  }

  /** Any method other than POST and GET gets 400 naming the method, as
      plain text, and calls nothing. */
  lemma OtherMethodIsRejected(s: Settings, x: Collaborators, r: Request)
    requires r.verb != MethodPost && r.verb != MethodGet
    ensures Handle(s, x, r).calls == []
    ensures
      var w := Respond(Fresh, Handle(s, x, r).reply);
      w.wroteHeader && w.code == StatusBadRequest &&
      w.body == UnsupportedMethodPrefix + r.verb + "\n" &&
      w.header["Content-Type"] == "text/plain; charset=utf-8"
  {
  }

  /** What the client of a fresh writer sees for each reply: nothing written
      means the server's implicit 200 with an empty body; an error carries its
      code and text; a panic sends nothing. */
  lemma FreshWriterReplies(reply: Reply)
    ensures
      var w := Respond(Fresh, reply);
      match reply
      case Silent => !w.wroteHeader && w.code == StatusOK && w.body == "" && !w.aborted
      case HttpError(code, text) =>
        w.wroteHeader && w.code == code && w.body == text + "\n" &&
        w.header["Content-Type"] == "text/plain; charset=utf-8" &&
        w.header["X-Content-Type-Options"] == "nosniff" && !w.aborted
      case JsonOK => w.wroteHeader && w.code == StatusOK && w.body == "\"OK\"\n"
      case Panicked(_) => w.aborted && !w.wroteHeader && w.body == ""
  {
  }
}
