/** The receiver object and its HTTP handlers, written step by step as the
    handlers run, each proved to make exactly the calls and give exactly the
    reply that the pure description in module Webhook gives. */
module Receiver {
  import opened Wrappers
  import opened Http
  import opened Webhook

  /** The trace of a routed POST is regrouped: the decode call recorded first,
      followed by the job's calls, is the decode call prefixed to them. Stated
      once, because the solver is slow to find this regrouping inside the
      handler's proof. */
  lemma ConcatRegroups(before: seq<Call>, decode: Call, job: seq<Call>)
    ensures (before + [decode]) + job == before + ([decode] + job)
  {
  }

  /** The receiver: its configuration and the cluster client are fixed;
      `calls` is the record of every collaborator call made so far, in order. */
  class ClientSet {
    const settings: Settings
    const ext: Collaborators
    var calls: seq<Call>

    constructor (settings: Settings, ext: Collaborators)
      ensures this.settings == settings && this.ext == ext
      ensures calls == []
    {
      this.settings := settings;
      this.ext := ext;
      calls := [];
    }

    /** Dispatches on the HTTP method of the request. */
    method AlertsHandler(w: ResponseWriter, r: Request)
      modifies this, w
      ensures calls == old(calls) + Handle(settings, ext, r).calls
      ensures w.State() == Respond(old(w.State()), Handle(settings, ext, r).reply)
    {
      if r.verb == MethodPost {
        PostHandler(w, r.body);
      } else if r.verb == MethodGet {
        GetHandler(w);
      } else {
        Error(w, UnsupportedMethodPrefix + r.verb, StatusBadRequest);
      }
    }

    /** Decodes the alert message and starts the job its status and
        annotations call for, if any. */
    method PostHandler(w: ResponseWriter, body: string)
      modifies this, w
      ensures calls == old(calls) + Post(settings, ext, body).calls
      ensures w.State() == Respond(old(w.State()), Post(settings, ext, body).reply)
    {
      calls := calls + [DecodeBody(body)];
      var decoded := ext.decodeHook(body);
      if decoded.Failure? {
        Error(w, InvalidBodyText, StatusBadRequest);
        return;
      }
      var message := decoded.value;
      var status := message.status;

      var firingJobKey := Lookup(message.commonAnnotations, FiringJobAnnotation);
      var resolvedJobKey := Lookup(message.commonAnnotations, ResolvedJobAnnotation);

      if |firingJobKey| > 0 && status == FiringStatus {
        assert RouteKey(status, message.commonAnnotations) == Some(firingJobKey);
        CreateResponseJob(message.commonLabels, firingJobKey, w);
        ConcatRegroups(old(calls), DecodeBody(body), Pipeline(settings, ext, message.commonLabels, firingJobKey).calls);
      } else if |resolvedJobKey| > 0 && status == ResolvedStatus {
        assert RouteKey(status, message.commonAnnotations) == Some(resolvedJobKey);
        CreateResponseJob(message.commonLabels, resolvedJobKey, w);
        ConcatRegroups(old(calls), DecodeBody(body), Pipeline(settings, ext, message.commonLabels, resolvedJobKey).calls);
      } else {
        assert RouteKey(status, message.commonAnnotations) == None;
        return;
      }
    }

    /** Answers 200 with the JSON string "OK". */
    method GetHandler(w: ResponseWriter)
      modifies w
      ensures w.State() == Respond(old(w.State()), JsonOK)
    {
      w.SetHeader("Content-Type", "application/json");
      w.WriteHeader(StatusOK);
      w.Write("\"OK\"\n");
    }

    /** Fetches the job definitions, renders the one under `jobKey` with the
        labels, converts it and creates the Job, answering 500 at the first
        failing step. */
    method CreateResponseJob(commonLabels: map<string, string>, jobKey: string, w: ResponseWriter)
      modifies this, w
      ensures calls == old(calls) + Pipeline(settings, ext, commonLabels, jobKey).calls
      ensures w.State() == Respond(old(w.State()), Pipeline(settings, ext, commonLabels, jobKey).reply)
    {
      ghost var o := Pipeline(settings, ext, commonLabels, jobKey);
      var fetch := GetConfigMap(settings.configmapNamespace, settings.responsesConfigmap);
      calls := calls + [fetch];
      var configMap := ext.getConfigMap(settings.configmapNamespace, settings.responsesConfigmap);
      if configMap.Failure? {
        assert o == Outcome([fetch], HttpError(StatusInternalServerError, FetchErrorText));
        Error(w, FetchErrorText, StatusInternalServerError);
        return;
      }

      var jobDefinition := Lookup(configMap.value, jobKey);

      var render := RenderTemplate(jobDefinition, commonLabels);
      calls := calls + [render];
      assert calls == old(calls) + [fetch, render];
      var rendering := ext.render(jobDefinition, commonLabels);
      if rendering.ParseFailed? {
        // template.Must panics
        assert o.reply == Panicked(rendering.parseError);
        w.Abort();
        return;
      }
      // an execution error is only logged
      var buffer := rendering.output;

      var convert := YamlToJson(buffer);
      calls := calls + [convert];
      assert calls == old(calls) + [fetch, render, convert];
      var jsonBytes := ext.yamlToJson(buffer);
      if jsonBytes.Failure? {
        assert o.reply == HttpError(StatusInternalServerError, ConvertErrorText);
        Error(w, ConvertErrorText, StatusInternalServerError);
        return;
      }

      var unmarshal := UnmarshalJob(jsonBytes.value);
      calls := calls + [unmarshal];
      assert calls == old(calls) + [fetch, render, convert, unmarshal];
      var jobObject := ext.unmarshalJob(jsonBytes.value);
      if jobObject.Failure? {
        assert o.reply == HttpError(StatusInternalServerError, UnmarshalErrorText);
        Error(w, UnmarshalErrorText, StatusInternalServerError);
        return;
      }

      var create := CreateJob(settings.jobDestinationNamespace, jobObject.value);
      calls := calls + [create];
      assert calls == old(calls) + [fetch, render, convert, unmarshal, create];
      var result := ext.createJob(settings.jobDestinationNamespace, jobObject.value);
      if result.Failure? {
        assert o.reply == HttpError(StatusInternalServerError, CreateErrorText);
        Error(w, CreateErrorText, StatusInternalServerError);
        return;
      }
    }
  }
}
