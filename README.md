# Alertmanager webhook receiver — request handling, in Dafny

The receiver listens on `/alerts` for Alertmanager notifications. A POST carries
an alert group. When the group is `firing` and its common annotations name a
`firing_job`, or it is `resolved` and they name a `resolved_job`, the receiver
does five things in order:

1. reads the job-definitions ConfigMap;
2. renders the named definition as a Go template, with the common labels bound
   to `Values`;
3. converts the YAML result to JSON;
4. unmarshals the JSON into a batch/v1 Job;
5. creates that Job in the destination namespace.

Every other alert group is ignored without an error. A GET answers 200 with
the JSON string `"OK"`, and any other method gets 400. At start-up the
receiver checks the `-log-level` flag against a whitelist of four names.

The model has these parts:

- `Webhook` holds the message types and the routing rule `RouteKey`. It also
  holds pure functions (`Pipeline`, `Post`, `Handle`) that give, for one
  request, the ordered trace of collaborator calls and the reply left on the
  response writer.
- `Receiver.ClientSet` is the receiver object. Its methods follow the Go
  handlers statement by statement. They record each collaborator call in
  `calls` and write to an `Http.ResponseWriter`. Each method is proved to make
  exactly the calls, and give exactly the reply, that the pure function gives.
- `WebhookProperties` proves what the endpoint promises: routing, step order,
  stopping at the first failure, the error replies, and the fixed GET reply.
- `Http` is the part of net/http the handlers use. `WriterState` is what a
  response writer holds: headers, status code, whether the header was
  written, body, and whether the handler panicked. `ResponseWriter` is the
  writer the handlers change in place, and `Error` is `http.Error`.
  `Webhook.Respond` says what each kind of reply does to a writer.
- `LogLevels` holds the whitelist check as a loop.

Each collaborator is a function-typed field of `Webhook.Collaborators` and
either succeeds with a value or fails. The collaborators are the JSON decoder,
the ConfigMap read, the template engine, YAML-to-JSON, unmarshalling into a Job,
and Job creation.

Three behaviours of the code that a reader may not expect:

- A template that fails to *parse* makes `template.Must` panic. It does not
  answer 500. The model records this as `Panicked`: the writer is marked
  aborted and nothing is written. Only an *execution* error is logged and
  ignored.
- The unmarshal failure answers "Webhook error creating a job". The YAML and
  create failures both answer "Webhook error during creating a job".
- A request submits at most one job, not exactly one. A request that is not
  routed submits none.

## Model

| member | source | states |
|---|---|---|
| `LogLevels.LogLevelContains` | main.go:132-140 | On the first match in the list, the name is handed to the level parser. With no match, the result is level 0 and "There was a wrong log level defined: <value>". For the configured list, it succeeds exactly for debug, info, warn and error. |
| `LogLevels.ParseLevel` | main.go:135 | Parsing gives no error exactly for the four level names. On an error the level is 0. |
| `Webhook.RouteKey` | main.go:183-194 | A job key is chosen iff the status is firing or resolved and the annotation "<status>_job" is non-empty. The key is that annotation's value, so firing never uses resolved_job and resolved never uses firing_job. |
| `Webhook.Pipeline` | main.go:208-269 | Job submission makes 1 to 5 calls. The ConfigMap read in the configured namespace comes first. Every error reply is 500. A panic comes right after rendering. A silent reply only follows the Create call, made in the destination namespace. |
| `Webhook.Post` | main.go:157-195 | Decoding comes first. The reply is 400 "Invalid request body" iff decoding failed. Calls go past decoding iff the message decoded and was routed. A POST never gives the GET reply. |
| `Webhook.Handle` | main.go:146-155 | Calls happen iff the method is POST. The JSON "OK" reply comes iff the method is GET. Any other method gets 400 "Unsupported HTTP method: <m>". |
| `Webhook.Respond` | main.go:146-269 | What a handler's reply leaves on the writer: silence leaves it untouched, which the server sends as an implicit 200. A panic only marks it aborted. An error appends its text and a newline, sets its code unless one was already written, and marks the content as plain text with nosniff. The GET reply appends `"OK"` and a newline, sets 200 the same way, and adds only the JSON content type. |
| `Http.WriterState.WithError` | main.go:166 | The effect of `http.Error`, used at main.go lines 153, 166, 214, 239, 247 and 259. The body gains the message and a newline. The status is the given code unless one was already written. Content-Length is removed. The content type is plain text with nosniff. Every other header is kept, and the aborted flag is unchanged. |
| `Http.Error` | main.go:153 | Calling `http.Error` on the response writer changes it exactly as `WithError` describes: Content-Length is deleted, Content-Type and nosniff are set, the header is written, and then the message and a newline. |
| `Receiver.ClientSet.constructor` | main.go:119-124 | The receiver keeps its configuration and collaborators and starts with no recorded calls. |
| `Receiver.ClientSet.AlertsHandler` | main.go:146-155 | The method dispatch appends exactly `Handle`'s calls and leaves the writer as `Handle`'s reply leaves it. |
| `Receiver.ClientSet.PostHandler` | main.go:157-195 | The Go branches on firing_job and resolved_job make exactly `Post`'s calls and reply. This ties the handler's branches to `RouteKey`. |
| `Receiver.ClientSet.GetHandler` | main.go:197-206 | Sets `Content-Type: application/json`, writes 200 and the body `"OK"` plus a newline. No call is recorded. |
| `Receiver.ClientSet.CreateResponseJob` | main.go:208-269 | The step-by-step pipeline with early returns makes exactly `Pipeline`'s calls and leaves exactly its reply on the writer. |
| `WebhookProperties.PipelineFollowsOrder` | main.go:211-256 | Job submission calls fetch, render, convert, unmarshal and create in that order, or a prefix of it. |
| `WebhookProperties.CallsFollowPipelineOrder` | main.go:159-256 | Every request's trace is a prefix of decode, fetch, render, convert, unmarshal, create. |
| `WebhookProperties.EachStepAtMostOnce` | main.go:187-256 | No request runs a step twice, so at most one Job is created per request. |
| `WebhookProperties.UndecodableBodyIsRejected` | main.go:163-168 | A body that fails to decode gets 400 "Invalid request body". Nothing is fetched or created. |
| `WebhookProperties.FiringAlertStartsItsJob` | main.go:183-188 | A firing group with a non-empty firing_job submits the job under that key with the common labels. The ConfigMap is read exactly once. |
| `WebhookProperties.ResolvedAlertStartsItsJob` | main.go:184-190 | A resolved group with a non-empty resolved_job submits the job under that key, whatever firing_job holds. The ConfigMap is read exactly once. |
| `WebhookProperties.UnroutedAlertIsSilent` | main.go:191-194 | Any other group is a silent no-op with no call after decoding and no write. This covers an unknown status, a missing or empty key, and a firing group with only resolved_job. |
| `WebhookProperties.OnlyCommonViewMatters` | main.go:170-190 | Two messages that agree on status, common labels and common annotations make the same calls after decoding and get the same reply. |
| `WebhookProperties.PipelineStopsAtFirstFailure` | main.go:211-261 | Every call but the last succeeded. An error or panic follows a failure of the last call, with the reply fixed for that step. Only a run where all five steps succeed is silent. |
| `WebhookProperties.StopsAtFirstFailure` | main.go:163-261 | The same holds for a whole POST, whose errors are 400 for decoding and 500 for the later steps. A silent POST either was not routed or ran all six steps. |
| `WebhookProperties.CreateFollowsSuccessfulSteps` | main.go:211-256 | A Create call comes only sixth. Before it, the body decoded, the group was routed, the ConfigMap was read, rendering did not panic, and conversion and unmarshalling succeeded. The Job created is the one unmarshalled from the converted rendering of the routed definition. |
| `WebhookProperties.MissingDefinitionRendersEmpty` | main.go:220 | A key missing from the ConfigMap is no error. The empty definition is rendered. |
| `WebhookProperties.ExecuteErrorOnlyLogged` | main.go:226-236 | Whatever template execution reports as an error, the calls and the reply are the same. The buffer is converted as it is. |
| `WebhookProperties.GetAlwaysAnswersOK` | main.go:197-206 | A GET calls nothing. On a fresh writer it gives 200, `Content-Type: application/json` and the body `"OK"` plus a newline. |
| `WebhookProperties.OtherMethodIsRejected` | main.go:152-153 | Any other method calls nothing. It gets 400 with the plain-text body "Unsupported HTTP method: <m>" plus a newline. |
| `WebhookProperties.FreshWriterReplies` | main.go:146-155 | What the client sees on a fresh writer. A silent reply is the server's implicit 200 with an empty body. An error reply carries its code, its text plus a newline, and the plain-text and nosniff headers. A panic sends nothing. |

## Left out

- Start-up in `main` (main.go:66-129) is not modelled: flag parsing, reading the namespace file, the in-cluster config and clientset, logger setup and `ListenAndServe`. These are environment and I/O plumbing. Only the whitelist check it calls is modelled.
- The health handler (main.go:142-144) is left out. It writes a constant.
- Logging has no effect on behaviour and is left out. This covers the alert name and status, labels and annotations, every error log, and the pretty-printed created Job.
- The request context and its cancellation are left out, as is concurrent handling of requests. The model handles one request at a time.
- Template text substitution and HTML escaping, YAML-to-JSON conversion, JSON decoding of the message, and unmarshalling into `batchv1.Job` are library internals. Each is a collaborator that succeeds or fails. A Job is an opaque value.
- The ConfigMap read and the Job creation are network calls. Each is a collaborator that succeeds or fails.
- `Receiver.ClientSet` keeps one set of collaborators for its lifetime. So across several requests to one object, the cluster's answers depend only on the call's arguments. The pure functions take the collaborators per request and do not have this restriction.
- `LogLevels.ParseLevel` knows only the four whitelisted names. logrus also accepts panic, fatal, warning, trace and upper-case spellings. The only call (main.go:99) passes the list of those four names, and the comparison is case-sensitive, so no other name reaches the parser. Called with another list, the model would reject a name such as "trace" that logrus accepts. The `%q` escaping of the parser's error text is not modelled.
- An error from encoding the GET reply is only logged in the source. The model's writer never fails.
- The response writer keeps a live header map. net/http sends the header as it was at the first write, but no handler changes headers after writing, so the two agree here. Header keys are written in canonical form and not canonicalised.
- A panic escaping a handler is recorded as the writer's `aborted` flag. net/http recovers it and closes the connection without a reply.
- `truncatedAlerts` is a Go `uint64` and is kept as an unbounded `nat`. The receiver never reads it.
