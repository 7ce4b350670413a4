/**
 * handlePostMessage: the HTTP ingress. It checks the method, decodes and
 * validates the body, hands the message to processMessage and turns the
 * outcome into a status code and a body.
 */
module Http {
  import opened Wrappers
  import opened Config
  import opened Directives
  import opened Queues
  import opened Dispatch

  const StatusOK: nat := 200
  const StatusBadRequest: nat := 400
  const StatusMethodNotAllowed: nat := 405
  const StatusInternalServerError: nat := 500

  /** A plain-text error body, or the JSON object of the success reply. */
  datatype Body = Text(text: string) | Json(status: string, message: string)

  datatype Response = Response(status: nat, body: Body)

  /** The request passes the handler's own checks and reaches processMessage. */
  predicate Accepted(httpMethod: string, body: Decoded)
  {
    httpMethod == "POST" && body.Decoded? && Resolve(body.msg).Some?
  }

  /** The handler's decision table. `dispatched` is processMessage's outcome
      and is consulted only for a request that reaches it. */
  function Respond(httpMethod: string, body: Decoded, dispatched: Option<Error>): (r: Response)
    ensures r.status == StatusMethodNotAllowed <==> httpMethod != "POST"
    ensures r.status == StatusBadRequest <==>
              httpMethod == "POST" && (body.Malformed? || (body.msg.up == "" && body.msg.down == "" && body.msg.restart == ""))
    ensures r.status == StatusInternalServerError <==> Accepted(httpMethod, body) && dispatched.Some?
    ensures r.status == StatusOK <==> Accepted(httpMethod, body) && dispatched.None?
    ensures r.status == StatusOK ==> r.body == Json("success", "Message processed successfully")
    ensures r.status == StatusMethodNotAllowed ==> r.body == Text("Method not allowed")
    ensures r.status == StatusBadRequest && body.Malformed? ==> r.body == Text("Invalid JSON: " + body.cause)
    ensures r.status == StatusBadRequest && body.Decoded? ==>
              r.body == Text("Message must contain either 'up', 'down', or 'restart' field")
    ensures r.status == StatusInternalServerError ==>
              r.body == Text("Failed to process message: " + ErrorText(dispatched.value))
  {
    if httpMethod != "POST" then
      Response(StatusMethodNotAllowed, Text("Method not allowed"))
    else if body.Malformed? then
      Response(StatusBadRequest, Text("Invalid JSON: " + body.cause))
    else if body.msg.up == "" && body.msg.down == "" && body.msg.restart == "" then
      Response(StatusBadRequest, Text("Message must contain either 'up', 'down', or 'restart' field"))
    else if dispatched.Some? then
      Response(StatusInternalServerError, Text("Failed to process message: " + ErrorText(dispatched.value)))
    else
      Response(StatusOK, Json("success", "Message processed successfully"))
  }

  /** handlePostMessage against the store. The re-encoding of the message for
      processMessage hands it the very record that was decoded. */
  method HandlePostMessage(store: Store<Notification>, reg: Registry, defaultQueue: string,
                           httpMethod: string, body: Decoded, fault: Option<string>)
    returns (resp: Response)
    modifies store
    ensures resp == Respond(httpMethod, body, Outcome(fault, reg, defaultQueue, body))
    ensures store.lists == if Accepted(httpMethod, body)
                           then Delivered(old(store.lists), fault, reg, defaultQueue, body)
                           else old(store.lists)
  {
    if httpMethod != "POST" {
      return Response(StatusMethodNotAllowed, Text("Method not allowed"));
    }
    if body.Malformed? {
      return Response(StatusBadRequest, Text("Invalid JSON: " + body.cause));
    }
    var msg := body.msg;
    if msg.up == "" && msg.down == "" && msg.restart == "" {
      return Response(StatusBadRequest, Text("Message must contain either 'up', 'down', or 'restart' field"));
    }
    var err := ProcessMessage(store, reg, defaultQueue, Decoded(msg), fault);
    if err.Some? {
      return Response(StatusInternalServerError, Text("Failed to process message: " + ErrorText(err.value)));
    }
    resp := Response(StatusOK, Json("success", "Message processed successfully"));
  }

  /** A request that reaches processMessage can fail there only for an unknown
      repository or a failed write: parsing and field checks already passed. */
  lemma ServerErrorCause(fault: Option<string>, reg: Registry, defaultQueue: string, body: Decoded)
    requires Respond("POST", body, Outcome(fault, reg, defaultQueue, body)).status == StatusInternalServerError
    ensures var e := Outcome(fault, reg, defaultQueue, body).value;
            (e.UnknownRepository? && e.repo == Resolve(body.msg).value.repo && e.repo !in reg)
            || (e.PushFailed? && fault == Some(e.cause))
  {
  }

  /** Both ingress paths agree: a 200 reply means the queue path would have
      appended the same work-order, and a reply other than 200 means the
      store is unchanged. */
  lemma HttpAgreesWithQueuePath(lists: Lists<Notification>, fault: Option<string>,
                                reg: Registry, defaultQueue: string,
                                httpMethod: string, body: Decoded)
    ensures var resp := Respond(httpMethod, body, Outcome(fault, reg, defaultQueue, body));
            var after := if Accepted(httpMethod, body) then Delivered(lists, fault, reg, defaultQueue, body) else lists;
            && (resp.status == StatusOK ==> after == Delivered(lists, fault, reg, defaultQueue, body) && after != lists)
            && (resp.status != StatusOK ==> after == lists)
  {
    var resp := Respond(httpMethod, body, Outcome(fault, reg, defaultQueue, body));
    if resp.status == StatusOK {
      var w := Plan(reg, defaultQueue, body).value;
      var after := Delivered(lists, fault, reg, defaultQueue, body);
      assert |Contents(after, w.queue)| == |Contents(lists, w.queue)| + 1;
    }
  }

  /** A project with one up command and no queue override. */
  function ScenarioProject(): Project
  {
    Project("org/app", "/srv/app", ["start.sh"], [], [], "")
  }

  /** An up request for a configured repository answers 200 and leaves one
      work-order on the default queue. */
  lemma ScenarioUp()
    ensures var reg := map["org/app" := ScenarioProject()];
            var body := Decoded(Message("org/app", "", ""));
            && Respond("POST", body, Outcome(None, reg, "poppit:notifications", body)).status == StatusOK
            && Delivered(map[], None, reg, "poppit:notifications", body)
               == map["poppit:notifications" := [Notification("org/app", "refs/heads/main", "service-up", "/srv/app", ["start.sh"])]]
  {
    var reg := map["org/app" := ScenarioProject()];
    var body := Decoded(Message("org/app", "", ""));
    var n := Notification("org/app", "refs/heads/main", "service-up", "/srv/app", ["start.sh"]);
    assert Resolve(body.msg) == Some(Directive("org/app", Up));
    assert "org/app" in reg && reg["org/app"] == ScenarioProject();
    assert "service-" + ActionName(Up) == "service-up";
    assert TargetQueue(ScenarioProject(), "poppit:notifications") == "poppit:notifications";
    assert Plan(reg, "poppit:notifications", body) == Success(WorkOrder("poppit:notifications", n));
    assert Contents<Notification>(map[], "poppit:notifications") == [];
    assert Outcome(None, reg, "poppit:notifications", body) == None;
    assert Respond("POST", body, None).status == StatusOK;
    assert Contents<Notification>(map[], "poppit:notifications") + [n] == [n];
  }

  /** A down request for an unknown repository answers 500 and writes nothing. */
  lemma ScenarioUnknownRepository(lists: Lists<Notification>)
    ensures var reg := map["org/app" := ScenarioProject()];
            var body := Decoded(Message("", "org/missing", ""));
            var resp := Respond("POST", body, Outcome(None, reg, "poppit:notifications", body));
            && resp.status == StatusInternalServerError
            && resp.body == Text("Failed to process message: " + ErrorText(UnknownRepository("org/missing")))
            && Delivered(lists, None, reg, "poppit:notifications", body) == lists
  {
    var body := Decoded(Message("", "org/missing", ""));
    assert Resolve(body.msg) == Some(Directive("org/missing", Down));
    assert |"org/missing"| != |"org/app"|;
    assert "org/missing" !in map["org/app" := ScenarioProject()];
    var e := Outcome(None, map["org/app" := ScenarioProject()], "poppit:notifications", body);
    assert e == Some(UnknownRepository("org/missing"));
    assert Respond("POST", body, e).status == StatusInternalServerError;
  }

  /** An empty object answers 400 naming the missing field. */
  lemma ScenarioEmptyMessage(reg: Registry, fault: Option<string>)
    ensures var body := Decoded(Message("", "", ""));
            Respond("POST", body, Outcome(fault, reg, "poppit:notifications", body))
            == Response(StatusBadRequest, Text("Message must contain either 'up', 'down', or 'restart' field"))
  {
  }
}
