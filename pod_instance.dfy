/** Pod instances: the records a pod-instance deletion returns, the two
    identifier types that accept two JSON shapes, and the two delete calls. */
module PodInstances {
  import opened Wrappers
  import opened GoJson
  import opened Client

  /** PodInstanceID and PodTaskCondition are plain strings in Go. */
  type PodInstanceID = string
  type PodTaskCondition = string

  datatype PodInstance = PodInstance(
    instanceId: PodInstanceID,
    agentInfo: PodAgentInfo,
    tasksMap: Option<map<string, PodTask>>,  // None is a nil map
    runSpecVersion: Time,
    state: PodInstanceStateHistory,
    unreachableStrategy: Opaque)

  datatype PodInstanceStateHistory = PodInstanceStateHistory(
    condition: PodTaskCondition,
    since: Time,
    activeSince: Time,
    goal: string)

  datatype PodAgentInfo = PodAgentInfo(
    host: string,
    agentId: string,
    attributes: Slice<string>,
    region: string,
    zone: string)

  datatype PodTask = PodTask(taskId: string, runSpecVersion: Time, status: PodTaskStatus)

  datatype PodTaskStatus = PodTaskStatus(
    stagedAt: Time,
    startedAt: Time,
    mesosStatus: string,
    condition: PodTaskCondition,
    networkInfo: PodNetworkInfo)

  datatype PodNetworkInfo = PodNetworkInfo(
    hostName: string,
    hostPorts: Slice<GoInt>,
    ipAddresses: Slice<Opaque>)

  // ---------------------------------------------------------------------------
  // PodInstanceID: {"idString": s} or "s"

  /** Decoding into the local `struct { IDString string "idString" }`. */
  function DecodeIdStringObject(j: Json): Result<string, DecodeError> {
    match j
    case JNull => Ok("")
    case JObj(m) => Field(m, "idString", DecodeString, "")
    case _ => Err(TypeMismatch(KindOf(j), "struct"))
  }

  /** The identifier PodInstanceID.UnmarshalJSON stores: the wrapper object's
      `idString` when the input decodes as the wrapper, otherwise the input as a
      bare string; when neither works, the bare-string attempt's error. */
  function DecodeInstanceId(j: Json): (r: Result<PodInstanceID, DecodeError>)
    // the object shape is tried first, and wins whenever it decodes
    ensures DecodeIdStringObject(j).Ok? ==> r == DecodeIdStringObject(j)
    // a bare string is the identifier itself
    ensures j.JStr? ==> r == Ok(j.s)
    // the wrapper gives its idString; extra keys are ignored
    ensures j.JObj? && "idString" in j.fields && j.fields["idString"].JStr? ==> r == Ok(j.fields["idString"].s)
    // a missing or null idString, and a null input, give the empty identifier
    ensures j.JObj? && ("idString" !in j.fields || j.fields["idString"].JNull?) ==> r == Ok("")
    ensures j.JNull? ==> r == Ok("")
    // every other input is refused, with the bare-string attempt's error
    ensures r.Err? <==> (j.JNum? || j.JBool? || j.JArr?
                         || (j.JObj? && "idString" in j.fields
                             && !j.fields["idString"].JStr? && !j.fields["idString"].JNull?))
    ensures r.Err? ==> r.error == TypeMismatch(KindOf(j), "string")
  {
    match DecodeIdStringObject(j)
    case Ok(s) => Ok(s)
    case Err(_) => DecodeString(j)
  }

  /** A *PodInstanceID: the variable PodInstanceID.UnmarshalJSON assigns
      through its pointer receiver. */
  class PodInstanceIdRef {
    var value: PodInstanceID

    constructor (v: PodInstanceID)
      ensures value == v
    {
      value := v;
    }

    /** On success the decoded identifier replaces the stored one; on failure
        the error is returned and the stored identifier is left as it was. */
    method UnmarshalJSON(b: Json) returns (err: Option<DecodeError>)
      modifies this
      ensures DecodeInstanceId(b).Ok? ==> err == None && value == DecodeInstanceId(b).value
      ensures DecodeInstanceId(b).Err? ==> err == Some(DecodeInstanceId(b).error) && value == old(value)
    {
      match DecodeIdStringObject(b) {
        case Ok(idString) =>
          value := idString;
          err := None;
        case Err(_) =>
          match DecodeString(b) {
            case Err(e) =>
              err := Some(e);
            case Ok(idStr) =>
              value := idStr;
              err := None;
          }
      }
    }
  }

  // ---------------------------------------------------------------------------
  // PodTaskCondition: {"str": s} or "s"

  /** Decoding into the local `struct { Str string "str" }`. */
  function DecodeStrObject(j: Json): Result<string, DecodeError> {
    match j
    case JNull => Ok("")
    case JObj(m) => Field(m, "str", DecodeString, "")
    case _ => Err(TypeMismatch(KindOf(j), "struct"))
  }

  /** The condition PodTaskCondition.UnmarshalJSON computes (into its local
      copy): the same two-shape strategy with the key `str`. */
  function DecodeTaskCondition(j: Json): (r: Result<PodTaskCondition, DecodeError>)
    ensures DecodeStrObject(j).Ok? ==> r == DecodeStrObject(j)
    ensures j.JStr? ==> r == Ok(j.s)
    ensures j.JObj? && "str" in j.fields && j.fields["str"].JStr? ==> r == Ok(j.fields["str"].s)
    ensures j.JObj? && ("str" !in j.fields || j.fields["str"].JNull?) ==> r == Ok("")
    ensures j.JNull? ==> r == Ok("")
    ensures r.Err? <==> (j.JNum? || j.JBool? || j.JArr?
                         || (j.JObj? && "str" in j.fields
                             && !j.fields["str"].JStr? && !j.fields["str"].JNull?))
    ensures r.Err? ==> r.error == TypeMismatch(KindOf(j), "string")
  {
    match DecodeStrObject(j)
    case Ok(s) => Ok(s)
    case Err(_) => DecodeString(j)
  }

  /** A variable of type PodTaskCondition. Its UnmarshalJSON has a value
      receiver: it works on a copy, so what it decodes never reaches this
      variable, and only its error result is observable. The method has no
      modifies clause, so it changes no field of any existing object. */
  class PodTaskConditionVar {
    var value: PodTaskCondition

    constructor (v: PodTaskCondition)
      ensures value == v
    {
      value := v;
    }

    method UnmarshalJSON(b: Json) returns (err: Option<DecodeError>)
      ensures value == old(value)
      ensures err.None? <==> DecodeTaskCondition(b).Ok?
      ensures err.Some? ==> err.value == DecodeTaskCondition(b).error
      ensures err.Some? <==> (b.JNum? || b.JBool? || b.JArr?
                              || (b.JObj? && "str" in b.fields
                                  && !b.fields["str"].JStr? && !b.fields["str"].JNull?))
    {
      // The source assigns the decoded string to its receiver, a copy that is
      // dropped on return, so only the error reaches the caller.
      match DecodeStrObject(b) {
        case Ok(_) =>
          err := None;
        case Err(_) =>
          match DecodeString(b) {
            case Err(e) =>
              err := Some(e);
            case Ok(_) =>
              err := None;
          }
      }
    }
  }

  // ---------------------------------------------------------------------------
  // Record decoders (the result targets of the delete calls)

  const ZeroAgentInfo := PodAgentInfo("", "", Nil, "", "")
  const ZeroNetworkInfo := PodNetworkInfo("", Nil, Nil)
  const ZeroTaskStatus := PodTaskStatus(ZeroTime, ZeroTime, "", "", ZeroNetworkInfo)
  const ZeroTask := PodTask("", ZeroTime, ZeroTaskStatus)
  const ZeroStateHistory := PodInstanceStateHistory("", ZeroTime, ZeroTime, "")
  const ZeroPodInstance := PodInstance("", ZeroAgentInfo, None, ZeroTime, ZeroStateHistory, Opaque(map[]))

  function DecodeInts(j: Json): Result<Slice<GoInt>, DecodeError> {
    DecodeSlice(j, DecodeInt)
  }

  function DecodeOpaques(j: Json): Result<Slice<Opaque>, DecodeError> {
    DecodeSlice(j, DecodeOpaque)
  }

  /** null and an object without any of the agent's keys decode to the zero
      agent; anything but an object or null is a type mismatch. An object
      decodes exactly when each of its tagged keys fits its field, and then
      each field receives its key's value (unknown keys are ignored). */
  function DecodeAgentInfo(j: Json): (r: Result<PodAgentInfo, DecodeError>)
    ensures j.JNull? ==> r == Ok(ZeroAgentInfo)
    ensures j.JObj? && j.fields.Keys !! {"host", "agentId", "attributes", "region", "zone"} ==> r == Ok(ZeroAgentInfo)
    ensures !j.JNull? && !j.JObj? ==> r == Err(TypeMismatch(KindOf(j), "PodAgentInfo"))
    ensures j.JObj? ==> (r.Ok? <==>
      && FieldFits(j.fields, "host", DecodeString)
      && FieldFits(j.fields, "agentId", DecodeString)
      && FieldFits(j.fields, "attributes", DecodeStrings)
      && FieldFits(j.fields, "region", DecodeString)
      && FieldFits(j.fields, "zone", DecodeString))
    ensures j.JObj? && r.Ok? ==>
      && FieldGets(j.fields, "host", DecodeString, "", r.value.host)
      && FieldGets(j.fields, "agentId", DecodeString, "", r.value.agentId)
      && FieldGets(j.fields, "attributes", DecodeStrings, Nil, r.value.attributes)
      && FieldGets(j.fields, "region", DecodeString, "", r.value.region)
      && FieldGets(j.fields, "zone", DecodeString, "", r.value.zone)
  {
    match j
    case JNull => Ok(ZeroAgentInfo)
    case JObj(m) =>
      var host :- Field(m, "host", DecodeString, "");
      var agentId :- Field(m, "agentId", DecodeString, "");
      var attributes :- Field(m, "attributes", DecodeStrings, Nil);
      var region :- Field(m, "region", DecodeString, "");
      var zone :- Field(m, "zone", DecodeString, "");
      Ok(PodAgentInfo(host, agentId, attributes, region, zone))
    case _ => Err(TypeMismatch(KindOf(j), "PodAgentInfo"))
  }

  /** null and an object without any of the network keys decode to the zero
      network info; anything but an object or null is a type mismatch. An
      object decodes exactly when each tagged key fits its field, and then each
      field receives its key's value. */
  function DecodeNetworkInfo(j: Json): (r: Result<PodNetworkInfo, DecodeError>)
    ensures j.JNull? ==> r == Ok(ZeroNetworkInfo)
    ensures j.JObj? && j.fields.Keys !! {"hostName", "hostPorts", "ipAddresses"} ==> r == Ok(ZeroNetworkInfo)
    ensures !j.JNull? && !j.JObj? ==> r == Err(TypeMismatch(KindOf(j), "PodNetworkInfo"))
    ensures j.JObj? ==> (r.Ok? <==>
      && FieldFits(j.fields, "hostName", DecodeString)
      && FieldFits(j.fields, "hostPorts", DecodeInts)
      && FieldFits(j.fields, "ipAddresses", DecodeOpaques))
    ensures j.JObj? && r.Ok? ==>
      && FieldGets(j.fields, "hostName", DecodeString, "", r.value.hostName)
      && FieldGets(j.fields, "hostPorts", DecodeInts, Nil, r.value.hostPorts)
      && FieldGets(j.fields, "ipAddresses", DecodeOpaques, Nil, r.value.ipAddresses)
  {
    match j
    case JNull => Ok(ZeroNetworkInfo)
    case JObj(m) =>
      var hostName :- Field(m, "hostName", DecodeString, "");
      var hostPorts :- Field(m, "hostPorts", DecodeInts, Nil);
      var ipAddresses :- Field(m, "ipAddresses", DecodeOpaques, Nil);
      Ok(PodNetworkInfo(hostName, hostPorts, ipAddresses))
    case _ => Err(TypeMismatch(KindOf(j), "PodNetworkInfo"))
  }

  /** A PodTaskStatus. Its `condition` is handed to the value-receiver
      UnmarshalJSON, so the field keeps its zero value; a condition that
      decodes in neither shape still fails the whole record. */
  function DecodeTaskStatus(j: Json): (r: Result<PodTaskStatus, DecodeError>)
    ensures r.Ok? ==> r.value.condition == ""
    ensures j.JObj? && "condition" in j.fields && DecodeTaskCondition(j.fields["condition"]).Err? ==> r.Err?
    ensures j.JNull? ==> r == Ok(ZeroTaskStatus)
    ensures !j.JNull? && !j.JObj? ==> r == Err(TypeMismatch(KindOf(j), "PodTaskStatus"))
    ensures j.JObj? ==> (r.Ok? <==>
      && FieldFits(j.fields, "stagedAt", DecodeTime)
      && FieldFits(j.fields, "startedAt", DecodeTime)
      && FieldFits(j.fields, "mesosStatus", DecodeString)
      && FieldFits(j.fields, "condition", DecodeTaskCondition)
      && FieldFits(j.fields, "networkInfo", DecodeNetworkInfo))
    ensures j.JObj? && r.Ok? ==>
      && FieldGets(j.fields, "stagedAt", DecodeTime, ZeroTime, r.value.stagedAt)
      && FieldGets(j.fields, "startedAt", DecodeTime, ZeroTime, r.value.startedAt)
      && FieldGets(j.fields, "mesosStatus", DecodeString, "", r.value.mesosStatus)
      && FieldGets(j.fields, "networkInfo", DecodeNetworkInfo, ZeroNetworkInfo, r.value.networkInfo)
  {
    match j
    case JNull => Ok(ZeroTaskStatus)
    case JObj(m) =>
      var stagedAt :- Field(m, "stagedAt", DecodeTime, ZeroTime);
      var startedAt :- Field(m, "startedAt", DecodeTime, ZeroTime);
      var mesosStatus :- Field(m, "mesosStatus", DecodeString, "");
      var discarded :- Field(m, "condition", DecodeTaskCondition, "");
      var networkInfo :- Field(m, "networkInfo", DecodeNetworkInfo, ZeroNetworkInfo);
      Ok(PodTaskStatus(stagedAt, startedAt, mesosStatus, "", networkInfo))
    case _ => Err(TypeMismatch(KindOf(j), "PodTaskStatus"))
  }

  /** null and an object without any of the task's keys decode to the zero
      task; anything but an object or null is a type mismatch. An object
      decodes exactly when each tagged key fits its field, and then each field
      receives its key's value. */
  function DecodePodTask(j: Json): (r: Result<PodTask, DecodeError>)
    ensures j.JNull? ==> r == Ok(ZeroTask)
    ensures j.JObj? && j.fields.Keys !! {"taskId", "runSpecVersion", "status"} ==> r == Ok(ZeroTask)
    ensures !j.JNull? && !j.JObj? ==> r == Err(TypeMismatch(KindOf(j), "PodTask"))
    ensures j.JObj? ==> (r.Ok? <==>
      && FieldFits(j.fields, "taskId", DecodeString)
      && FieldFits(j.fields, "runSpecVersion", DecodeTime)
      && FieldFits(j.fields, "status", DecodeTaskStatus))
    ensures j.JObj? && r.Ok? ==>
      && FieldGets(j.fields, "taskId", DecodeString, "", r.value.taskId)
      && FieldGets(j.fields, "runSpecVersion", DecodeTime, ZeroTime, r.value.runSpecVersion)
      && FieldGets(j.fields, "status", DecodeTaskStatus, ZeroTaskStatus, r.value.status)
  {
    match j
    case JNull => Ok(ZeroTask)
    case JObj(m) =>
      var taskId :- Field(m, "taskId", DecodeString, "");
      var runSpecVersion :- Field(m, "runSpecVersion", DecodeTime, ZeroTime);
      var status :- Field(m, "status", DecodeTaskStatus, ZeroTaskStatus);
      Ok(PodTask(taskId, runSpecVersion, status))
    case _ => Err(TypeMismatch(KindOf(j), "PodTask"))
  }

  ghost function DecodeTasksMap(j: Json): Result<Option<map<string, PodTask>>, DecodeError> {
    DecodeMap(j, DecodePodTask)
  }

  /** A PodInstanceStateHistory; its `condition` is lost in the same way as
      PodTaskStatus's. */
  function DecodeStateHistory(j: Json): (r: Result<PodInstanceStateHistory, DecodeError>)
    ensures r.Ok? ==> r.value.condition == ""
    ensures j.JObj? && "condition" in j.fields && DecodeTaskCondition(j.fields["condition"]).Err? ==> r.Err?
    ensures j.JNull? ==> r == Ok(ZeroStateHistory)
    ensures !j.JNull? && !j.JObj? ==> r == Err(TypeMismatch(KindOf(j), "PodInstanceStateHistory"))
    ensures j.JObj? ==> (r.Ok? <==>
      && FieldFits(j.fields, "condition", DecodeTaskCondition)
      && FieldFits(j.fields, "since", DecodeTime)
      && FieldFits(j.fields, "activeSince", DecodeTime)
      && FieldFits(j.fields, "goal", DecodeString))
    ensures j.JObj? && r.Ok? ==>
      && FieldGets(j.fields, "since", DecodeTime, ZeroTime, r.value.since)
      && FieldGets(j.fields, "activeSince", DecodeTime, ZeroTime, r.value.activeSince)
      && FieldGets(j.fields, "goal", DecodeString, "", r.value.goal)
  {
    match j
    case JNull => Ok(ZeroStateHistory)
    case JObj(m) =>
      var discarded :- Field(m, "condition", DecodeTaskCondition, "");
      var since :- Field(m, "since", DecodeTime, ZeroTime);
      var activeSince :- Field(m, "activeSince", DecodeTime, ZeroTime);
      var goal :- Field(m, "goal", DecodeString, "");
      Ok(PodInstanceStateHistory("", since, activeSince, goal))
    case _ => Err(TypeMismatch(KindOf(j), "PodInstanceStateHistory"))
  }

  /** A PodInstance. Its identifier goes through PodInstanceID.UnmarshalJSON,
      so either identifier shape gives the same record. */
  ghost function DecodePodInstance(j: Json): (r: Result<PodInstance, DecodeError>)
    ensures j.JNull? ==> r == Ok(ZeroPodInstance)
    ensures r.Ok? && j.JObj? && "instanceId" in j.fields ==>
      DecodeInstanceId(j.fields["instanceId"]) == Ok(r.value.instanceId)
    ensures j.JObj? && "instanceId" in j.fields && DecodeInstanceId(j.fields["instanceId"]).Err? ==> r.Err?
    ensures r.Ok? ==> r.value.state.condition == ""
    ensures !j.JNull? && !j.JObj? ==> r == Err(TypeMismatch(KindOf(j), "PodInstance"))
    ensures j.JObj? ==> (r.Ok? <==>
      && FieldFits(j.fields, "instanceId", DecodeInstanceId)
      && FieldFits(j.fields, "agentInfo", DecodeAgentInfo)
      && FieldFits(j.fields, "tasksMap", DecodeTasksMap)
      && FieldFits(j.fields, "runSpecVersion", DecodeTime)
      && FieldFits(j.fields, "state", DecodeStateHistory)
      && FieldFits(j.fields, "unreachableStrategy", DecodeOpaque))
    ensures j.JObj? && r.Ok? ==>
      && FieldGets(j.fields, "instanceId", DecodeInstanceId, "", r.value.instanceId)
      && FieldGets(j.fields, "agentInfo", DecodeAgentInfo, ZeroAgentInfo, r.value.agentInfo)
      && FieldGets(j.fields, "tasksMap", DecodeTasksMap, None, r.value.tasksMap)
      && FieldGets(j.fields, "runSpecVersion", DecodeTime, ZeroTime, r.value.runSpecVersion)
      && FieldGets(j.fields, "state", DecodeStateHistory, ZeroStateHistory, r.value.state)
      && FieldGets(j.fields, "unreachableStrategy", DecodeOpaque, Opaque(map[]), r.value.unreachableStrategy)
  {
    match j
    case JNull => Ok(ZeroPodInstance)
    case JObj(m) =>
      var instanceId :- Field(m, "instanceId", DecodeInstanceId, "");
      var agentInfo :- Field(m, "agentInfo", DecodeAgentInfo, ZeroAgentInfo);
      var tasksMap :- Field(m, "tasksMap", DecodeTasksMap, None);
      var runSpecVersion :- Field(m, "runSpecVersion", DecodeTime, ZeroTime);
      var state :- Field(m, "state", DecodeStateHistory, ZeroStateHistory);
      var unreachableStrategy :- Field(m, "unreachableStrategy", DecodeOpaque, Opaque(map[]));
      Ok(PodInstance(instanceId, agentInfo, tasksMap, runSpecVersion, state, unreachableStrategy))
    case _ => Err(TypeMismatch(KindOf(j), "PodInstance"))
  }

  /** The element type of DeletePodInstances' result, []*PodInstance: a null
      element is a nil pointer. */
  ghost function DecodePodInstancePtr(j: Json): Result<Option<PodInstance>, DecodeError> {
    DecodePtr(j, DecodePodInstance)
  }

  ghost function DecodePodInstanceList(j: Json): Result<Slice<Option<PodInstance>>, DecodeError> {
    DecodeSlice(j, DecodePodInstancePtr)
  }

  /** A condition sent as a plain string, or as {"str": ...}, never reaches a
      decoded state history. */
  lemma RunningConditionIsDropped(shape: Json)
    requires shape == JStr("running") || shape == JObj(map["str" := JStr("running")])
    ensures DecodeTaskCondition(shape) == Ok("running")
    ensures DecodeStateHistory(JObj(map["condition" := shape, "goal" := JStr("running")]))
            == Ok(PodInstanceStateHistory("", ZeroTime, ZeroTime, "running"))
  {
  }

  // ---------------------------------------------------------------------------
  // Paths and the delete calls

  /** buildPodInstancesURI: the pod's instances resource, made of the pods
      base path and '/', the pod name without its leading '/', and the suffix
      "::instances". */
  function BuildPodInstancesUri(path: string): (uri: string)
    ensures |uri| == |MarathonApiPods| + 1 + |TrimRootPath(path)| + 11
    ensures uri[..|MarathonApiPods| + 1] == MarathonApiPods + "/"
    ensures uri[|MarathonApiPods| + 1..|uri| - 11] == TrimRootPath(path)
    ensures uri[|uri| - 11..] == "::instances"
  {
    var uri := MarathonApiPods + "/" + TrimRootPath(path) + "::instances";
    assert uri[|MarathonApiPods| + 1..|uri| - 11] == TrimRootPath(path);
    uri
  }

  /** "/fake-pod" and "fake-pod" name the same resource. */
  lemma PodInstancesUriIgnoresRootSlash(name: string)
    requires |name| == 0 || name[0] != '/'
    ensures BuildPodInstancesUri("/" + name) == BuildPodInstancesUri(name)
  {
    TrimRootPathOfSlash(name);
  }

  /** Two pod names give the same URI exactly when they are the same name once
      the leading '/' is stripped. */
  lemma PodInstancesUriInjective(a: string, b: string)
    ensures BuildPodInstancesUri(a) == BuildPodInstancesUri(b) <==> TrimRootPath(a) == TrimRootPath(b)
  {
    if BuildPodInstancesUri(a) == BuildPodInstancesUri(b) {
      var ua, ub := BuildPodInstancesUri(a), BuildPodInstancesUri(b);
      var lo := |MarathonApiPods| + 1;
      assert TrimRootPath(a) == ua[lo..|ua| - 11];
      assert TrimRootPath(b) == ub[lo..|ub| - 11];
    }
  }

  function DeletePodInstanceRequest(name: string, instance: string): (req: Request)
    ensures req.verb == Delete && req.body == None
    ensures req.path == BuildPodInstancesUri(name) + "/" + instance
  {
    Request(Delete, BuildPodInstancesUri(name) + "/" + instance, None)
  }

  /** The instance list is the request body: a nil list is sent as null and
      any other list as an array of its names, in order. */
  function DeletePodInstancesRequest(name: string, instances: Slice<string>): (req: Request)
    ensures req.verb == Delete && req.path == BuildPodInstancesUri(name)
    ensures req.body.Some?
    ensures instances.Nil? <==> req.body.value == JNull
    ensures instances.Of? ==>
      && req.body.value.JArr? && |req.body.value.items| == |instances.elems|
      && forall k :: 0 <= k < |instances.elems| ==> req.body.value.items[k] == JStr(instances.elems[k])
  {
    Request(Delete, BuildPodInstancesUri(name), Some(EncodeSlice(instances, EncodeString)))
  }

  /** DeletePodInstance: on failure no instance and the call's error; on
      success the server's snapshot of the deleted instance. */
  ghost function DeletePodInstance(send: Transport, name: string, instance: string): (r: Result<PodInstance, ApiError>)
    ensures send(DeletePodInstanceRequest(name, instance)).Err? ==>
      r == Err(send(DeletePodInstanceRequest(name, instance)).error)
    ensures r.Ok? <==> send(DeletePodInstanceRequest(name, instance)).Ok?
                       && DecodePodInstance(send(DeletePodInstanceRequest(name, instance)).value).Ok?
    ensures r.Ok? ==> DecodePodInstance(send(DeletePodInstanceRequest(name, instance)).value) == Ok(r.value)
    ensures send(DeletePodInstanceRequest(name, instance)).Ok?
            && DecodePodInstance(send(DeletePodInstanceRequest(name, instance)).value).Err? ==>
      r == Err(DecodeFailure(DecodePodInstance(send(DeletePodInstanceRequest(name, instance)).value).error))
  {
    CallInto(send, DeletePodInstanceRequest(name, instance), DecodePodInstance)
  }

  /** DeletePodInstances: on failure no list and the call's error; on success
      the list the server returned, in the server's order. */
  ghost function DeletePodInstances(send: Transport, name: string, instances: Slice<string>): (r: Result<Slice<Option<PodInstance>>, ApiError>)
    ensures send(DeletePodInstancesRequest(name, instances)).Err? ==>
      r == Err(send(DeletePodInstancesRequest(name, instances)).error)
    ensures r.Ok? <==> send(DeletePodInstancesRequest(name, instances)).Ok?
                       && DecodePodInstanceList(send(DeletePodInstancesRequest(name, instances)).value).Ok?
    ensures r.Ok? ==> DecodePodInstanceList(send(DeletePodInstancesRequest(name, instances)).value) == Ok(r.value)
    ensures send(DeletePodInstancesRequest(name, instances)).Ok?
            && DecodePodInstanceList(send(DeletePodInstancesRequest(name, instances)).value).Err? ==>
      r == Err(DecodeFailure(DecodePodInstanceList(send(DeletePodInstancesRequest(name, instances)).value).error))
  {
    CallInto(send, DeletePodInstancesRequest(name, instances), DecodePodInstanceList)
  }

  /** An instance identifier in either wire shape. */
  predicate IdShapeOf(j: Json, id: PodInstanceID) {
    j == JStr(id) || j == JObj(map["idString" := JStr(id)])
  }

  /** When the server answers the deletion with the instance it deleted, in
      either identifier shape, the returned instance carries the requested
      identifier. */
  lemma DeletedInstanceIdEchoed(send: Transport, name: string, instance: string, doc: map<string, Json>)
    requires send(DeletePodInstanceRequest(name, instance)) == Ok(JObj(doc))
    requires "instanceId" in doc && IdShapeOf(doc["instanceId"], instance)
    ensures DeletePodInstance(send, name, instance).Ok? ==>
      DeletePodInstance(send, name, instance).value.instanceId == instance
  {
    var r := DeletePodInstance(send, name, instance);
    if r.Ok? {
      assert DecodePodInstance(JObj(doc)) == Ok(r.value);
      assert DecodeInstanceId(doc["instanceId"]) == Ok(instance);
    }
  }

  /** The batch form: a one-element answer echoing the requested instance
      gives a one-element list whose first instance has that identifier. */
  lemma DeletedInstancesIdEchoed(send: Transport, name: string, instance: string, doc: map<string, Json>)
    requires send(DeletePodInstancesRequest(name, Of([instance]))) == Ok(JArr([JObj(doc)]))
    requires "instanceId" in doc && IdShapeOf(doc["instanceId"], instance)
    ensures var r := DeletePodInstances(send, name, Of([instance]));
      r.Ok? ==> r.value.Len() == 1 && r.value.elems[0].Some? && r.value.elems[0].value.instanceId == instance
  {
    var r := DeletePodInstances(send, name, Of([instance]));
    if r.Ok? {
      assert DecodePodInstanceList(JArr([JObj(doc)])) == Ok(r.value);
      var xs := DecodeArray([JObj(doc)], DecodePodInstancePtr);
      assert xs.Ok?;
      assert r.value == Of(xs.value);
      assert DecodePodInstancePtr(JObj(doc)) == Ok(xs.value[0]);
      assert DecodeInstanceId(doc["instanceId"]) == Ok(instance);
    }
  }
}
