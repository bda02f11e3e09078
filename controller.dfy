/**
  The ProgramA reconciler: validation and synthesis of a Deployment for one
  custom resource and a single create request (`createDeploymentForProgramA`),
  and the list-then-watch loop of `main` that applies that step to every
  listed item and then to every Added or Modified watch event.

  The pure part is specified by functions on values (`Plan`, `ApplyStore`,
  `ApplyRequests`, `ApplyReport` and their folds over a sequence of applied
  objects); the two methods change the API server step by step and are
  proved to agree with those functions.
*/
module Controller {
  import opened Wrappers
  import opened Unstructured
  import opened Workload
  import opened Cluster

  /** A watch event's object: an unstructured record, or some other runtime object. */
  datatype Payload = Record(obj: Object) | OtherObject

  /** `watch.EventType` */
  datatype EventType = Added | Modified | Deleted | Bookmark | Error

  datatype Event = Event(kind: EventType, payload: Payload)

  /** The result of the initial `List`: the items in list order, or an error. */
  datatype ListResult = Listed(items: seq<Object>) | ListFailed

  /** Why an instance was skipped before any request was made. */
  datatype ApplyError = SpecUnreadable | EnvVarValueUnreadable

  /** The line an apply reports: skipped, create refused, or created. */
  datatype Report =
    | Rejected(instance: string, reason: ApplyError)
    | CreateFailed(instance: string, error: CreateError)
    | Created(deployment: string)

  /* ---------- One apply ---------- */

  /** An instance the reconciler accepts: `spec` is a map holding a string `envVarValue`. */
  predicate WellFormed(obj: Object)
  {
    && "spec" in obj && obj["spec"].Obj?
    && "envVarValue" in obj["spec"].fields && obj["spec"].fields["envVarValue"].Str?
  }

  /**
    `spec.envVarValue`, read through the two accessors in the order the
    reconciler uses them: it is read exactly when the instance is well formed,
    and the spec error is reported exactly when `spec` is absent or not a map.
  */
  function ReadEnvVarValue(obj: Object): (r: Result<string, ApplyError>)
    ensures r.Success? <==> WellFormed(obj)
    ensures r.Success? ==> r.value == obj["spec"].fields["envVarValue"].s
    ensures r == Failure(SpecUnreadable) <==> !("spec" in obj && obj["spec"].Obj?)
  {
    NestedMapAtKey(obj, "spec");
    match NestedMap(obj, ["spec"])
    case Found(spec) =>
      NestedStringAtKey(spec, "envVarValue");
      (match NestedString(spec, ["envVarValue"])
       case Found(v) => Success(v)
       case _ => Failure(EnvVarValueUnreadable))
    case _ => Failure(SpecUnreadable)
  }

  /**
    The Deployment an apply would submit, or why it submits none: a Deployment
    is planned exactly for a well-formed instance, and otherwise the reason is
    the error of reading `spec.envVarValue`.
  */
  function Plan(obj: Object): (r: Result<Deployment, ApplyError>)
    ensures r.Success? <==> WellFormed(obj)
    ensures r.Failure? ==> r.error == ReadEnvVarValue(obj).error
  {
    match ReadEnvVarValue(obj)
    case Success(v) => Success(DeploymentFor(GetName(obj), GetNamespace(obj), v))
    case Failure(e) => Failure(e)
  }

  /**
    The store after one apply: a malformed instance leaves it alone; a
    well-formed one adds its Deployment's key, and stores the Deployment when
    the key was free; existing entries are never changed.
  */
  function ApplyStore(s: Store, obj: Object): (s': Store)
    ensures forall k :: k in s ==> k in s' && s'[k] == s[k]
    ensures !WellFormed(obj) ==> s' == s
    ensures WellFormed(obj) ==> s'.Keys == s.Keys + {KeyOf(Plan(obj).value)}
    ensures WellFormed(obj) && KeyOf(Plan(obj).value) !in s ==> s'[KeyOf(Plan(obj).value)] == Plan(obj).value
  {
    match Plan(obj)
    case Success(d) => StoreAfterCreate(s, d)
    case Failure(_) => s
  }

  /** The create requests one apply submits. */
  function ApplyRequests(obj: Object): (r: seq<Deployment>)
    ensures |r| <= 1
  {
    match Plan(obj)
    case Success(d) => [d]
    case Failure(_) => []
  }

  /**
    What one apply reports: a rejection under the instance's name with the
    read error for a malformed instance; otherwise the created Deployment's
    name when its key was free, and the conflict under the instance's name
    when it was taken.
  */
  function ApplyReport(s: Store, obj: Object): (r: Report)
    ensures r.Rejected? <==> !WellFormed(obj)
    ensures r.Rejected? ==> r.instance == GetName(obj) && r.reason == ReadEnvVarValue(obj).error
    ensures r.Created? <==> WellFormed(obj) && KeyOf(Plan(obj).value) !in s
    ensures r.Created? ==> r.deployment == GetName(obj) + NameSuffix
    ensures r.CreateFailed? ==> r.instance == GetName(obj) && r.error == AlreadyExists(KeyOf(Plan(obj).value))
  {
    match Plan(obj)
    case Failure(e) => Rejected(GetName(obj), e)
    case Success(d) =>
      match CreateResponse(s, d)
      case Success(created) => Created(created.name)
      case Failure(err) => CreateFailed(GetName(obj), err)
  }

  /* ---------- A sequence of applies ---------- */

  /** The store after applying `objs` in order; existing Deployments are never changed. */
  function StoreAfter(s: Store, objs: seq<Object>): (s': Store)
    ensures s.Keys <= s'.Keys
    ensures forall k :: k in s ==> s'[k] == s[k]
    decreases |objs|
  {
    if objs == [] then s else StoreAfter(ApplyStore(s, objs[0]), objs[1..])
  }

  /** The create requests of applying `objs` in order; at most one per object. */
  function Requests(objs: seq<Object>): (r: seq<Deployment>)
    ensures |r| <= |objs|
    decreases |objs|
  {
    if objs == [] then [] else ApplyRequests(objs[0]) + Requests(objs[1..])
  }

  /** The reports of applying `objs` in order; exactly one per object. */
  function Reports(s: Store, objs: seq<Object>): (r: seq<Report>)
    ensures |r| == |objs|
    decreases |objs|
  {
    if objs == [] then [] else [ApplyReport(s, objs[0])] + Reports(ApplyStore(s, objs[0]), objs[1..])
  }

  /* ---------- Event dispatch ---------- */

  /** The objects one watch event applies: its record for Added and Modified, nothing otherwise. */
  function Dispatch(e: Event): (r: seq<Object>)
    ensures |r| <= 1
  {
    match e.kind
    case Added | Modified =>
      (match e.payload
       case Record(obj) => [obj]
       case OtherObject => [])
    case Deleted | Bookmark | Error => []
  }

  /** The objects the watch phase applies, in delivery order. */
  function Watched(events: seq<Event>): (r: seq<Object>)
    ensures |r| <= |events|
    decreases |events|
  {
    if events == [] then [] else Dispatch(events[0]) + Watched(events[1..])
  }

  /** The objects the list phase applies: every listed item, or none when listing failed. */
  function ListedItems(list: ListResult): seq<Object>
  {
    match list
    case Listed(items) => items
    case ListFailed => []
  }

  /** Everything one run applies: the list phase, then the watch phase. */
  function Applied(list: ListResult, events: seq<Event>): seq<Object>
  {
    ListedItems(list) + Watched(events)
  }

  /* ---------- The reconciler ---------- */

  /** `createDeploymentForProgramA` */
  method CreateDeploymentForProgramA(server: ApiServer, obj: Object) returns (report: Report)
    modifies server
    ensures server.deployments == ApplyStore(old(server.deployments), obj)
    ensures server.requests == old(server.requests) + ApplyRequests(obj)
    ensures report == ApplyReport(old(server.deployments), obj)
  {
    var name := GetName(obj);
    var namespace := GetNamespace(obj);
    var spec := NestedMap(obj, ["spec"]);
    if !spec.Found? {
      return Rejected(name, SpecUnreadable);
    }
    var envVarValue := NestedString(spec.value, ["envVarValue"]);
    if !envVarValue.Found? {
      return Rejected(name, EnvVarValueUnreadable);
    }
    var deployment := DeploymentFor(name, namespace, envVarValue.value);
    var result := server.Create(deployment);
    if result.Failure? {
      return CreateFailed(name, result.error);
    }
    report := Created(result.value.name);
  }

  /** The loop over the listed items: apply each once, in list order. */
  method ApplyItems(server: ApiServer, items: seq<Object>) returns (reports: seq<Report>)
    modifies server
    ensures server.deployments == StoreAfter(old(server.deployments), items)
    ensures server.requests == old(server.requests) + Requests(items)
    ensures reports == Reports(old(server.deployments), items)
  {
    ghost var s0 := server.deployments;
    ghost var r0 := server.requests;
    reports := [];
    for i := 0 to |items|
      invariant server.deployments == StoreAfter(s0, items[..i])
      invariant server.requests == r0 + Requests(items[..i])
      invariant reports == Reports(s0, items[..i])
    {
      var report := CreateDeploymentForProgramA(server, items[i]);
      ApplyOneMore(s0, items[..i], items[i]);
      assert items[..i + 1] == items[..i] + [items[i]];
      reports := reports + [report];
    }
    assert items[..|items|] == items;
  }

  /** The list phase: a failed list applies nothing; otherwise every item is applied. */
  method ListPhase(server: ApiServer, list: ListResult) returns (reports: seq<Report>)
    modifies server
    ensures server.deployments == StoreAfter(old(server.deployments), ListedItems(list))
    ensures server.requests == old(server.requests) + Requests(ListedItems(list))
    ensures reports == Reports(old(server.deployments), ListedItems(list))
  {
    match list {
      case ListFailed =>
        reports := [];
      case Listed(items) =>
        reports := ApplyItems(server, items);
    }
  }

  /** One iteration of the watch loop: the `switch` on the event's type. */
  method HandleEvent(server: ApiServer, event: Event) returns (eventReports: seq<Report>)
    modifies server
    ensures server.deployments == StoreAfter(old(server.deployments), Dispatch(event))
    ensures server.requests == old(server.requests) + Requests(Dispatch(event))
    ensures eventReports == Reports(old(server.deployments), Dispatch(event))
  {
    eventReports := [];
    match event.kind {
      case Added =>
        if event.payload.Record? {
          var report := CreateDeploymentForProgramA(server, event.payload.obj);
          eventReports := [report];
        }
      case Modified =>
        if event.payload.Record? {
          var report := CreateDeploymentForProgramA(server, event.payload.obj);
          eventReports := [report];
        }
      case Deleted =>
      case Bookmark | Error =>
    }
  }

  /** The watch phase: dispatch every event, in delivery order, until the stream ends. */
  method WatchLoop(server: ApiServer, events: seq<Event>) returns (reports: seq<Report>)
    modifies server
    ensures server.deployments == StoreAfter(old(server.deployments), Watched(events))
    ensures server.requests == old(server.requests) + Requests(Watched(events))
    ensures reports == Reports(old(server.deployments), Watched(events))
  {
    ghost var s0 := server.deployments;
    ghost var r0 := server.requests;
    reports := [];
    for j := 0 to |events|
      invariant server.deployments == StoreAfter(s0, Watched(events[..j]))
      invariant server.requests == r0 + Requests(Watched(events[..j]))
      invariant reports == Reports(s0, Watched(events[..j]))
    {
      ghost var seen := Watched(events[..j]);
      var event := events[j];
      ghost var dispatched := Dispatch(event);
      var eventReports := HandleEvent(server, event);
      WatchedPrefixStep(events, j);
      StoreAfterAppend(s0, seen, dispatched);
      RequestLogAppend(r0, seen, dispatched);
      ReportsAppend(s0, seen, dispatched);
      reports := reports + eventReports;
    }
    assert events[..|events|] == events;
  }

  /**
    The list-then-watch body of `main`, from the point where the watch is
    established: apply every listed item (none when listing failed), then
    dispatch every event until the stream ends. Returns the reports in the
    order they are made.
  */
  method Run(server: ApiServer, list: ListResult, events: seq<Event>) returns (reports: seq<Report>)
    modifies server
    ensures server.deployments == StoreAfter(old(server.deployments), Applied(list, events))
    ensures server.requests == old(server.requests) + Requests(Applied(list, events))
    ensures reports == Reports(old(server.deployments), Applied(list, events))
  {
    ghost var s0 := server.deployments;
    ghost var r0 := server.requests;
    var listReports := ListPhase(server, list);
    var watchReports := WatchLoop(server, events);
    reports := listReports + watchReports;
    ghost var listed, watched := ListedItems(list), Watched(events);
    StoreAfterAppend(s0, listed, watched);
    RequestLogAppend(r0, listed, watched);
    ReportsAppend(s0, listed, watched);
  }

  /* ---------- Fold lemmas ---------- */

  /** Applying `a` then `b` to a store is applying `a + b`. */
  lemma {:induction false} StoreAfterAppend(s: Store, a: seq<Object>, b: seq<Object>)
    ensures StoreAfter(s, a + b) == StoreAfter(StoreAfter(s, a), b)
    decreases |a|
  {
    if a != [] {
      assert (a + b)[0] == a[0] && (a + b)[1..] == a[1..] + b;
      StoreAfterAppend(ApplyStore(s, a[0]), a[1..], b);
    } else {
      assert a + b == b;
    }
  }

  /** Concatenation regroups freely. */
  lemma ConcatAssoc<T>(x: seq<T>, y: seq<T>, z: seq<T>)
    ensures (x + y) + z == x + (y + z)
  {
  }

  /** The requests of `a + b` are those of `a` followed by those of `b`. */
  lemma {:induction false} RequestsAppend(a: seq<Object>, b: seq<Object>)
    ensures Requests(a + b) == Requests(a) + Requests(b)
    decreases |a|
  {
    if a != [] {
      assert (a + b)[0] == a[0] && (a + b)[1..] == a[1..] + b;
      var first, rest, later := ApplyRequests(a[0]), Requests(a[1..]), Requests(b);
      assert Requests(a + b) == first + Requests(a[1..] + b);
      assert Requests(a) == first + rest;
      RequestsAppend(a[1..], b);
      ConcatAssoc(first, rest, later);
    } else {
      assert a + b == b;
    }
  }

  /** A request log extended by the requests of `a`, then of `b`, holds the requests of `a + b`. */
  lemma RequestLogAppend(log: seq<Deployment>, a: seq<Object>, b: seq<Object>)
    ensures log + Requests(a + b) == (log + Requests(a)) + Requests(b)
  {
    RequestsAppend(a, b);
  }

  /** The reports of `a + b` are those of `a` followed by those of `b` from the store `a` leaves. */
  lemma {:induction false} ReportsAppend(s: Store, a: seq<Object>, b: seq<Object>)
    ensures Reports(s, a + b) == Reports(s, a) + Reports(StoreAfter(s, a), b)
    decreases |a|
  {
    if a != [] {
      assert (a + b)[0] == a[0] && (a + b)[1..] == a[1..] + b;
      var s1 := ApplyStore(s, a[0]);
      var first, rest, later := [ApplyReport(s, a[0])], Reports(s1, a[1..]), Reports(StoreAfter(s1, a[1..]), b);
      assert Reports(s, a + b) == first + Reports(s1, a[1..] + b);
      assert Reports(s, a) == first + rest;
      assert StoreAfter(s, a) == StoreAfter(s1, a[1..]);
      ReportsAppend(s1, a[1..], b);
      ConcatAssoc(first, rest, later);
    } else {
      assert a + b == b;
    }
  }

  /** Applying `a` then `b` is applying `a + b`, for the store, the requests and the reports. */
  lemma ApplyAppend(s: Store, a: seq<Object>, b: seq<Object>)
    ensures StoreAfter(s, a + b) == StoreAfter(StoreAfter(s, a), b)
    ensures Requests(a + b) == Requests(a) + Requests(b)
    ensures Reports(s, a + b) == Reports(s, a) + Reports(StoreAfter(s, a), b)
  {
    StoreAfterAppend(s, a, b);
    RequestsAppend(a, b);
    ReportsAppend(s, a, b);
  }

  /** One more apply at the end of a run. */
  lemma ApplyOneMore(s: Store, a: seq<Object>, obj: Object)
    ensures StoreAfter(s, a + [obj]) == ApplyStore(StoreAfter(s, a), obj)
    ensures Requests(a + [obj]) == Requests(a) + ApplyRequests(obj)
    ensures Reports(s, a + [obj]) == Reports(s, a) + [ApplyReport(StoreAfter(s, a), obj)]
  {
    var s' := StoreAfter(s, a);
    StoreAfterAppend(s, a, [obj]);
    RequestsAppend(a, [obj]);
    ReportsAppend(s, a, [obj]);
    assert [obj][1..] == [];
    assert StoreAfter(s', [obj]) == ApplyStore(s', obj);
    assert Requests([obj]) == ApplyRequests(obj) + [];
    assert Reports(s', [obj]) == [ApplyReport(s', obj)] + [];
  }

  /** The watch phase of `a + b` applies the objects of `a`, then those of `b`. */
  lemma {:induction false} WatchedAppend(a: seq<Event>, b: seq<Event>)
    ensures Watched(a + b) == Watched(a) + Watched(b)
    decreases |a|
  {
    if a != [] {
      assert (a + b)[0] == a[0] && (a + b)[1..] == a[1..] + b;
      WatchedAppend(a[1..], b);
    } else {
      assert a + b == b;
    }
  }

  /* ---------- Validation and one apply ---------- */

  /**
    An instance yields a Deployment exactly when it is well formed, and then
    the Deployment is the one synthesized from its name, namespace and
    `spec.envVarValue`; a missing or non-map `spec` is reported as such.
  */
  lemma PlanAcceptsExactlyWellFormed(obj: Object)
    ensures Plan(obj).Success? <==> WellFormed(obj)
    ensures WellFormed(obj) ==>
              Plan(obj) == Success(DeploymentFor(GetName(obj), GetNamespace(obj), obj["spec"].fields["envVarValue"].s))
    ensures Plan(obj) == Failure(SpecUnreadable) <==> !("spec" in obj && obj["spec"].Obj?)
  {
    NestedMapAtKey(obj, "spec");
    if "spec" in obj && obj["spec"].Obj? {
      NestedStringAtKey(obj["spec"].fields, "envVarValue");
    }
  }

  /** A malformed instance issues no request, leaves the store alone and reports one rejection. */
  lemma MalformedIsNoOp(s: Store, obj: Object)
    requires !WellFormed(obj)
    ensures ApplyRequests(obj) == []
    ensures ApplyStore(s, obj) == s
    ensures ApplyReport(s, obj).Rejected? && ApplyReport(s, obj).instance == GetName(obj)
  {
    PlanAcceptsExactlyWellFormed(obj);
  }

  /**
    A well-formed instance issues exactly one create request. It adds its
    Deployment when the key is free; otherwise the create is refused, the
    store is unchanged and the conflict is reported, with no retry.
  */
  lemma WellFormedRequestsOnce(s: Store, obj: Object)
    requires WellFormed(obj)
    ensures var d := DeploymentFor(GetName(obj), GetNamespace(obj), obj["spec"].fields["envVarValue"].s);
            && ApplyRequests(obj) == [d]
            && (KeyOf(d) !in s ==> ApplyStore(s, obj) == s[KeyOf(d) := d] && ApplyReport(s, obj) == Created(d.name))
            && (KeyOf(d) in s ==>
                  ApplyStore(s, obj) == s && ApplyReport(s, obj) == CreateFailed(GetName(obj), AlreadyExists(KeyOf(d))))
  {
    PlanAcceptsExactlyWellFormed(obj);
  }

  /** Top-level fields other than `metadata` and `spec` do not affect an apply. */
  lemma PlanIgnoresOtherFields(s: Store, obj: Object, key: string, v: Value)
    requires key != "metadata" && key != "spec"
    ensures GetName(obj[key := v]) == GetName(obj) && GetNamespace(obj[key := v]) == GetNamespace(obj)
    ensures Plan(obj[key := v]) == Plan(obj)
    ensures ApplyRequests(obj[key := v]) == ApplyRequests(obj)
    ensures ApplyStore(s, obj[key := v]) == ApplyStore(s, obj)
    ensures ApplyReport(s, obj[key := v]) == ApplyReport(s, obj)
  {
    var obj' := obj[key := v];
    MetadataStringReads(obj, "name");
    MetadataStringReads(obj', "name");
    MetadataStringReads(obj, "namespace");
    MetadataStringReads(obj', "namespace");
    PlanAcceptsExactlyWellFormed(obj);
    PlanAcceptsExactlyWellFormed(obj');
    NestedMapAtKey(obj, "spec");
    NestedMapAtKey(obj', "spec");
  }

  /** Metadata fields other than `name` and `namespace` do not affect an apply. */
  lemma PlanIgnoresOtherMetadata(s: Store, obj: Object, meta: map<string, Value>, key: string, v: Value)
    requires "metadata" in obj && obj["metadata"] == Obj(meta)
    requires key != "name" && key != "namespace"
    ensures GetName(obj["metadata" := Obj(meta[key := v])]) == GetName(obj) && GetNamespace(obj["metadata" := Obj(meta[key := v])]) == GetNamespace(obj)
    ensures Plan(obj["metadata" := Obj(meta[key := v])]) == Plan(obj)
    ensures ApplyRequests(obj["metadata" := Obj(meta[key := v])]) == ApplyRequests(obj)
    ensures ApplyStore(s, obj["metadata" := Obj(meta[key := v])]) == ApplyStore(s, obj)
    ensures ApplyReport(s, obj["metadata" := Obj(meta[key := v])]) == ApplyReport(s, obj)
  {
    var obj' := obj["metadata" := Obj(meta[key := v])];
    MetadataStringReads(obj, "name");
    MetadataStringReads(obj', "name");
    MetadataStringReads(obj, "namespace");
    MetadataStringReads(obj', "namespace");
    PlanAcceptsExactlyWellFormed(obj);
    PlanAcceptsExactlyWellFormed(obj');
    NestedMapAtKey(obj, "spec");
    NestedMapAtKey(obj', "spec");
  }

  /** Spec fields other than `envVarValue` do not affect an apply. */
  lemma PlanIgnoresOtherSpec(s: Store, obj: Object, spec: map<string, Value>, key: string, v: Value)
    requires "spec" in obj && obj["spec"] == Obj(spec)
    requires key != "envVarValue"
    ensures GetName(obj["spec" := Obj(spec[key := v])]) == GetName(obj) && GetNamespace(obj["spec" := Obj(spec[key := v])]) == GetNamespace(obj)
    ensures Plan(obj["spec" := Obj(spec[key := v])]) == Plan(obj)
    ensures ApplyRequests(obj["spec" := Obj(spec[key := v])]) == ApplyRequests(obj)
    ensures ApplyStore(s, obj["spec" := Obj(spec[key := v])]) == ApplyStore(s, obj)
    ensures ApplyReport(s, obj["spec" := Obj(spec[key := v])]) == ApplyReport(s, obj)
  {
    var obj' := obj["spec" := Obj(spec[key := v])];
    MetadataStringReads(obj, "name");
    MetadataStringReads(obj', "name");
    MetadataStringReads(obj, "namespace");
    MetadataStringReads(obj', "namespace");
    PlanAcceptsExactlyWellFormed(obj);
    PlanAcceptsExactlyWellFormed(obj');
  }

  /** Applying the same instance twice leaves the store as applying it once. */
  lemma ApplyIdempotent(s: Store, obj: Object)
    ensures ApplyStore(ApplyStore(s, obj), obj) == ApplyStore(s, obj)
  {
  }

  /**
    Two deliveries of the same well-formed instance give two create requests;
    when the first one created the Deployment, the second reports the conflict
    and the store is as after one delivery.
  */
  lemma DuplicateDeliveryTolerated(s: Store, obj: Object)
    requires WellFormed(obj)
    ensures |Requests([obj, obj])| == 2 && Requests([obj, obj])[0] == Requests([obj, obj])[1]
    ensures StoreAfter(s, [obj, obj]) == StoreAfter(s, [obj])
    ensures Reports(s, [obj, obj])[1] == CreateFailed(GetName(obj), AlreadyExists(KeyOf(Requests([obj, obj])[1])))
  {
    var d := DeploymentFor(GetName(obj), GetNamespace(obj), obj["spec"].fields["envVarValue"].s);
    WellFormedRequestsOnce(s, obj);
    var s1 := ApplyStore(s, obj);
    WellFormedRequestsOnce(s1, obj);
    assert [obj, obj][1..] == [obj] && [obj][1..] == [];
    assert Requests([obj, obj]) == [d] + ([d] + []);
    assert Reports(s, [obj, obj]) == [ApplyReport(s, obj)] + ([ApplyReport(s1, obj)] + []);
  }

  /* ---------- Runs ---------- */

  /** Every create request is a Deployment of the fixed shape. */
  lemma {:induction false} RequestsWellShaped(objs: seq<Object>)
    ensures forall d :: d in Requests(objs) ==> WellShaped(d)
    decreases |objs|
  {
    if objs != [] {
      RequestsWellShaped(objs[1..]);
    }
  }

  /** Each report is the one its object gets in the store left by the objects before it. */
  lemma {:induction false} ReportAt(s: Store, objs: seq<Object>, i: nat)
    requires i < |objs|
    ensures Reports(s, objs)[i] == ApplyReport(StoreAfter(s, objs[..i]), objs[i])
    decreases i
  {
    if i == 0 {
      assert objs[..0] == [];
    } else {
      ReportAt(ApplyStore(s, objs[0]), objs[1..], i - 1);
      assert objs[..i][0] == objs[0] && objs[..i][1..] == objs[1..][..i - 1];
    }
  }

  /** The position of the first Deployment in a request log with the given key. */
  function FirstWithKey(requests: seq<Deployment>, k: Key): (r: Option<nat>)
    ensures r.Some? ==> r.value < |requests| && KeyOf(requests[r.value]) == k
    ensures r.Some? ==> forall j :: 0 <= j < r.value ==> KeyOf(requests[j]) != k
    ensures r.None? <==> forall d :: d in requests ==> KeyOf(d) != k
    decreases |requests|
  {
    if requests == [] then None
    else if KeyOf(requests[0]) == k then Some(0)
    else
      match FirstWithKey(requests[1..], k)
      case None => None
      case Some(i) =>
        assert forall j :: 1 <= j < i + 1 ==> requests[j] == requests[1..][j - 1];
        Some(i + 1)
  }

  /** The first match in a log that starts with `d`: `d` itself, or the first match after it. */
  lemma FirstWithKeyCons(d: Deployment, later: seq<Deployment>, k: Key)
    ensures KeyOf(d) == k ==> FirstWithKey([d] + later, k) == Some(0) && ([d] + later)[0] == d
    ensures KeyOf(d) != k && FirstWithKey(later, k).None? ==> FirstWithKey([d] + later, k).None?
    ensures KeyOf(d) != k && FirstWithKey(later, k).Some? ==>
              var i := FirstWithKey(later, k).value;
              FirstWithKey([d] + later, k) == Some(i + 1) && ([d] + later)[i + 1] == later[i]
  {
    var log := [d] + later;
    assert log[0] == d && log[1..] == later;
    if KeyOf(d) != k {
      assert FirstWithKey(log, k) == match FirstWithKey(later, k) case None => None case Some(i) => Some(i + 1);
    }
  }

  /**
    The store after a run: an existing Deployment is kept unchanged; a new
    entry appears exactly for the keys of the run's create requests, and it
    holds the FIRST request with that key, so that later Modified events with
    a different envVarValue never change it.
  */
  lemma {:induction false} StoreAfterRun(s: Store, objs: seq<Object>, k: Key)
    ensures k in StoreAfter(s, objs) <==> k in s || FirstWithKey(Requests(objs), k).Some?
    ensures k in s ==> StoreAfter(s, objs)[k] == s[k]
    ensures k !in s && FirstWithKey(Requests(objs), k).Some? ==>
              StoreAfter(s, objs)[k] == Requests(objs)[FirstWithKey(Requests(objs), k).value]
    decreases |objs|
  {
    if objs != [] {
      var o, rest := objs[0], objs[1..];
      var s1 := ApplyStore(s, o);
      var later := Requests(rest);
      assert StoreAfter(s, objs) == StoreAfter(s1, rest);
      StoreAfterRun(s1, rest, k);
      match Plan(o)
      case Success(d) =>
        assert s1 == StoreAfterCreate(s, d);
        assert Requests(objs) == [d] + later;
        FirstWithKeyCons(d, later, k);
      case Failure(_) =>
        assert s1 == s;
        assert Requests(objs) == later;
    }
  }


  /** The positions of well-formed instances in a sequence of applied objects. */
  function WellFormedPositions(objs: seq<Object>): set<int>
  {
    set i | 0 <= i < |objs| && WellFormed(objs[i])
  }

  /** Appending an object adds its position exactly when it is well formed. */
  lemma WellFormedPositionsSnoc(objs: seq<Object>, last: Object)
    ensures WellFormedPositions(objs + [last])
            == WellFormedPositions(objs) + (if WellFormed(last) then {|objs|} else {})
  {
    var objs' := objs + [last];
    forall i | 0 <= i < |objs|
      ensures objs'[i] == objs[i]
    {
    }
    assert objs'[|objs|] == last;
  }

  /** There is one create request per well-formed applied object, and none for the others. */
  lemma {:induction false} RequestCount(objs: seq<Object>)
    ensures |Requests(objs)| == |WellFormedPositions(objs)|
    decreases |objs|
  {
    if objs != [] {
      var n := |objs| - 1;
      var init, last := objs[..n], objs[n];
      assert objs == init + [last];
      RequestCount(init);
      RequestsAppend(init, [last]);
      assert Requests([last]) == ApplyRequests(last) + [];
      PlanAcceptsExactlyWellFormed(last);
      WellFormedPositionsSnoc(init, last);
      assert n !in WellFormedPositions(init);
    }
  }

  /** A watch event that applies its object: an Added or Modified event carrying that record. */
  predicate Applies(e: Event, obj: Object)
  {
    (e.kind == Added || e.kind == Modified) && e.payload == Record(obj)
  }

  /** The watch phase applies an object exactly when some event applies it. */
  lemma {:induction false} WatchedExactly(events: seq<Event>, obj: Object)
    ensures obj in Watched(events) <==> exists i :: 0 <= i < |events| && Applies(events[i], obj)
    decreases |events|
  {
    if events != [] {
      WatchedExactly(events[1..], obj);
      if obj in Watched(events[1..]) {
        var i :| 0 <= i < |events[1..]| && Applies(events[1..][i], obj);
        assert Applies(events[i + 1], obj);
      }
      if exists i :: 0 <= i < |events| && Applies(events[i], obj) {
        var i :| 0 <= i < |events| && Applies(events[i], obj);
        if i > 0 {
          assert Applies(events[1..][i - 1], obj);
        }
      }
    }
  }

  /** One more event at the end of the stream applies what that event dispatches. */
  lemma WatchedPrefixStep(events: seq<Event>, j: nat)
    requires j < |events|
    ensures Watched(events[..j + 1]) == Watched(events[..j]) + Dispatch(events[j])
  {
    assert events[..j + 1] == events[..j] + [events[j]];
    WatchedAppend(events[..j], [events[j]]);
    assert Watched([events[j]]) == Dispatch(events[j]) + [];
  }

  /** The watch phase splits around any one event. */
  lemma WatchedSplitAt(events: seq<Event>, i: nat)
    requires i < |events|
    ensures Watched(events) == Watched(events[..i]) + (Dispatch(events[i]) + Watched(events[i + 1..]))
  {
    assert events == events[..i] + events[i..];
    WatchedAppend(events[..i], events[i..]);
    assert events[i..][0] == events[i] && events[i..][1..] == events[i + 1..];
  }

  /** An Added and a Modified event with the same payload have the same effect anywhere in the stream. */
  lemma AddedActsAsModified(events: seq<Event>, i: nat, p: Payload)
    requires i < |events|
    ensures Watched(events[i := Event(Added, p)]) == Watched(events[i := Event(Modified, p)])
  {
    var added, modified := events[i := Event(Added, p)], events[i := Event(Modified, p)];
    WatchedSplitAt(added, i);
    WatchedSplitAt(modified, i);
    assert added[..i] == modified[..i] && added[i + 1..] == modified[i + 1..];
  }

  /** A Deleted, Bookmark or Error event, or any event whose object is not a record, has no effect on the run. */
  lemma IgnoredEventHasNoEffect(events: seq<Event>, i: nat)
    requires i < |events|
    requires events[i].kind == Deleted || events[i].kind == Bookmark || events[i].kind == Error
             || events[i].payload == OtherObject
    ensures Watched(events[..i] + events[i + 1..]) == Watched(events)
  {
    var before, after := events[..i], events[i + 1..];
    assert Dispatch(events[i]) == [];
    WatchedSplitAt(events, i);
    assert Dispatch(events[i]) + Watched(after) == Watched(after);
    WatchedAppend(before, after);
  }

  /**
    The list phase runs first and to completion: a run is the list phase
    followed by the watch phase started from the listed store, the first
    reports are those of the listed items in list order, and a failed list
    leaves only the watch phase.
  */
  lemma ListThenWatch(s: Store, list: ListResult, events: seq<Event>)
    ensures StoreAfter(s, Applied(list, events)) == StoreAfter(StoreAfter(s, ListedItems(list)), Watched(events))
    ensures Requests(Applied(list, events)) == Requests(ListedItems(list)) + Requests(Watched(events))
    ensures Reports(s, Applied(list, events))[..|ListedItems(list)|] == Reports(s, ListedItems(list))
    ensures list.ListFailed? ==> Applied(list, events) == Watched(events)
  {
    ApplyAppend(s, ListedItems(list), Watched(events));
  }

  /**
    A run issues one create request per well-formed listed item plus one per
    Added or Modified event carrying a well-formed record.
  */
  lemma RunRequestCount(list: ListResult, events: seq<Event>)
    ensures |Requests(Applied(list, events))|
            == |WellFormedPositions(ListedItems(list))| + |WellFormedPositions(Watched(events))|
  {
    RequestsAppend(ListedItems(list), Watched(events));
    RequestCount(ListedItems(list));
    RequestCount(Watched(events));
  }

  /* ---------- Scenarios ---------- */

  /** The custom resource `programa-1` in `default` with envVarValue `instance-1`. */
  function ProgramaOne(): Object
  {
    map[
      "apiVersion" := Str("crds.example.com/v1"),
      "kind" := Str("ProgramA"),
      "metadata" := Obj(map["name" := Str("programa-1"), "namespace" := Str("default")]),
      "spec" := Obj(map["envVarValue" := Str("instance-1")])]
  }

  /** `programa-1` is well formed and plans `programa-1-deployment` in `default`. */
  lemma ProgramaOnePlan()
    ensures Plan(ProgramaOne()) == Success(DeploymentFor("programa-1", "default", "instance-1"))
    ensures DeploymentFor("programa-1", "default", "instance-1").name == "programa-1-deployment"
  {
    assert "programa-1" + NameSuffix == "programa-1-deployment";
    var obj := ProgramaOne();
    var meta := map["name" := Str("programa-1"), "namespace" := Str("default")];
    assert obj["metadata"] == Obj(meta) && obj["spec"] == Obj(map["envVarValue" := Str("instance-1")]);
    MetadataStringReads(obj, "name");
    MetadataStringReads(obj, "namespace");
    PlanAcceptsExactlyWellFormed(obj);
  }

  /** Listing `programa-1` at startup issues one create for `programa-1-deployment` in `default`. */
  lemma ListedInstanceIsCreated()
    ensures var d := DeploymentFor("programa-1", "default", "instance-1");
            && Requests(Applied(Listed([ProgramaOne()]), [])) == [d]
            && StoreAfter(map[], Applied(Listed([ProgramaOne()]), [])) == map[Key("default", "programa-1-deployment") := d]
            && d.containers[0].env == [EnvVar("MY_ENV_VAR", "instance-1")]
            && d.matchLabels == map["app" := "programa-1"]
            && d.replicas == Some(1)
  {
    var obj := ProgramaOne();
    var d := DeploymentFor("programa-1", "default", "instance-1");
    ProgramaOnePlan();
    assert Applied(Listed([obj]), []) == [obj];
    assert Requests([obj]) == [d] + Requests([]);
    assert StoreAfter(map[], [obj]) == StoreAfter(map[KeyOf(d) := d], []);
  }

  /** A Deleted event issues no request and leaves every Deployment as it was. */
  lemma DeletedEventChangesNothing(s: Store, p: Payload)
    ensures Watched([Event(Deleted, p)]) == []
    ensures StoreAfter(s, Applied(ListFailed, [Event(Deleted, p)])) == s
    ensures Requests(Applied(ListFailed, [Event(Deleted, p)])) == []
  {
    assert [Event(Deleted, p)][1..] == [];
  }

  /** A stream that closes at once ends the run after the list phase. */
  lemma EmptyStreamEndsAfterList(s: Store, list: ListResult)
    ensures Applied(list, []) == ListedItems(list)
  {
  }
}
