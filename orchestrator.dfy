/**
 * The per-object operations of the manifest engine: create, get, update and
 * delete with a namespaced attempt followed by a cluster-wide one, the
 * scale-down of deployments before their deletion, and `executeRule`, which
 * resolves a document's resource type and runs the delete, create, or
 * create-then-recreate flow.
 *
 * Each operation is a method on the client handle, proved to do what a pure
 * function of the server state says (`Run`: new state, calls made, error).
 * The properties are proved about those functions.
 */
module Orchestrator {
  import opened Wrappers
  import opened Text
  import opened Kube
  import opened Resolver
  import opened Store

  /**
   * How an operation fails: with a Go `error` (its `Error()` text), or with a
   * runtime panic that ends the whole request.
   */
  datatype Fault = Error(message: string) | Panic(reason: string)

  /** An operation's effect: the server state after it, the calls it made in order, its error. */
  datatype Run = Run(state: State, events: seq<Event>, err: Option<Fault>)

  /** The effect of an operation that also returns an object. */
  datatype Fetch = Fetch(state: State, events: seq<Event>, got: Result<Object, Fault>)

  const NoClient := "mesh client has not been created"
  const CreateContext := "unable to create the requested resource, attempting to update"
  const DeleteContext := "unable to delete the requested resource"
  const GetContext := "unable to retrieve the resource with a matching name, while attempting to apply the config"
  const UpdateContext := "unable to update resource with the given name, while attempting to apply the config"
  /** The panic of the `spec` type assertion on a live deployment that has no `spec`. */
  const SpecNotMap := "interface conversion: interface {} is nil, not map[string]interface {}"

  /**
   * A call tried on the namespaced path and, when that fails, once more on
   * the cluster-wide path. The error of the first attempt is dropped (only
   * logged); the error of the second is returned, wrapped with `context`.
   */
  function Fallback(st: State, first: Request, second: Request, context: string): (f: Fetch)
    ensures Pause !in f.events
  {
    var (s1, r1) := Respond(st, first);
    if r1.Success? then Fetch(s1, [Sent(first)], Success(r1.value))
    else
      var (s2, r2) := Respond(s1, second);
      Fetch(s2, [Sent(first), Sent(second)],
        if r2.Success? then Success(r2.value) else Failure(Error(Wrap(context, r2.error))))
  }

  /**
   * The cluster-wide call is made exactly when the namespaced one fails; the
   * operation fails exactly when both do, with the second call's error.
   */
  lemma FallbackOutcome(st: State, first: Request, second: Request, context: string)
    ensures var f := Fallback(st, first, second, context);
      var (s1, r1) := Respond(st, first);
      var (s2, r2) := Respond(s1, second);
      f.events == (if r1.Success? then [Sent(first)] else [Sent(first), Sent(second)]) &&
      (f.got.Failure? <==> r1.Failure? && r2.Failure?) &&
      (f.got.Failure? ==> f.got.error == Error(Wrap(context, r2.error))) &&
      (f.got.Success? ==> f.got.value == if r1.Success? then r1.value else r2.value)
  {
  }

  /** An operation that returns an object, seen as one that only reports its error. */
  function Outcome(f: Fetch): Run {
    Run(f.state, f.events, if f.got.Failure? then Some(f.got.error) else None)
  }

  /**
   * `createResource`: create in the object's namespace, then cluster-wide.
   * A failed create has made both calls and changed no object; a successful
   * one has stored exactly one object under the document's name, in its
   * namespace or cluster-wide.
   */
  function CreateRun(st: State, res: Gvr, data: Object): (run: Run)
    ensures run.state.kinds == st.kinds
    ensures run.err.Some? ==> run.err.value.Error? && |run.events| == 2 && run.state.objects == st.objects
    ensures run.err.None? ==>
      run.state.objects.Keys == st.objects.Keys + {Key(res, data.namespace, data.name)} ||
      run.state.objects.Keys == st.objects.Keys + {Key(res, "", data.name)}
  {
    Outcome(Fallback(st, Create(res, data.namespace, data), Create(res, "", data), CreateContext))
  }

  /**
   * `getResource`: read by name in the object's namespace, then cluster-wide.
   * Reading changes no object, and what it returns is the object stored
   * under the document's name in one of the two places.
   */
  function GetRun(st: State, res: Gvr, data: Object): (f: Fetch)
    ensures f.state.kinds == st.kinds && f.state.objects == st.objects
    ensures f.got.Success? ==>
      (Key(res, data.namespace, data.name) in st.objects && f.got.value == st.objects[Key(res, data.namespace, data.name)]) ||
      (Key(res, "", data.name) in st.objects && f.got.value == st.objects[Key(res, "", data.name)])
  {
    Fallback(st, Get(res, data.namespace, data.name), Get(res, "", data.name), GetContext)
  }

  /**
   * `updateResource`: replace in the object's namespace, then cluster-wide.
   * An update never adds or removes an object, and a failed one changes none;
   * a successful one stores the document under its name, in its namespace or
   * cluster-wide.
   */
  function UpdateRun(st: State, res: Gvr, data: Object): (run: Run)
    ensures run.state.kinds == st.kinds && run.state.objects.Keys == st.objects.Keys
    ensures run.err.Some? ==> run.state.objects == st.objects
    ensures run.err.None? ==>
      run.state.objects == st.objects[Key(res, data.namespace, data.name) := data] ||
      run.state.objects == st.objects[Key(res, "", data.name) := data.(namespace := "")]
  {
    Outcome(Fallback(st, Update(res, data.namespace, data), Update(res, "", data), UpdateContext))
  }

  /**
   * The two delete calls that end `deleteResource`. A failed delete changes
   * no object; a successful one removes exactly the object of that name, in
   * the document's namespace or cluster-wide.
   */
  function DeleteCalls(st: State, res: Gvr, data: Object): (run: Run)
    ensures run.state.kinds == st.kinds
    ensures run.err.Some? ==> run.state.objects == st.objects
    ensures run.err.None? ==>
      run.state.objects.Keys == st.objects.Keys - {Key(res, data.namespace, data.name)} ||
      run.state.objects.Keys == st.objects.Keys - {Key(res, "", data.name)}
  {
    Outcome(Fallback(st, Delete(res, data.namespace, data.name), Delete(res, "", data.name), DeleteContext))
  }

  /** The live deployment with `spec.replicas` set to zero and everything else kept. */
  function ScaledDown(live: Object): (scaled: Object)
    requires live.spec.Some?
    ensures scaled.spec.Some? && scaled.spec.value.Keys == live.spec.value.Keys + {"replicas"}
    ensures scaled.spec.value["replicas"] == Number(0)
    ensures forall key :: key in live.spec.value && key != "replicas" ==>
      scaled.spec.value[key] == live.spec.value[key]
    ensures scaled.(spec := live.spec) == live
  {
    live.(spec := Some(live.spec.value["replicas" := Number(0)]))
  }

  /**
   * The scale-down that precedes the deletion of a deployment: read the live
   * object, set its `spec.replicas` to zero, and write it back. A live
   * object without a `spec` object makes the type assertion panic.
   */
  function ScaleRun(st: State, res: Gvr, data: Object): (run: Run)
    ensures Pause !in run.events && run.state.kinds == st.kinds
  {
    var g := GetRun(st, res, data);
    if g.got.Failure? then Run(g.state, g.events, Some(g.got.error))
    else if g.got.value.spec.None? then Run(g.state, g.events, Some(Panic(SpecNotMap)))
    else
      var u := UpdateRun(g.state, res, ScaledDown(g.got.value));
      Run(u.state, g.events + u.events, u.err)
  }

  /**
   * `deleteResource` on a connected client: the default namespace is never
   * deleted; a deployment is first scaled to zero replicas so that its
   * replica sets and pods go with it; then the delete calls.
   */
  function DeleteRun(st: State, res: Gvr, data: Object): (run: Run)
    ensures res.resource == "namespaces" && data.name == "default" ==> run == Run(st, [], None)
    ensures Pause !in run.events && run.state.kinds == st.kinds
  {
    if res.resource == "namespaces" && data.name == "default" then Run(st, [], None)
    else if res.resource == "deployments" then
      var s := ScaleRun(st, res, data);
      if s.err.Some? then s
      else
        var d := DeleteCalls(s.state, res, data);
        Run(d.state, s.events + d.events, d.err)
    else DeleteCalls(st, res, data)
  }

  /** The document with its namespace replaced by `namespace` when one is given. */
  function Placed(data: Object, namespace: string): (obj: Object)
    ensures obj.(namespace := data.namespace) == data
    ensures obj.namespace == if namespace != "" then namespace else data.namespace
  {
    if namespace != "" then data.(namespace := namespace) else data
  }

  /**
   * The flow of `executeRule` once the resource type is known: delete the
   * object, or create it; when the create fails during a custom operation,
   * delete it, pause a second, and create it again.
   */
  function Perform(st: State, res: Gvr, obj: Object, delete: bool, custom: bool): (run: Run)
    ensures multiset(run.events)[Pause] <= 1
    ensures Pause in run.events ==> !delete && custom
    ensures run.state.kinds == st.kinds
  {
    if delete then DeleteRun(st, res, obj)
    else
      var c := CreateRun(st, res, obj);
      if c.err.None? || !custom then c
      else
        var d := DeleteRun(c.state, res, obj);
        if d.err.Some? then Run(d.state, c.events + d.events, d.err)
        else
          var c2 := CreateRun(d.state, res, obj);
          Run(c2.state, c.events + d.events + [Pause] + c2.events, c2.err)
  }

  /**
   * `executeRule`: the document, moved to `namespace` when one is given, on
   * its resolved resource type. No resource type is ever added or dropped,
   * and a pause happens at most once, only in a custom create.
   */
  function ExecuteRun(st: State, data: Object, namespace: string, delete: bool, custom: bool): (run: Run)
    ensures run.state.kinds == st.kinds
    ensures multiset(run.events)[Pause] <= 1 && (Pause in run.events ==> !delete && custom)
  {
    var obj := Placed(data, namespace);
    Perform(st, Resolve(obj.apiVersion, obj.kind), obj, delete, custom)
  }

  /** A delete request. */
  predicate Deletes(e: Event) {
    e.Sent? && e.req.Delete?
  }

  /** A create request. */
  predicate Creates(e: Event) {
    e.Sent? && e.req.Create?
  }

  /** The calls `Fallback` makes are all of the same kind. */
  lemma FallbackKinds(st: State, first: Request, second: Request, context: string)
    requires first.Create? == second.Create? && first.Delete? == second.Delete?
    ensures var f := Fallback(st, first, second, context);
      forall j :: 0 <= j < |f.events| ==>
        f.events[j].Sent? && f.events[j].req.Create? == first.Create? && f.events[j].req.Delete? == first.Delete?
  {
  }

  /** Calls with no delete that include the call `u` after the first, then anything: every delete comes after `u`. */
  lemma ScaleThenDelete(a: seq<Event>, c: seq<Event>, k: nat, u: Event)
    requires forall j :: 0 <= j < |a| ==> !Deletes(a[j])
    requires 0 < k < |a| && a[k] == u
    ensures forall j :: 0 <= j < |a + c| && Deletes((a + c)[j]) ==>
      exists i :: 0 < i < j && (a + c)[i] == u
  {
    var e := a + c;
    assert e[k] == a[k];
    forall j | 0 <= j < |e| && Deletes(e[j])
      ensures exists i :: 0 < i < j && e[i] == u
    {
      if j < |a| {
        assert false;
      }
    }
  }

  /**
   * The scale-down first reads the deployment and sends no delete; when it
   * succeeds it has read the live object and sent, after the read, an
   * update of exactly that object with `spec.replicas` set to zero.
   */
  lemma ScaleRunCalls(st: State, res: Gvr, data: Object)
    ensures var s := ScaleRun(st, res, data); var g := GetRun(st, res, data);
      s.events != [] && s.events[0] == Sent(Get(res, data.namespace, data.name)) &&
      (forall j :: 0 <= j < |s.events| ==> !Deletes(s.events[j])) &&
      (s.err.None? ==>
         g.got.Success? && g.got.value.spec.Some? &&
         exists k :: 0 < k < |s.events| && s.events[k] == Sent(Update(res, g.got.value.namespace, ScaledDown(g.got.value))))
  {
    var g := GetRun(st, res, data);
    FallbackKinds(st, Get(res, data.namespace, data.name), Get(res, "", data.name), GetContext);
    if g.got.Success? && g.got.value.spec.Some? {
      var scaled := ScaledDown(g.got.value);
      var u := UpdateRun(g.state, res, scaled);
      FallbackKinds(g.state, Update(res, scaled.namespace, scaled), Update(res, "", scaled), UpdateContext);
      assert (g.events + u.events)[0] == g.events[0];
      assert (g.events + u.events)[|g.events|] == u.events[0];
    }
  }

  /**
   * Deleting a deployment first reads it, and sends a delete only after an
   * update of the object that read returned, with `spec.replicas` set to zero.
   */
  lemma DeploymentScaledBeforeDelete(st: State, res: Gvr, data: Object)
    requires res.resource == "deployments"
    ensures var run := DeleteRun(st, res, data); var g := GetRun(st, res, data);
      run.events != [] && run.events[0] == Sent(Get(res, data.namespace, data.name)) &&
      forall j :: 0 <= j < |run.events| && Deletes(run.events[j]) ==>
        g.got.Success? && g.got.value.spec.Some? &&
        exists i :: 0 < i < j && run.events[i] == Sent(Update(res, g.got.value.namespace, ScaledDown(g.got.value)))
  {
    var s := ScaleRun(st, res, data);
    var g := GetRun(st, res, data);
    ScaleRunCalls(st, res, data);
    if s.err.None? {
      var u := Sent(Update(res, g.got.value.namespace, ScaledDown(g.got.value)));
      var k :| 0 < k < |s.events| && s.events[k] == u;
      var d := DeleteCalls(s.state, res, data).events;
      ScaleThenDelete(s.events, d, k, u);
      assert (s.events + d)[0] == s.events[0];
    }
  }

  /** A deployment whose read or scale-down fails is not deleted, and that failure is returned. */
  lemma DeploymentStopsOnError(st: State, res: Gvr, data: Object)
    requires res.resource == "deployments"
    ensures var s := ScaleRun(st, res, data);
      s.err.Some? ==> DeleteRun(st, res, data) == s && forall j :: 0 <= j < |s.events| ==> !Deletes(s.events[j])
  {
    ScaleRunCalls(st, res, data);
  }

  /** The key under which the server keeps `data` once it is stored as a `res`. */
  function Home(st: State, res: Gvr, data: Object): Key
    requires res in st.kinds
  {
    Key(res, if st.kinds[res] == Namespaced then data.namespace else "", data.name)
  }

  /** The server has no pending fault and serves `res`; `data` has a name, and a namespace when `res` needs one. */
  predicate Ready(st: State, res: Gvr, data: Object) {
    st.faults == [] && res in st.kinds && data.name != "" && (st.kinds[res] == Namespaced ==> data.namespace != "")
  }

  /** Creating an object that does not exist stores it, placed in its scope, and reports no error. */
  lemma CreateStores(st: State, res: Gvr, data: Object)
    requires Ready(st, res, data) && Home(st, res, data) !in st.objects
    ensures var run := CreateRun(st, res, data); var key := Home(st, res, data);
      run.err == None && run.state.objects == st.objects[key := data.(namespace := key.namespace)]
  {
  }

  /**
   * Creating an object that exists fails. For a cluster-scoped type the
   * error ends with "already exists"; for a namespaced type it ends with the
   * 405 of the cluster-wide retry, which hides the conflict.
   */
  lemma CreateExisting(st: State, res: Gvr, data: Object)
    requires Ready(st, res, data) && Home(st, res, data) in st.objects
    ensures var run := CreateRun(st, res, data);
      run.err.Some? && run.err.value.Error? && run.state == st &&
      (st.kinds[res] == ClusterScoped ==> HasSuffix(TrimSpace(run.err.value.message), "already exists")) &&
      (st.kinds[res] == Namespaced ==> HasSuffix(TrimSpace(run.err.value.message), NotAllowed))
  {
    var (s1, r1) := Respond(st, Create(res, data.namespace, data));
    assert r1.Failure? && s1 == st;
    var (s2, r2) := Respond(s1, Create(res, "", data));
    assert r2.Failure? && s2 == st;
    if st.kinds[res] == ClusterScoped {
      assert r2.error == AlreadyExists(res, data.name);
      AlreadyExistsTrimmed(res, data.name);
      WrapKeepsSuffix(CreateContext, AlreadyExists(res, data.name), "already exists");
    } else {
      assert r2.error == NotAllowed;
      NotAllowedTrimmed();
      WrapKeepsSuffix(CreateContext, NotAllowed, NotAllowed);
    }
  }

  /** The error the server gives last when a call with and then without a namespace misses an object. */
  function Missing(st: State, res: Gvr, name: string): string
    requires res in st.kinds
  {
    if st.kinds[res] == ClusterScoped then NotFound(res, name) else NoRoute
  }

  /** Reading an object that does not exist fails with the second call's miss. */
  lemma GetAbsent(st: State, res: Gvr, data: Object)
    requires Ready(st, res, data) && Home(st, res, data) !in st.objects
    ensures GetRun(st, res, data) == Fetch(st, GetRun(st, res, data).events,
      Failure(Error(Wrap(GetContext, Missing(st, res, data.name)))))
  {
  }

  /** The delete calls on an object that does not exist fail with the second call's miss. */
  lemma DeleteCallsAbsent(st: State, res: Gvr, data: Object)
    requires Ready(st, res, data) && Home(st, res, data) !in st.objects
    ensures DeleteCalls(st, res, data) == Run(st, DeleteCalls(st, res, data).events,
      Some(Error(Wrap(DeleteContext, Missing(st, res, data.name)))))
  {
  }

  /** A miss still ends in "not found" or in the 404 text once wrapped and trimmed. */
  lemma MissingTrimmed(st: State, res: Gvr, name: string, context: string)
    requires res in st.kinds
    ensures st.kinds[res] == ClusterScoped ==> HasSuffix(TrimSpace(Wrap(context, Missing(st, res, name))), "not found")
    ensures st.kinds[res] == Namespaced ==> HasSuffix(TrimSpace(Wrap(context, Missing(st, res, name))), NoRoute)
  {
    if st.kinds[res] == ClusterScoped {
      NotFoundTrimmed(res, name);
      WrapKeepsSuffix(context, NotFound(res, name), "not found");
    } else {
      NoRouteTrimmed();
      WrapKeepsSuffix(context, NoRoute, NoRoute);
    }
  }

  /**
   * Deleting an object that does not exist fails, except for the default
   * namespace. For a cluster-scoped type the error ends with "not found";
   * for a namespaced type it ends with the 404 of the cluster-wide retry.
   */
  lemma DeleteAbsent(st: State, res: Gvr, data: Object)
    requires Ready(st, res, data) && Home(st, res, data) !in st.objects
    requires !(res.resource == "namespaces" && data.name == "default")
    ensures var run := DeleteRun(st, res, data);
      run.err.Some? && run.err.value.Error? && run.state == st &&
      (st.kinds[res] == ClusterScoped ==> HasSuffix(TrimSpace(run.err.value.message), "not found")) &&
      (st.kinds[res] == Namespaced ==> HasSuffix(TrimSpace(run.err.value.message), NoRoute))
  {
    if res.resource == "deployments" {
      GetAbsent(st, res, data);
      MissingTrimmed(st, res, data.name, GetContext);
    } else {
      DeleteCallsAbsent(st, res, data);
      MissingTrimmed(st, res, data.name, DeleteContext);
    }
  }

  /** Reading an object that exists returns it and changes nothing. */
  lemma GetPresent(st: State, res: Gvr, data: Object)
    requires Ready(st, res, data) && Home(st, res, data) in st.objects
    ensures GetRun(st, res, data).got == Success(st.objects[Home(st, res, data)])
    ensures GetRun(st, res, data).state == st
  {
  }

  /** Updating an object that exists succeeds and replaces it with the document, placed in its scope. */
  lemma UpdatePresent(st: State, res: Gvr, data: Object)
    requires Ready(st, res, data) && Home(st, res, data) in st.objects
    ensures var run := UpdateRun(st, res, data); var key := Home(st, res, data);
      run.err == None && run.state.objects == st.objects[key := data.(namespace := key.namespace)] &&
      Ready(run.state, res, data) && run.state.kinds == st.kinds
  {
  }

  /** The delete calls on an object that exists remove it. */
  lemma DeleteCallsPresent(st: State, res: Gvr, data: Object)
    requires Ready(st, res, data) && Home(st, res, data) in st.objects
    ensures var run := DeleteCalls(st, res, data);
      run.err == None && run.state == st.(objects := st.objects - {Home(st, res, data)})
  {
  }

  /**
   * Deleting an object that exists removes it and reports no error (the
   * default namespace stays); a deployment must have a `spec` object for
   * its scale-down.
   */
  lemma DeleteRemoves(st: State, res: Gvr, data: Object)
    requires Ready(st, res, data) && Stored(st) && Home(st, res, data) in st.objects
    requires res.resource == "deployments" ==> st.objects[Home(st, res, data)].spec.Some?
    ensures var run := DeleteRun(st, res, data);
      run.err == None && run.state.kinds == st.kinds && run.state.faults == [] &&
      run.state.objects == if res.resource == "namespaces" && data.name == "default"
        then st.objects else st.objects - {Home(st, res, data)}
  {
    var key := Home(st, res, data);
    if res.resource == "deployments" {
      GetPresent(st, res, data);
      var g := GetRun(st, res, data);
      var scaled := ScaledDown(g.got.value);
      assert Home(st, res, scaled) == key;
      UpdatePresent(g.state, res, scaled);
      var u := UpdateRun(g.state, res, scaled);
      assert Home(u.state, res, data) == key;
      DeleteCallsPresent(u.state, res, data);
    } else if !(res.resource == "namespaces" && data.name == "default") {
      DeleteCallsPresent(st, res, data);
    }
  }

  /** The calls of a delete are reads, updates and deletes: it never creates anything. */
  lemma DeleteRunNeverCreates(st: State, res: Gvr, data: Object)
    ensures var run := DeleteRun(st, res, data);
      forall j :: 0 <= j < |run.events| ==> !Creates(run.events[j])
  {
    if res.resource == "namespaces" && data.name == "default" {
    } else if res.resource == "deployments" {
      var g := GetRun(st, res, data);
      FallbackKinds(st, Get(res, data.namespace, data.name), Get(res, "", data.name), GetContext);
      if g.got.Success? && g.got.value.spec.Some? {
        var scaled := ScaledDown(g.got.value);
        var u := UpdateRun(g.state, res, scaled);
        FallbackKinds(g.state, Update(res, scaled.namespace, scaled), Update(res, "", scaled), UpdateContext);
        FallbackKinds(u.state, Delete(res, data.namespace, data.name), Delete(res, "", data.name), DeleteContext);
      }
    } else {
      FallbackKinds(st, Delete(res, data.namespace, data.name), Delete(res, "", data.name), DeleteContext);
    }
  }

  /** In delete mode `executeRule` creates nothing; in plain create mode it deletes nothing. */
  lemma PerformModes(st: State, res: Gvr, obj: Object, delete: bool, custom: bool)
    ensures var run := Perform(st, res, obj, delete, custom);
      (delete ==> forall j :: 0 <= j < |run.events| ==> !Creates(run.events[j])) &&
      (!delete && !custom ==> forall j :: 0 <= j < |run.events| ==> Creates(run.events[j]))
  {
    if delete {
      DeleteRunNeverCreates(st, res, obj);
    } else {
      FallbackKinds(st, Create(res, obj.namespace, obj), Create(res, "", obj), CreateContext);
    }
  }

  /** The retry branch of `Perform`: both runs of the create and the delete between them, in order. */
  lemma PerformRetry(st: State, res: Gvr, obj: Object)
    requires CreateRun(st, res, obj).err.Some?
    requires DeleteRun(CreateRun(st, res, obj).state, res, obj).err.None?
    ensures var c := CreateRun(st, res, obj); var d := DeleteRun(c.state, res, obj);
      var c2 := CreateRun(d.state, res, obj);
      Perform(st, res, obj, false, true) == Run(c2.state, c.events + d.events + [Pause] + c2.events, c2.err)
  {
  }

  /**
   * The failure branches of `Perform` in create mode: a failed plain create
   * returns the create's error; in a custom operation a failed delete after
   * it returns the delete's error, with no pause and no second create.
   */
  lemma PerformCreateFails(st: State, res: Gvr, obj: Object)
    requires CreateRun(st, res, obj).err.Some?
    ensures Perform(st, res, obj, false, false) == CreateRun(st, res, obj)
    ensures var c := CreateRun(st, res, obj); var d := DeleteRun(c.state, res, obj);
      var run := Perform(st, res, obj, false, true);
      d.err.Some? ==>
        run == Run(d.state, c.events + d.events, d.err) && Pause !in run.events &&
        forall j :: |c.events| <= j < |run.events| ==> !Creates(run.events[j])
  {
    var c := CreateRun(st, res, obj);
    var d := DeleteRun(c.state, res, obj);
    DeleteRunNeverCreates(c.state, res, obj);
    if d.err.Some? {
      var run := c.events + d.events;
      forall j | |c.events| <= j < |run|
        ensures !Creates(run[j])
      {
        assert run[j] == d.events[j - |c.events|];
      }
      FallbackKinds(st, Create(res, obj.namespace, obj), Create(res, "", obj), CreateContext);
      assert Pause !in c.events;
    }
  }

  /**
   * Deleting a document that has no name: the client refuses both calls
   * (the reads of a deployment's scale-down, or the deletes), so nothing
   * changes and the error ends with "name is required".
   */
  lemma NamelessDelete(st: State, res: Gvr, data: Object)
    requires data.name == ""
    ensures var run := DeleteRun(st, res, data);
      run.state == st && run.err.Some? &&
      run.err.value == Error(Wrap(if res.resource == "deployments" then GetContext else DeleteContext, NameRequired))
  {
  }

  /** Deleting an existing object and creating it again leaves the new one in its place. */
  lemma RecreateStores(st: State, res: Gvr, obj: Object)
    requires Ready(st, res, obj) && Stored(st) && Home(st, res, obj) in st.objects
    requires !(res.resource == "namespaces" && obj.name == "default")
    requires res.resource == "deployments" ==> st.objects[Home(st, res, obj)].spec.Some?
    ensures var d := DeleteRun(st, res, obj); var key := Home(st, res, obj);
      d.err == None && CreateRun(d.state, res, obj).err == None &&
      CreateRun(d.state, res, obj).state.objects == st.objects[key := obj.(namespace := key.namespace)]
  {
    var key := Home(st, res, obj);
    var d := DeleteRun(st, res, obj);
    DeleteRemoves(st, res, obj);
    assert Home(d.state, res, obj) == key;
    CreateStores(d.state, res, obj);
    assert (st.objects - {key})[key := obj.(namespace := key.namespace)] ==
      st.objects[key := obj.(namespace := key.namespace)];
  }

  /**
   * A custom operation on an object that already exists replaces it: the
   * create fails, the delete removes the old object, and after the pause the
   * second create stores the new one.
   */
  lemma CustomReplaces(st: State, res: Gvr, obj: Object)
    requires Ready(st, res, obj) && Stored(st) && Home(st, res, obj) in st.objects
    requires !(res.resource == "namespaces" && obj.name == "default")
    requires res.resource == "deployments" ==> st.objects[Home(st, res, obj)].spec.Some?
    ensures var key := Home(st, res, obj); var run := Perform(st, res, obj, false, true);
      run.err == None && Pause in run.events &&
      run.state.objects == st.objects[key := obj.(namespace := key.namespace)]
  {
    CreateExisting(st, res, obj);
    RecreateStores(st, res, obj);
    PerformRetry(st, res, obj);
    var c := CreateRun(st, res, obj);
    var d := DeleteRun(c.state, res, obj);
    assert (c.events + d.events + [Pause] + CreateRun(d.state, res, obj).events)[|c.events| + |d.events|] == Pause;
  }

  /** Appending calls to a log in two steps or in one gives the same log. */
  lemma Regroup(a: seq<Event>, b: seq<Event>, c: seq<Event>)
    ensures a + b + c == a + (b + c)
  {
  }

  /** The handle holds the state `run` ends in and has logged `run`'s calls after `log`; `err` is `run`'s error. */
  ghost predicate Did(client: Cluster, log: seq<Event>, run: Run, err: Option<Fault>)
    reads client
  {
    client.Snapshot() == run.state && client.log == log + run.events && err == run.err
  }

  /** `createResource` on the client handle. */
  method CreateResource(client: Cluster, res: Gvr, data: Object) returns (err: Option<Fault>)
    modifies client
    ensures Did(client, old(client.log), CreateRun(old(client.Snapshot()), res, data), err)
  {
    var reply := client.Send(Create(res, data.namespace, data));
    if reply.Failure? {
      reply := client.Send(Create(res, "", data));
      if reply.Failure? {
        return Some(Error(Wrap(CreateContext, reply.error)));
      }
    }
    return None;
  }

  /** `getResource` on the client handle. */
  method GetResource(client: Cluster, res: Gvr, data: Object) returns (got: Result<Object, Fault>)
    modifies client
    ensures var f := GetRun(old(client.Snapshot()), res, data);
      client.Snapshot() == f.state && client.log == old(client.log) + f.events && got == f.got
  {
    var reply := client.Send(Get(res, data.namespace, data.name));
    if reply.Failure? {
      reply := client.Send(Get(res, "", data.name));
      if reply.Failure? {
        return Failure(Error(Wrap(GetContext, reply.error)));
      }
    }
    return Success(reply.value);
  }

  /** `updateResource` on the client handle. */
  method UpdateResource(client: Cluster, res: Gvr, data: Object) returns (err: Option<Fault>)
    modifies client
    ensures Did(client, old(client.log), UpdateRun(old(client.Snapshot()), res, data), err)
  {
    var reply := client.Send(Update(res, data.namespace, data));
    if reply.Failure? {
      reply := client.Send(Update(res, "", data));
      if reply.Failure? {
        return Some(Error(Wrap(UpdateContext, reply.error)));
      }
    }
    return None;
  }

  /** The delete calls that end `deleteResource`, on the client handle. */
  method DeleteCallsOn(client: Cluster, res: Gvr, data: Object) returns (err: Option<Fault>)
    modifies client
    ensures Did(client, old(client.log), DeleteCalls(old(client.Snapshot()), res, data), err)
  {
    var reply := client.Send(Delete(res, data.namespace, data.name));
    if reply.Failure? {
      reply := client.Send(Delete(res, "", data.name));
      if reply.Failure? {
        return Some(Error(Wrap(DeleteContext, reply.error)));
      }
    }
    return None;
  }

  /** `deleteResource` on a client handle that may not have been created. */
  method DeleteResource(client: Cluster?, res: Gvr, data: Object) returns (err: Option<Fault>)
    modifies client
    ensures client == null ==> err == Some(Error(NoClient))
    ensures client != null ==> Did(client, old(client.log), DeleteRun(old(client.Snapshot()), res, data), err)
  {
    if client == null {
      return Some(Error(NoClient));
    }
    if res.resource == "namespaces" && data.name == "default" {
      return None;
    }
    if res.resource == "deployments" {
      ghost var log := client.log;
      ghost var sc := ScaleRun(client.Snapshot(), res, data);
      err := ScaleDeployment(client, res, data);
      if err.Some? {
        return;
      }
      ghost var d := DeleteCalls(sc.state, res, data);
      err := DeleteCallsOn(client, res, data);
      Regroup(log, sc.events, d.events);
    } else {
      err := DeleteCallsOn(client, res, data);
    }
  }

  /** The scale-down of a deployment before its deletion, on the client handle. */
  method ScaleDeployment(client: Cluster, res: Gvr, data: Object) returns (err: Option<Fault>)
    modifies client
    ensures Did(client, old(client.log), ScaleRun(old(client.Snapshot()), res, data), err)
  {
    ghost var g := GetRun(client.Snapshot(), res, data);
    var live := GetResource(client, res, data);
    if live.Failure? {
      return Some(live.error);
    }
    if live.value.spec.None? {
      return Some(Panic(SpecNotMap));
    }
    err := UpdateResource(client, res, ScaledDown(live.value));
  }

  /** `executeRule` on a created client handle. */
  method ExecuteRule(client: Cluster, data: Object, namespace: string, delete: bool, custom: bool)
    returns (err: Option<Fault>)
    modifies client
    ensures Did(client, old(client.log), ExecuteRun(old(client.Snapshot()), data, namespace, delete, custom), err)
  {
    var obj := data;
    if namespace != "" {
      obj := obj.(namespace := namespace);
    }
    var res := Resolve(obj.apiVersion, obj.kind);
    assert obj == Placed(data, namespace);
    if delete {
      err := DeleteResource(client, res, obj);
      return;
    }
    ghost var log := client.log;
    ghost var c := CreateRun(client.Snapshot(), res, obj);
    err := CreateResource(client, res, obj);
    if err.Some? && custom {
      ghost var d := DeleteRun(c.state, res, obj);
      err := DeleteResource(client, res, obj);
      if err.Some? {
        Regroup(log, c.events, d.events);
        return;
      }
      client.Settle();
      ghost var c2 := CreateRun(d.state, res, obj);
      err := CreateResource(client, res, obj);
      Regroup(log, c.events, d.events);
      Regroup(log, c.events + d.events, [Pause]);
      Regroup(log, c.events + d.events + [Pause], c2.events);
    }
  }
}
