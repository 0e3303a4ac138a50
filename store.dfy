/**
 * The Kubernetes API server as the dynamic client sees it: the resource
 * types it serves with their scope, the objects it stores, and the calls it
 * answers. `Resource(res).Namespace(ns)` routes a call to the namespaced
 * path of `res`; an empty `ns` (or no `Namespace` at all) routes it to the
 * cluster-wide path. A call on a path the server does not serve is answered
 * with a 404, and any call may instead fail for a reason of the server's own
 * (authorization, timeouts, admission), modelled as a queue of injected faults.
 * A get, update or delete without a name is refused by the client itself,
 * before anything is sent.
 */
module Store {
  import opened Wrappers
  import opened Text
  import opened Kube

  /** Whether objects of a resource type live in a namespace or in the cluster. */
  datatype Scope = Namespaced | ClusterScoped

  /** Where an object is stored: its type, its namespace ("" for cluster-scoped objects), its name. */
  datatype Key = Key(gvr: Gvr, namespace: string, name: string)

  /** One call of the dynamic client; `namespace` is the one given to `Namespace`, "" when none. */
  datatype Request =
    | Get(gvr: Gvr, namespace: string, name: string)
    | Create(gvr: Gvr, namespace: string, body: Object)
    | Update(gvr: Gvr, namespace: string, body: Object)
    | Delete(gvr: Gvr, namespace: string, name: string)

  /** What a client handle observes over time: the calls it makes, and the pauses between them. */
  datatype Event = Sent(req: Request) | Pause

  /** The server: served types, stored objects, and the faults the next calls will meet (`None`: no fault). */
  datatype State = State(kinds: map<Gvr, Scope>, objects: map<Key, Object>, faults: seq<Option<string>>)

  /**
   * The 404 answer to a call on a path the server does not serve. This
   * answer and the 405 one below are written in pieces only so that the
   * verifier can reason about their characters.
   */
  const NoRoute := "the server " + "could not find " + "the requested resource"

  /** The 405 answer to a create on the cluster-wide path of a namespaced type, which serves only reads. */
  const NotAllowed := "the server " + "does not allow this method " + "on the requested resource"

  /** The client's refusal of a get, update or delete whose name is empty. */
  const NameRequired := "name is required"

  /** The text that ends the 422 answer to a create whose object has no name. */
  const NoName := "name or generateName is required"

  /** The answer to a call on a path the server does not serve for that call. */
  function Unserved(kinds: map<Gvr, Scope>, req: Request): string {
    if req.Create? && req.namespace == "" && req.gvr in kinds then NotAllowed else NoRoute
  }

  /** `resource.group`, or the bare resource for the core group, as API errors name a type. */
  function Qualified(gvr: Gvr): string {
    if gvr.group == "" then gvr.resource else gvr.resource + "." + gvr.group
  }

  /** The message of a NotFound status error. */
  function NotFound(gvr: Gvr, name: string): (m: string)
    ensures HasSuffix(m, "not found")
  {
    EndsWith(Qualified(gvr) + " \"" + name + "\" ", "not found");
    Qualified(gvr) + " \"" + name + "\" " + "not found"
  }

  /** The message of an AlreadyExists status error. */
  function AlreadyExists(gvr: Gvr, name: string): (m: string)
    ensures HasSuffix(m, "already exists")
  {
    EndsWith(Qualified(gvr) + " \"" + name + "\" ", "already exists");
    Qualified(gvr) + " \"" + name + "\" " + "already exists"
  }

  /** The server serves `gvr` on the path a call with namespace `ns` takes. */
  predicate Routed(kinds: map<Gvr, Scope>, gvr: Gvr, ns: string) {
    gvr in kinds && (kinds[gvr] == Namespaced <==> ns != "")
  }

  /** The name a request addresses. */
  function Target(req: Request): string {
    match req
    case Get(_, _, name) => name
    case Delete(_, _, name) => name
    case Create(_, _, body) => body.name
    case Update(_, _, body) => body.name
  }

  /** The 422 answer to a create of an object without a name, naming its kind as `Kind.group`. */
  function Unnamed(gvr: Gvr, body: Object): (m: string)
    ensures HasSuffix(m, NoName)
  {
    var kind := if gvr.group == "" then body.kind else body.kind + "." + gvr.group;
    EndsWith(kind + " \"\" is invalid: metadata.name: Required value: ", NoName);
    kind + " \"\" is invalid: metadata.name: Required value: " + NoName
  }

  /** A get, update or delete that the client refuses because it names no object. */
  predicate Nameless(req: Request) {
    !req.Create? && Target(req) == ""
  }

  /** The key a request addresses. */
  function KeyOf(req: Request): Key {
    Key(req.gvr, req.namespace, Target(req))
  }

  /** The fault queue once one call has consumed its entry. */
  function Consume(faults: seq<Option<string>>): seq<Option<string>> {
    if faults == [] then [] else faults[1..]
  }

  /**
   * The answer to one call. A get, update or delete without a name is
   * refused by the client and reaches no server. Every other call consumes
   * one fault entry; an injected fault, a call on an unserved path, a create
   * without a name, a missing object (get, update, delete) or an existing
   * one (create) fails and changes no object. A create or update stores the
   * body under the call's namespace (the server clears the namespace of
   * cluster-scoped objects), a delete removes the object at once.
   */
  function Respond(st: State, req: Request): (out: (State, Result<Object, string>))
    ensures out.0.kinds == st.kinds && out.0.faults == if Nameless(req) then st.faults else Consume(st.faults)
    ensures out.1.Failure? || req.Get? ==> out.0.objects == st.objects
    ensures out.1.Success? ==>
      out.0.objects.Keys == if req.Delete? then st.objects.Keys - {KeyOf(req)} else st.objects.Keys + {KeyOf(req)}
    ensures out.1.Success? <==>
      Target(req) != "" && (st.faults == [] || st.faults[0].None?) && Routed(st.kinds, req.gvr, req.namespace) &&
      (KeyOf(req) in st.objects <==> !req.Create?)
    ensures Nameless(req) ==> out == (st, Failure(NameRequired))
    ensures out.1.Success? && !req.Get? ==>
      out.0.objects == if req.Delete? then st.objects - {KeyOf(req)}
        else st.objects[KeyOf(req) := req.body.(namespace := req.namespace)]
  {
    var next := st.(faults := Consume(st.faults));
    var key := KeyOf(req);
    if Nameless(req) then (st, Failure(NameRequired))
    else if st.faults != [] && st.faults[0].Some? then (next, Failure(st.faults[0].value))
    else if !Routed(st.kinds, req.gvr, req.namespace) then (next, Failure(Unserved(st.kinds, req)))
    else if req.Create? then
      if key.name == "" then (next, Failure(Unnamed(req.gvr, req.body)))
      else if key in st.objects then (next, Failure(AlreadyExists(req.gvr, key.name)))
      else
        var stored := req.body.(namespace := req.namespace);
        (next.(objects := st.objects[key := stored]), Success(stored))
    else if key !in st.objects then (next, Failure(NotFound(req.gvr, key.name)))
    else if req.Update? then
      var stored := req.body.(namespace := req.namespace);
      (next.(objects := st.objects[key := stored]), Success(stored))
    else if req.Delete? then (next.(objects := st.objects - {key}), Success(st.objects[key]))
    else (next, Success(st.objects[key]))
  }

  /** Every stored object sits under its own namespace and name. */
  predicate Stored(st: State) {
    forall k :: k in st.objects ==> st.objects[k].namespace == k.namespace && st.objects[k].name == k.name
  }

  /** The server keeps every object under its own namespace and name. */
  lemma RespondKeepsStored(st: State, req: Request)
    requires Stored(st)
    ensures Stored(Respond(st, req).0)
  {
  }

  /** Reading back an object the server has just created returns it, placed in the call's namespace. */
  lemma CreateThenGet(st: State, gvr: Gvr, ns: string, body: Object)
    requires Respond(st, Create(gvr, ns, body)).1.Success?
    requires var after := Respond(st, Create(gvr, ns, body)).0; after.faults == [] || after.faults[0].None?
    ensures Respond(Respond(st, Create(gvr, ns, body)).0, Get(gvr, ns, body.name)).1 ==
      Success(body.(namespace := ns))
  {
  }

  /** Once the server has deleted an object, reading it fails with NotFound. */
  lemma DeleteThenGet(st: State, gvr: Gvr, ns: string, name: string)
    requires Respond(st, Delete(gvr, ns, name)).1.Success?
    requires var after := Respond(st, Delete(gvr, ns, name)).0; after.faults == [] || after.faults[0].None?
    ensures Respond(Respond(st, Delete(gvr, ns, name)).0, Get(gvr, ns, name)).1 ==
      Failure(NotFound(gvr, name))
  {
  }

  /** A NotFound message still ends in "not found" once surrounding white space is trimmed. */
  lemma NotFoundTrimmed(gvr: Gvr, name: string)
    ensures HasSuffix(TrimSpace(NotFound(gvr, name)), "not found")
  {
    TrimKeepsSuffix(NotFound(gvr, name), "not found", Whitespace);
  }

  /** An AlreadyExists message still ends in "already exists" once white space is trimmed. */
  lemma AlreadyExistsTrimmed(gvr: Gvr, name: string)
    ensures HasSuffix(TrimSpace(AlreadyExists(gvr, name)), "already exists")
  {
    TrimKeepsSuffix(AlreadyExists(gvr, name), "already exists", Whitespace);
  }

  /** The 405 answer is already trimmed. */
  lemma NotAllowedTrimmed()
    ensures HasSuffix(TrimSpace(NotAllowed), NotAllowed)
  {
    EndsWith([], NotAllowed);
    assert NotAllowed[0] == 't' && NotAllowed[|NotAllowed| - 1] == 'e';
    TrimKeepsSuffix(NotAllowed, NotAllowed, Whitespace);
  }

  /** A text that ends with the 405 answer does not end with "already exists". */
  lemma NotAllowedIsNoConflict(t: string)
    requires HasSuffix(t, NotAllowed)
    ensures !HasSuffix(t, "already exists")
  {
    assert t[|t| - |NotAllowed|..][|NotAllowed| - 1] == t[|t| - 1];
    assert NotAllowed[|NotAllowed| - 1] == 'e';
    assert "already exists"[13] == 's';
  }

  /** The client's refusal of a nameless call is already trimmed. */
  lemma NameRequiredTrimmed()
    ensures HasSuffix(TrimSpace(NameRequired), NameRequired)
  {
    EndsWith([], NameRequired);
    assert NameRequired[0] == 'n' && NameRequired[|NameRequired| - 1] == 'd';
    TrimKeepsSuffix(NameRequired, NameRequired, Whitespace);
  }

  /** The 404 answer is already trimmed. */
  lemma NoRouteTrimmed()
    ensures HasSuffix(TrimSpace(NoRoute), NoRoute)
  {
    EndsWith([], NoRoute);
    assert NoRoute[0] == 't' && NoRoute[47] == 'e';
    TrimKeepsSuffix(NoRoute, NoRoute, Whitespace);
  }

  /**
   * The dynamic client handle (`DynamicKubeClient`) bound to one server. Its
   * calls change the server's state in place; `log` records the calls and
   * the pauses the engine makes between them.
   */
  class Cluster {
    var kinds: map<Gvr, Scope>
    var objects: map<Key, Object>
    var faults: seq<Option<string>>
    ghost var log: seq<Event>

    constructor (kinds: map<Gvr, Scope>, objects: map<Key, Object>, faults: seq<Option<string>>)
      ensures Snapshot() == State(kinds, objects, faults) && log == []
    {
      this.kinds := kinds;
      this.objects := objects;
      this.faults := faults;
      log := [];
    }

    /** The server state behind this handle. */
    function Snapshot(): State
      reads this
    {
      State(kinds, objects, faults)
    }

    /**
     * One call over the handle: it is answered as `Respond` says and logged,
     * also when the client refuses it without sending it.
     */
    method Send(req: Request) returns (reply: Result<Object, string>)
      modifies this
      ensures (Snapshot(), reply) == Respond(old(Snapshot()), req)
      ensures log == old(log) + [Sent(req)]
    {
      log := log + [Sent(req)];
      if !req.Create? && Target(req) == "" {
        return Failure(NameRequired);
      }
      var fault := if faults == [] then None else faults[0];
      faults := if faults == [] then [] else faults[1..];
      var key := KeyOf(req);
      if fault.Some? {
        return Failure(fault.value);
      }
      if !(req.gvr in kinds && (kinds[req.gvr] == Namespaced <==> req.namespace != "")) {
        var answer := if req.Create? && req.namespace == "" && req.gvr in kinds then NotAllowed else NoRoute;
        return Failure(answer);
      }
      match req {
        case Create(gvr, ns, body) =>
          if key.name == "" {
            return Failure(Unnamed(gvr, body));
          }
          if key in objects {
            return Failure(AlreadyExists(gvr, key.name));
          }
          objects := objects[key := body.(namespace := ns)];
          return Success(body.(namespace := ns));
        case Update(gvr, ns, body) =>
          if key !in objects {
            return Failure(NotFound(gvr, key.name));
          }
          objects := objects[key := body.(namespace := ns)];
          return Success(body.(namespace := ns));
        case Delete(gvr, _, _) =>
          if key !in objects {
            return Failure(NotFound(gvr, key.name));
          }
          var gone := objects[key];
          objects := objects - {key};
          return Success(gone);
        case Get(gvr, _, _) =>
          if key !in objects {
            return Failure(NotFound(gvr, key.name));
          }
          return Success(objects[key]);
      }
    }

    /** `time.Sleep(time.Second)`: no call is made and the server state is left alone. */
    ghost method Settle()
      modifies this
      ensures Snapshot() == old(Snapshot()) && log == old(log) + [Pause]
    {
      log := log + [Pause];
    }
  }
}
