/**
 * The batch driver of the manifest engine: `applyConfigChange` splits a
 * multi-document YAML text, skips blank documents, and applies each one with
 * `applyRulePayload`, tolerating only the errors that mean "already done"
 * (nothing to delete, or already created); `createNamespace` applies the
 * rendered namespace manifest.
 *
 * The YAML-to-JSON conversion, the JSON decoding and the document decoder
 * are library code outside this model; they are passed in as a `Codec`.
 */
module Batch {
  import opened Wrappers
  import opened Text
  import opened Kube
  import opened Resolver
  import opened Store
  import opened Splitter
  import opened Orchestrator

  /**
   * The library code the driver relies on: the reads the YAML document
   * decoder delivers for a text (`None` when no decoder can be made),
   * `yaml.YAMLToJSON`, and `Unstructured.UnmarshalJSON` with `IsList`.
   */
  datatype Codec = Codec(
    decoder: string -> Option<seq<Read>>,
    toJson: string -> Result<string, string>,
    unmarshal: string -> Result<Unstructured, string>)

  const ConvertContext := "unable to convert yaml to json"
  const UnmarshalContext := "unable to unmarshal json created from yaml"
  const SplitContext := "error while splitting yaml"

  /** The server state standing in for a client that has not been created; no call reaches it. */
  const Detached := State(map[], map[], [])

  /**
   * The errors `applyConfigChange` steps over: in delete mode, those whose
   * trimmed text ends with "not found" or with the 404 text; in create mode,
   * those that end with "already exists". A panic is never stepped over.
   */
  predicate Ignorable(f: Fault, delete: bool): (b: bool)
    ensures b ==> f.Error?
  {
    f.Error? &&
    var t := TrimSpace(f.message);
    if delete then HasSuffix(t, "not found") || HasSuffix(t, NoRoute) else HasSuffix(t, "already exists")
  }

  /**
   * Each element in order, stopping at the first whose step fails and
   * returning that error: `EachListItem` over a list's items, and the loop
   * of `applyConfigChange` over the documents.
   */
  function Each<T>(st: State, xs: seq<T>, step: (State, T) -> Run): (run: Run)
    ensures xs == [] ==> run == Run(st, [], None)
    ensures xs != [] && step(st, xs[0]).err.Some? ==> run == step(st, xs[0])
    decreases |xs|
  {
    if xs == [] then Run(st, [], None)
    else
      var first := step(st, xs[0]);
      if first.err.Some? then first
      else
        var rest := Each(first.state, xs[1..], step);
        Run(rest.state, first.events + rest.events, rest.err)
  }

  /** `first`, followed by `next` unless `first` ended with an error. */
  function Then(first: Run, next: Run): Run {
    if first.err.Some? then first else Run(next.state, first.events + next.events, next.err)
  }

  /** The callback `applyRulePayload` hands to `EachListItem`: `executeRule` on the item. */
  function Rule(namespace: string, delete: bool, custom: bool): (State, Object) -> Run {
    (s, obj) => ExecuteRun(s, obj, namespace, delete, custom)
  }

  /**
   * `applyRulePayload`: fails at once without a client; converts the
   * document to JSON, skips it when the JSON has at most five bytes (`null`),
   * decodes it, and applies the object or every item of the list.
   */
  function PayloadRun(codec: Codec, connected: bool, st: State, namespace: string, doc: string,
                      delete: bool, custom: bool): (run: Run)
    ensures !connected ==> run == Run(st, [], Some(Error(NoClient)))
    ensures connected && codec.toJson(doc).Success? && |codec.toJson(doc).value| <= 5 ==> run == Run(st, [], None)
    ensures connected && codec.toJson(doc).Failure? ==>
      run == Run(st, [], Some(Error(Wrap(ConvertContext, codec.toJson(doc).error))))
  {
    if !connected then Run(st, [], Some(Error(NoClient)))
    else match codec.toJson(doc)
      case Failure(e) => Run(st, [], Some(Error(Wrap(ConvertContext, e))))
      case Success(json) =>
        if |json| <= 5 then Run(st, [], None)
        else match codec.unmarshal(json)
          case Failure(e) => Run(st, [], Some(Error(Wrap(UnmarshalContext, e))))
          case Success(Single(obj)) => ExecuteRun(st, obj, namespace, delete, custom)
          case Success(List(items)) => Each(st, items, Rule(namespace, delete, custom))
  }

  /**
   * One pass of the loop of `applyConfigChange`: a blank document is
   * skipped; an ignorable error is dropped so that the loop moves on; any
   * other error is kept and ends the batch.
   */
  function DocumentRun(codec: Codec, connected: bool, st: State, namespace: string, doc: string,
                       delete: bool, custom: bool): (run: Run)
    ensures TrimSpace(doc) == "" ==> run == Run(st, [], None)
    ensures run.err.Some? ==> !Ignorable(run.err.value, delete)
    ensures TrimSpace(doc) != "" ==>
      var p := PayloadRun(codec, connected, st, namespace, doc, delete, custom);
      (p.err.Some? && !Ignorable(p.err.value, delete) ==> run == p) &&
      (p.err.Some? && Ignorable(p.err.value, delete) ==> run == p.(err := None)) &&
      (p.err.None? ==> run == p)
  {
    if TrimSpace(doc) == "" then Run(st, [], None)
    else
      var p := PayloadRun(codec, connected, st, namespace, doc, delete, custom);
      if p.err.Some? && Ignorable(p.err.value, delete) then p.(err := None) else p
  }

  /** The loop body of `applyConfigChange` as a step over documents. */
  function DocumentStep(codec: Codec, connected: bool, namespace: string, delete: bool, custom: bool)
    : (State, string) -> Run
  {
    (s, doc) => DocumentRun(codec, connected, s, namespace, doc, delete, custom)
  }

  /** `applyConfigChange`: split the text, then apply its documents in order. */
  function ConfigChangeRun(codec: Codec, connected: bool, st: State, text: string, namespace: string,
                           delete: bool, custom: bool): (run: Run)
    ensures codec.decoder(text).None? ==> run == Run(st, [], Some(Error(Wrap(SplitContext, NoDecoder))))
  {
    match codec.decoder(text)
    case None => Run(st, [], Some(Error(Wrap(SplitContext, NoDecoder))))
    case Some(stream) => Each(st, Documents(stream), DocumentStep(codec, connected, namespace, delete, custom))
  }

  /**
   * `createNamespace`: render the namespace manifest for `namespace` and
   * apply it in plain create mode; a rendering error is returned unchanged.
   */
  function NamespaceRun(codec: Codec, connected: bool, st: State, render: string -> Result<string, string>,
                        namespace: string): (run: Run)
    ensures render(namespace).Failure? ==> run == Run(st, [], Some(Error(render(namespace).error)))
  {
    match render(namespace)
    case Failure(e) => Run(st, [], Some(Error(e)))
    case Success(text) => ConfigChangeRun(codec, connected, st, text, namespace, false, false)
  }

  /** A run over `a + b` is the run over `a`, then, unless it failed, the run over `b`. */
  lemma {:induction false} EachConcat<T>(st: State, a: seq<T>, b: seq<T>, step: (State, T) -> Run)
    ensures var first := Each(st, a, step);
      Each(st, a + b, step) == Then(first, Each(first.state, b, step))
    decreases |a|
  {
    if a == [] {
      assert a + b == b;
    } else {
      assert (a + b)[1..] == a[1..] + b;
      assert (a + b)[0] == a[0];
      var head := step(st, a[0]);
      if head.err.None? {
        EachConcat(head.state, a[1..], b, step);
        var r1 := Each(head.state, a[1..], step);
        if r1.err.None? {
          Regroup(head.events, r1.events, Each(r1.state, b, step).events);
        }
      }
    }
  }

  /** The run from element `i` on: element `i`, then, unless it failed, the elements after it. */
  lemma EachFrom<T>(st: State, xs: seq<T>, i: nat, step: (State, T) -> Run)
    requires i < |xs|
    ensures var first := step(st, xs[i]);
      Each(st, xs[i..], step) == Then(first, Each(first.state, xs[i + 1..], step))
  {
    assert xs[i..][0] == xs[i] && xs[i..][1..] == xs[i + 1..];
  }

  /**
   * When element `k` is the first whose step fails, the run ends with that
   * step's error, and the elements after `k` are never applied.
   */
  lemma EachStopsAt<T>(st: State, xs: seq<T>, k: nat, step: (State, T) -> Run)
    requires k < |xs|
    requires var pre := Each(st, xs[..k], step); pre.err.None? && step(pre.state, xs[k]).err.Some?
    ensures var pre := Each(st, xs[..k], step); var r := step(pre.state, xs[k]);
      Each(st, xs, step) == Run(r.state, pre.events + r.events, r.err) &&
      Each(st, xs, step) == Each(st, xs[..k + 1], step)
  {
    var pre := Each(st, xs[..k], step);
    EachConcat(st, xs[..k], xs[k..], step);
    assert xs[..k] + xs[k..] == xs;
    assert xs[k..][0] == xs[k];
    EachConcat(st, xs[..k], [xs[k]], step);
    assert xs[..k] + [xs[k]] == xs[..k + 1];
  }

  /**
   * One step of a loop that has made the calls `done` and reached `cur`
   * with element `i` next: if the step fails, the run ends there; otherwise
   * the loop goes on from element `i + 1` with the step's calls added.
   */
  lemma EachNext<T>(st: State, xs: seq<T>, i: nat, step: (State, T) -> Run, cur: State, done: seq<Event>)
    requires i < |xs|
    requires Each(st, xs, step) == Then(Run(cur, done, None), Each(cur, xs[i..], step))
    ensures var r := step(cur, xs[i]);
      Each(st, xs, step) ==
        if r.err.Some? then Run(r.state, done + r.events, r.err)
        else Then(Run(r.state, done + r.events, None), Each(r.state, xs[i + 1..], step))
  {
    EachFrom(cur, xs, i, step);
    var r := step(cur, xs[i]);
    Regroup(done, r.events, Each(r.state, xs[i + 1..], step).events);
  }

  /** The list callback applied to one item is `executeRule` on it. */
  lemma RuleApplied(st: State, obj: Object, namespace: string, delete: bool, custom: bool)
    ensures Rule(namespace, delete, custom)(st, obj) == ExecuteRun(st, obj, namespace, delete, custom)
  {
  }

  /** The document step applied to one document is one pass of the loop. */
  lemma DocumentApplied(codec: Codec, connected: bool, st: State, namespace: string, doc: string,
                        delete: bool, custom: bool)
    ensures DocumentStep(codec, connected, namespace, delete, custom)(st, doc) ==
      DocumentRun(codec, connected, st, namespace, doc, delete, custom)
  {
  }

  /** An error of a batch is never one the loop steps over. */
  lemma {:induction false} BatchErrorsFatal(codec: Codec, connected: bool, st: State, docs: seq<string>,
                                            namespace: string, delete: bool, custom: bool)
    ensures var run := Each(st, docs, DocumentStep(codec, connected, namespace, delete, custom));
      run.err.Some? ==> !Ignorable(run.err.value, delete)
    decreases |docs|
  {
    var step := DocumentStep(codec, connected, namespace, delete, custom);
    if docs != [] {
      DocumentApplied(codec, connected, st, namespace, docs[0], delete, custom);
      var first := step(st, docs[0]);
      if first.err.None? {
        BatchErrorsFatal(codec, connected, first.state, docs[1..], namespace, delete, custom);
      }
    }
  }

  /**
   * The first document that fails with an error the loop does not step over
   * ends the batch with that error: the documents after it are never applied.
   */
  lemma FirstFatalDocument(codec: Codec, connected: bool, st: State, docs: seq<string>, k: nat,
                           namespace: string, delete: bool, custom: bool)
    requires k < |docs|
    requires var pre := Each(st, docs[..k], DocumentStep(codec, connected, namespace, delete, custom));
      var p := PayloadRun(codec, connected, pre.state, namespace, docs[k], delete, custom);
      pre.err.None? && TrimSpace(docs[k]) != "" && p.err.Some? && !Ignorable(p.err.value, delete)
    ensures var step := DocumentStep(codec, connected, namespace, delete, custom);
      var pre := Each(st, docs[..k], step);
      var p := PayloadRun(codec, connected, pre.state, namespace, docs[k], delete, custom);
      Each(st, docs, step) == Run(p.state, pre.events + p.events, p.err) &&
      Each(st, docs, step) == Each(st, docs[..k + 1], step)
  {
    var step := DocumentStep(codec, connected, namespace, delete, custom);
    var pre := Each(st, docs[..k], step);
    DocumentApplied(codec, connected, pre.state, namespace, docs[k], delete, custom);
    EachStopsAt(st, docs, k, step);
  }

  /** Every event is a create request. */
  predicate OnlyCreates(events: seq<Event>) {
    forall j :: 0 <= j < |events| ==> Creates(events[j])
  }

  /** If every step only creates, so does the whole run. */
  lemma {:induction false} EachOnlyCreates<T>(st: State, xs: seq<T>, step: (State, T) -> Run)
    requires forall s: State, x: T :: OnlyCreates(step(s, x).events)
    ensures OnlyCreates(Each(st, xs, step).events)
    decreases |xs|
  {
    if xs != [] {
      var first := step(st, xs[0]);
      if first.err.None? {
        EachOnlyCreates(first.state, xs[1..], step);
      }
    }
  }

  /** In plain create mode a document only ever leads to create requests. */
  lemma DocumentOnlyCreates(codec: Codec, connected: bool, st: State, namespace: string, doc: string)
    ensures OnlyCreates(DocumentRun(codec, connected, st, namespace, doc, false, false).events)
  {
    var rule := Rule(namespace, false, false);
    forall s: State, obj: Object
      ensures OnlyCreates(rule(s, obj).events)
    {
      RuleApplied(s, obj, namespace, false, false);
      var placed := Placed(obj, namespace);
      PerformModes(s, Resolve(placed.apiVersion, placed.kind), placed, false, false);
    }
    if connected && codec.toJson(doc).Success? && |codec.toJson(doc).value| > 5 {
      match codec.unmarshal(codec.toJson(doc).value)
      case Failure(_) =>
      case Success(Single(obj)) =>
        assert OnlyCreates(rule(st, obj).events);
      case Success(List(items)) =>
        EachOnlyCreates(st, items, rule);
    }
  }

  /**
   * `createNamespace` sends nothing but create requests: it never deletes,
   * updates or pauses, whatever the rendered manifest holds.
   */
  lemma NamespaceOnlyCreates(codec: Codec, connected: bool, st: State, render: string -> Result<string, string>,
                             namespace: string)
    ensures OnlyCreates(NamespaceRun(codec, connected, st, render, namespace).events)
  {
    var step := DocumentStep(codec, connected, namespace, false, false);
    forall s: State, doc: string
      ensures OnlyCreates(step(s, doc).events)
    {
      DocumentApplied(codec, connected, s, namespace, doc, false, false);
      DocumentOnlyCreates(codec, connected, s, namespace, doc);
    }
    if render(namespace).Success? {
      var text := render(namespace).value;
      if codec.decoder(text).Some? {
        EachOnlyCreates(st, Documents(codec.decoder(text).value), step);
      }
    }
  }

  /** The document is one manifest that decodes to `obj`. */
  predicate Manifest(codec: Codec, doc: string, obj: Object) {
    TrimSpace(doc) != "" && codec.toJson(doc).Success? && |codec.toJson(doc).value| > 5 &&
    codec.unmarshal(codec.toJson(doc).value) == Success(Single(obj))
  }

  /** A document holding one manifest is `executeRule` on its object, with an ignorable error dropped. */
  lemma ManifestRun(codec: Codec, st: State, namespace: string, doc: string, obj: Object, delete: bool, custom: bool)
    requires Manifest(codec, doc, obj)
    ensures var p := ExecuteRun(st, obj, namespace, delete, custom);
      DocumentRun(codec, true, st, namespace, doc, delete, custom) ==
        if p.err.Some? && Ignorable(p.err.value, delete) then p.(err := None) else p
  {
  }

  /**
   * Deleting a manifest whose object is already gone is stepped over: the
   * batch goes on, and the server is left as it was.
   */
  lemma AbsentDeleteSkipped(codec: Codec, st: State, namespace: string, doc: string, obj: Object, custom: bool)
    requires Manifest(codec, doc, obj)
    requires var placed := Placed(obj, namespace); var res := Resolve(placed.apiVersion, placed.kind);
      Ready(st, res, placed) && Home(st, res, placed) !in st.objects &&
      !(res.resource == "namespaces" && placed.name == "default")
    ensures var run := DocumentRun(codec, true, st, namespace, doc, true, custom);
      run.err == None && run.state == st
  {
    var placed := Placed(obj, namespace);
    ManifestRun(codec, st, namespace, doc, obj, true, custom);
    DeleteAbsent(st, Resolve(placed.apiVersion, placed.kind), placed);
  }

  /**
   * Creating a manifest whose object already exists leaves the server as it
   * was. For a cluster-scoped type the "already exists" error is stepped
   * over; for a namespaced type the error of the cluster-wide retry is the
   * 405, which does not end in "already exists", so the batch fails.
   */
  lemma ExistingCreate(codec: Codec, st: State, namespace: string, doc: string, obj: Object)
    requires Manifest(codec, doc, obj)
    requires var placed := Placed(obj, namespace); var res := Resolve(placed.apiVersion, placed.kind);
      Ready(st, res, placed) && Home(st, res, placed) in st.objects
    ensures var run := DocumentRun(codec, true, st, namespace, doc, false, false);
      var placed := Placed(obj, namespace); var res := Resolve(placed.apiVersion, placed.kind);
      run.state == st &&
      (st.kinds[res] == ClusterScoped ==> run.err == None) &&
      (st.kinds[res] == Namespaced ==> run.err.Some?)
  {
    var placed := Placed(obj, namespace);
    var res := Resolve(placed.apiVersion, placed.kind);
    ManifestRun(codec, st, namespace, doc, obj, false, false);
    CreateExisting(st, res, placed);
    if st.kinds[res] == Namespaced {
      NotAllowedIsNoConflict(TrimSpace(CreateRun(st, res, placed).err.value.message));
    }
  }

  /**
   * A list stops at its first failing item even when that error is one the
   * loop steps over: the items after it are never applied, and the batch
   * moves on to the next document.
   */
  lemma ListStopsAtIgnorable(codec: Codec, st: State, namespace: string, doc: string, items: seq<Object>,
                             delete: bool, custom: bool)
    requires TrimSpace(doc) != "" && codec.toJson(doc).Success? && |codec.toJson(doc).value| > 5
    requires codec.unmarshal(codec.toJson(doc).value) == Success(List(items)) && items != []
    requires var first := ExecuteRun(st, items[0], namespace, delete, custom);
      first.err.Some? && Ignorable(first.err.value, delete)
    ensures var first := ExecuteRun(st, items[0], namespace, delete, custom);
      DocumentRun(codec, true, st, namespace, doc, delete, custom) == Run(first.state, first.events, None)
  {
    RuleApplied(st, items[0], namespace, delete, custom);
  }

  /**
   * The answers that mean "already done" are stepped over once wrapped: a
   * NotFound or a 404 in delete mode, an AlreadyExists in create mode; a
   * NotFound is not stepped over in create mode.
   */
  lemma IgnorableAnswers(context: string, gvr: Gvr, name: string)
    ensures Ignorable(Error(Wrap(context, NotFound(gvr, name))), true)
    ensures Ignorable(Error(Wrap(context, NoRoute)), true)
    ensures Ignorable(Error(Wrap(context, AlreadyExists(gvr, name))), false)
    ensures !Ignorable(Error(Wrap(context, NotFound(gvr, name))), false)
  {
    NotFoundTrimmed(gvr, name);
    WrapKeepsSuffix(context, NotFound(gvr, name), "not found");
    NoRouteTrimmed();
    WrapKeepsSuffix(context, NoRoute, NoRoute);
    AlreadyExistsTrimmed(gvr, name);
    WrapKeepsSuffix(context, AlreadyExists(gvr, name), "already exists");
    var t := TrimSpace(Wrap(context, NotFound(gvr, name)));
    assert t[|t| - 1] == "not found"[8] == 'd';
  }

  /**
   * Deleting a manifest that has no name is not stepped over: the client
   * refuses the calls with "name is required", and the batch ends there
   * with the server unchanged.
   */
  lemma NamelessDeleteFatal(codec: Codec, st: State, namespace: string, doc: string, obj: Object, custom: bool)
    requires Manifest(codec, doc, obj) && obj.name == ""
    ensures var run := DocumentRun(codec, true, st, namespace, doc, true, custom);
      run.state == st && run.err.Some? && !Ignorable(run.err.value, true)
  {
    var placed := Placed(obj, namespace);
    var res := Resolve(placed.apiVersion, placed.kind);
    ManifestRun(codec, st, namespace, doc, obj, true, custom);
    NamelessDelete(st, res, placed);
    NameRequiredIsFatal(if res.resource == "deployments" then GetContext else DeleteContext);
  }

  /** The client's "name is required", however wrapped, is never stepped over in delete mode. */
  lemma NameRequiredIsFatal(context: string)
    ensures !Ignorable(Error(Wrap(context, NameRequired)), true)
  {
    NameRequiredTrimmed();
    WrapKeepsSuffix(context, NameRequired, NameRequired);
    RequiredIsFatal(Wrap(context, NameRequired));
  }

  /** An error whose trimmed text ends with "name is required" is not stepped over in delete mode. */
  lemma RequiredIsFatal(message: string)
    requires HasSuffix(TrimSpace(message), NameRequired)
    ensures !Ignorable(Error(message), true)
  {
    var t := TrimSpace(message);
    SuffixesDiffer(t, NameRequired, "not found", 2);
    assert NoRoute[|NoRoute| - 1] == 'e';
    SuffixesDiffer(t, NameRequired, NoRoute, 1);
  }

  /** The missing-client error is never stepped over. */
  lemma NoClientIsFatal(delete: bool)
    ensures !Ignorable(Error(NoClient), delete)
  {
    assert NoClient[0] == 'm' && NoClient[|NoClient| - 1] == 'd';
    TrimKeepsSuffix(NoClient, NoClient, Whitespace);
    TrimIsSlice(NoClient, Whitespace);
    var t := TrimSpace(NoClient);
    assert t == NoClient;
    assert t[|t| - 8] != "not found"[1];
    assert t[|t| - 1] != "already exists"[13];
  }

  /**
   * Without a client, a batch makes no call and changes nothing; it fails
   * with "mesh client has not been created" exactly when some document is
   * not blank.
   */
  lemma {:induction false} DetachedBatch(codec: Codec, docs: seq<string>, namespace: string, delete: bool, custom: bool)
    ensures var run := Each(Detached, docs, DocumentStep(codec, false, namespace, delete, custom));
      run.state == Detached && run.events == [] &&
      (run.err.Some? ==> run.err.value == Error(NoClient)) &&
      (run.err == None <==> forall k :: 0 <= k < |docs| ==> TrimSpace(docs[k]) == "")
    decreases |docs|
  {
    if docs != [] {
      NoClientIsFatal(delete);
      DocumentApplied(codec, false, Detached, namespace, docs[0], delete, custom);
      DetachedBatch(codec, docs[1..], namespace, delete, custom);
      if TrimSpace(docs[0]) == "" {
        assert forall k :: 1 <= k < |docs| ==> docs[k] == docs[1..][k - 1];
      }
    }
  }

  /** The state behind a handle; a handle that has not been created stands for `Detached`. */
  function Now(client: Cluster?): State
    reads client
  {
    if client == null then Detached else client.Snapshot()
  }

  /** The calls and pauses logged on a handle; none on a handle that has not been created. */
  ghost function Trail(client: Cluster?): seq<Event>
    reads client
  {
    if client == null then [] else client.log
  }

  /** Like `Did`, for a handle that may not have been created. */
  ghost predicate Reached(client: Cluster?, log: seq<Event>, run: Run, err: Option<Fault>)
    reads client
  {
    Now(client) == run.state && Trail(client) == log + run.events && err == run.err
  }

  /** The callback `applyRulePayload` hands to `EachListItem`, on the client handle. */
  method ApplyItem(client: Cluster, obj: Object, namespace: string, delete: bool, custom: bool)
    returns (err: Option<Fault>)
    modifies client
    ensures Did(client, old(client.log), Rule(namespace, delete, custom)(old(client.Snapshot()), obj), err)
  {
    RuleApplied(client.Snapshot(), obj, namespace, delete, custom);
    err := ExecuteRule(client, obj, namespace, delete, custom);
  }

  /** `EachListItem` with `executeRule` on the client handle. */
  method EachListItem(client: Cluster, items: seq<Object>, namespace: string, delete: bool, custom: bool)
    returns (err: Option<Fault>)
    modifies client
    ensures Did(client, old(client.log), Each(old(client.Snapshot()), items, Rule(namespace, delete, custom)), err)
  {
    ghost var step := Rule(namespace, delete, custom);
    ghost var start := client.Snapshot();
    ghost var log := client.log;
    ghost var done: seq<Event> := [];
    var i := 0;
    while i < |items|
      invariant 0 <= i <= |items|
      invariant client.log == log + done
      invariant Each(start, items, step) == Then(Run(client.Snapshot(), done, None), Each(client.Snapshot(), items[i..], step))
    {
      EachNext(start, items, i, step, client.Snapshot(), done);
      ghost var first := step(client.Snapshot(), items[i]);
      err := ApplyItem(client, items[i], namespace, delete, custom);
      Regroup(log, done, first.events);
      done := done + first.events;
      if err.Some? {
        return;
      }
      i := i + 1;
    }
    assert done + [] == done;
    err := None;
  }

  /** `applyRulePayload` on a client handle that may not have been created. */
  method ApplyRulePayload(client: Cluster?, codec: Codec, namespace: string, doc: string, delete: bool, custom: bool)
    returns (err: Option<Fault>)
    modifies client
    ensures Reached(client, old(Trail(client)),
      PayloadRun(codec, client != null, old(Now(client)), namespace, doc, delete, custom), err)
  {
    if client == null {
      return Some(Error(NoClient));
    }
    var json := codec.toJson(doc);
    if json.Failure? {
      return Some(Error(Wrap(ConvertContext, json.error)));
    }
    if |json.value| > 5 {
      var data := codec.unmarshal(json.value);
      if data.Failure? {
        return Some(Error(Wrap(UnmarshalContext, data.error)));
      }
      if data.value.List? {
        err := EachListItem(client, data.value.items, namespace, delete, custom);
        return;
      }
      err := ExecuteRule(client, data.value.obj, namespace, delete, custom);
      return;
    }
    assert client.log == old(client.log) + [];
    return None;
  }

  /** One pass of the loop of `applyConfigChange` on a client handle that may not have been created. */
  method ApplyDocument(client: Cluster?, codec: Codec, namespace: string, doc: string, delete: bool, custom: bool)
    returns (err: Option<Fault>)
    modifies client
    ensures Reached(client, old(Trail(client)),
      DocumentStep(codec, client != null, namespace, delete, custom)(old(Now(client)), doc), err)
  {
    DocumentApplied(codec, client != null, Now(client), namespace, doc, delete, custom);
    if TrimSpace(doc) == "" {
      assert Trail(client) == Trail(client) + [];
      return None;
    }
    err := ApplyRulePayload(client, codec, namespace, doc, delete, custom);
    if err.Some? && Ignorable(err.value, delete) {
      err := None;
    }
  }

  /** The loop of `applyConfigChange` over the split documents, on a created client handle. */
  method ApplyDocuments(client: Cluster, codec: Codec, docs: seq<string>, namespace: string, delete: bool, custom: bool)
    returns (err: Option<Fault>)
    modifies client
    ensures Did(client, old(client.log), Each(old(client.Snapshot()), docs, DocumentStep(codec, true, namespace, delete, custom)), err)
  {
    ghost var step := DocumentStep(codec, true, namespace, delete, custom);
    ghost var start := client.Snapshot();
    ghost var log := client.log;
    ghost var done: seq<Event> := [];
    var i := 0;
    while i < |docs|
      invariant 0 <= i <= |docs|
      invariant client.log == log + done
      invariant Each(start, docs, step) == Then(Run(client.Snapshot(), done, None), Each(client.Snapshot(), docs[i..], step))
    {
      EachNext(start, docs, i, step, client.Snapshot(), done);
      ghost var first := step(client.Snapshot(), docs[i]);
      err := ApplyDocument(client, codec, namespace, docs[i], delete, custom);
      Regroup(log, done, first.events);
      done := done + first.events;
      if err.Some? {
        return;
      }
      i := i + 1;
    }
    assert done + [] == done;
    err := None;
  }

  /**
   * The same loop when the client handle has not been created: the first
   * document that is not blank fails with "mesh client has not been created".
   */
  method DetachedDocuments(codec: Codec, docs: seq<string>, namespace: string, delete: bool, custom: bool)
    returns (err: Option<Fault>)
    ensures Each(Detached, docs, DocumentStep(codec, false, namespace, delete, custom)) == Run(Detached, [], err)
  {
    ghost var step := DocumentStep(codec, false, namespace, delete, custom);
    var i := 0;
    while i < |docs|
      invariant 0 <= i <= |docs|
      invariant Each(Detached, docs, step) == Then(Run(Detached, [], None), Each(Detached, docs[i..], step))
    {
      EachNext(Detached, docs, i, step, Detached, []);
      err := ApplyDocument(null, codec, namespace, docs[i], delete, custom);
      assert [] + step(Detached, docs[i]).events == [];
      if err.Some? {
        return;
      }
      i := i + 1;
    }
    err := None;
  }

  /** `applyConfigChange` on a client handle that may not have been created. */
  method ApplyConfigChange(client: Cluster?, codec: Codec, text: string, namespace: string, delete: bool, custom: bool)
    returns (err: Option<Fault>)
    modifies client
    ensures Reached(client, old(Trail(client)),
      ConfigChangeRun(codec, client != null, old(Now(client)), text, namespace, delete, custom), err)
  {
    var split := SplitYaml(codec.decoder(text));
    if split.Failure? {
      assert Trail(client) == Trail(client) + [];
      return Some(Error(Wrap(SplitContext, split.error)));
    }
    if client == null {
      err := DetachedDocuments(codec, split.value, namespace, delete, custom);
    } else {
      err := ApplyDocuments(client, codec, split.value, namespace, delete, custom);
    }
  }

  /** `createNamespace` on a client handle that may not have been created; `render` is the template renderer. */
  method CreateNamespace(client: Cluster?, codec: Codec, render: string -> Result<string, string>, namespace: string)
    returns (err: Option<Fault>)
    modifies client
    ensures Reached(client, old(Trail(client)), NamespaceRun(codec, client != null, old(Now(client)), render, namespace), err)
  {
    var text := render(namespace);
    if text.Failure? {
      assert Trail(client) == Trail(client) + [];
      return Some(Error(text.error));
    }
    err := ApplyConfigChange(client, codec, text.value, namespace, false, false);
  }
}
