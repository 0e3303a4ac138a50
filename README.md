# Manifest engine of the service-mesh adapter library

This project models the part of the adapter library that applies Kubernetes
manifests through a dynamic client (`adapter/k8s.go`). The modelled behaviour:

- A multi-document YAML text is split into documents (`splitYAML`).
- Each non-blank document is converted, decoded and applied (`applyConfigChange`, `applyRulePayload`).
- A document that holds a list applies its items one after another.
- Each object's resource type is derived from its `apiVersion` and `kind`, and it is
  deleted, created, or deleted and then re-created (`executeRule`).
- Every API call is tried on the namespaced path first and on the cluster-wide path second
  (`createResource`, `getResource`, `updateResource`, `deleteResource`).
- A deployment is scaled to zero replicas before it is deleted.
- The default namespace is never deleted.
- `createNamespace` renders the namespace manifest and applies it in create mode.

The model has two layers:

- **Spec functions.** Each Go function becomes a pure function of the server state. It
  returns a `Run`: the new state, the calls made in order (with the one-second pauses), and
  the error.
- **Methods on the handle.** The same functions are also methods on a `Cluster` handle whose
  fields the calls update in place. Every method is proved to produce exactly the `Run` of its
  spec function. The properties are proved as lemmas about the spec functions.

The API server is modelled in `Store` as follows:

- It serves a set of resource types, each namespaced or cluster-scoped, and stores objects
  under (type, namespace, name).
- A call on a path it does not serve fails with its 404 text ("the server could not find the
  requested resource").
- A create on the cluster-wide path of a namespaced type fails with its 405 text.
- A queue of injected faults lets any call fail for reasons of the server's own.
- A get, update or delete without a name is refused by the dynamic client itself with "name
  is required", before anything is sent; a create without a name gets the server's 422 answer.

Modules:

- `wrappers.dfy`: `Option` and `Result`.
- `text.dfy`: the Go `strings` helpers the code relies on, and the text of `errors.Wrap`.
- `kube.dfy`: objects, resource types and decoded documents.
- `resolver.dfy`: from `apiVersion` and `kind` to a group/version/resource.
- `splitter.dfy`: `splitYAML` over the reads of a document decoder.
- `store.dfy`: the API server and the client handle.
- `orchestrator.dfy`: the per-object operations and `executeRule`.
- `batch.dfy`: `applyRulePayload`, `applyConfigChange` and `createNamespace`.

Two facts about the code that shape the model:

- The delete-and-re-create fallback of custom operations sits in `executeRule`, after a
  failed create.
- `createNamespace` has no guard for delete mode or for the default namespace.

## Model

| member | source | states |
|---|---|---|
| Text.Split | adapter/k8s.go:84 | `strings.Split` always yields at least one piece |
| Text.SplitCount | adapter/k8s.go:84-92 | splitting on `/` gives one piece more than there are slashes, which decides between the one- and two-piece cases |
| Text.JoinSplit | adapter/k8s.go:84 | joining the pieces of a split gives the `apiVersion` back |
| Text.SplitPiecesFree | adapter/k8s.go:84 | no piece holds the separator |
| Text.SplitOneSeparator | adapter/k8s.go:84-89 | `group/version` splits into exactly `[group, version]` |
| Text.ToLower | adapter/k8s.go:94 | lower-casing keeps the length |
| Text.HasSuffix | adapter/k8s.go:229-237 | `strings.HasSuffix`: the text is some prefix followed by the suffix |
| Text.Trim | adapter/k8s.go:316 | `strings.Trim` is no longer than its input and does not end with a cut character |
| Text.TrimSpace | adapter/k8s.go:227-229 | `strings.TrimSpace` is no longer than its input and neither starts nor ends with white space |
| Text.Wrap | adapter/k8s.go:133-139 | the text of `errors.Wrap` starts with the message and ends with the cause |
| Text.WrapKeepsSuffix | adapter/k8s.go:229-240 | wrapping an error keeps the suffix its trimmed text ends with, so the suffix checks see through `errors.Wrap` |
| Text.TrimKeepsSuffix | adapter/k8s.go:229-230 | trimming white space keeps a suffix that starts and ends with a kept character |
| Text.TrimEnds | adapter/k8s.go:315-316 | a trimmed text neither starts nor ends with a cut character |
| Text.TrimIgnoresPadding | adapter/k8s.go:303-316 | trailing NUL padding makes no difference once trimmed |
| Resolver.GroupVersion | adapter/k8s.go:84-92 | no slash: the empty group and the whole text as version; one slash: the two sides; more: both empty |
| Resolver.Plural | adapter/k8s.go:94-102 | every resource name ends in "s" |
| Resolver.Resolve | adapter/k8s.go:84-108 | group and version come from the `apiVersion` split, and the resource is the plural of the kind |
| Resolver.GroupVersionOfPair | adapter/k8s.go:84-89 | `group/version` without other slashes is taken apart exactly |
| Resolver.PluralIgnoresCase | adapter/k8s.go:94 | the resource depends on the kind only up to ASCII case |
| Resolver.PluralRegular | adapter/k8s.go:100-101 | any other kind becomes its lower-case form plus "s", one character longer |
| Resolver.PluralCollides | adapter/k8s.go:95-102 | "logentry" and "logentrie" map to the same resource |
| Resolver.PluralLogEntry | adapter/k8s.go:96-97 | "LogEntry" maps to "logentries" |
| Resolver.ResolveKubernetes | adapter/k8s.go:98-99 | "Kubernetes" maps to "kuberneteses" |
| Resolver.ResolveService | adapter/k8s.go:84-108 | `v1`/`Service` maps to the core group, `v1`, `services` |
| Resolver.ResolveGrouped | adapter/k8s.go:84-108 | a grouped `apiVersion` routes to that group and version with the plural of the kind |
| Splitter.Buffer | adapter/k8s.go:299-300 | the 1000-byte buffer starts with the bytes read and has its full length |
| Splitter.Buffers | adapter/k8s.go:294-312 | the number of untrimmed documents is one more than the number of `nil` reads |
| Splitter.Texts | adapter/k8s.go:294-312 | the delivered text, grouped by document, has as many pieces as there are documents |
| Splitter.Documents | adapter/k8s.go:313-320 | the documents `splitYAML` returns: one more than there are `nil` reads before the end (with `SplitYaml`, `DocumentsHaveNoNulEnds` and `DocumentsAreTrimmedTexts`) |
| Splitter.Zeros | adapter/k8s.go:299 | a fresh buffer is all NULs |
| Splitter.MergeContinue | adapter/k8s.go:294-312 | a read that continues a document moves into the documents so far |
| Splitter.MergeClose | adapter/k8s.go:308-311 | a `nil` read closes the current document |
| Splitter.MergeLast | adapter/k8s.go:297 | the read that ends the loop leaves nothing to come |
| Splitter.Appending | adapter/k8s.go:302-307 | one turn's update of the current document: open a document when needed, and append the buffer when a byte was read |
| Splitter.Advance | adapter/k8s.go:294-312 | one loop turn keeps the documents so far plus those to come equal to the whole result |
| Splitter.SplitYaml | adapter/k8s.go:281-321 | without a decoder, the error "unable to create a yaml decoder"; otherwise exactly the trimmed documents of the reads |
| Splitter.TrimAll | adapter/k8s.go:313-319 | every document is NUL-trimmed, in order, and none is lost |
| Splitter.DocumentCount | adapter/k8s.go:294-312 | one document more than there are `nil` reads |
| Splitter.DocumentsHaveNoNulEnds | adapter/k8s.go:313-319 | no returned document begins or ends with NUL |
| Splitter.BuffersArePaddedTexts | adapter/k8s.go:294-312 | when the decoder returns `ErrShortBuffer` only after filling the buffer, each document is its text followed by NULs |
| Splitter.DocumentsAreTrimmedTexts | adapter/k8s.go:281-321 | under that decoder contract, the documents do not depend on how the decoder chunked the text |
| Store.NotFound | adapter/k8s.go:229-233 | a NotFound message ends in "not found" |
| Store.AlreadyExists | adapter/k8s.go:236-237 | an AlreadyExists message ends in "already exists" |
| Store.Respond | adapter/k8s.go:131-217 | one client call keeps the types. A nameless get, update or delete is refused with "name is required", consuming no fault and changing nothing; every other call consumes one fault. A call succeeds exactly when it names an object, there is no fault, the path is served and the object exists (is absent, for a create). Only a successful create, update or delete changes the objects: a create or update stores the body, in the call's namespace, under the addressed key, and a delete removes that key |
| Store.Unnamed | adapter/k8s.go:132-136 | the server's answer to a create without a name ends in "name or generateName is required" |
| Store.NameRequiredTrimmed | adapter/k8s.go:229-231 | the client's "name is required" is already trimmed |
| Store.RespondKeepsStored | adapter/k8s.go:131-217 | every call keeps each object under its own namespace and name |
| Store.CreateThenGet | adapter/k8s.go:132 | an object just created reads back, placed in the call's namespace |
| Store.DeleteThenGet | adapter/k8s.go:171 | an object just deleted reads back as NotFound |
| Store.NotFoundTrimmed | adapter/k8s.go:229-231 | trimming keeps a NotFound message ending in "not found" |
| Store.AlreadyExistsTrimmed | adapter/k8s.go:236 | trimming keeps an AlreadyExists message ending in "already exists" |
| Store.NotAllowedTrimmed | adapter/k8s.go:229 | the 405 text is already trimmed |
| Store.NoRouteTrimmed | adapter/k8s.go:229-231 | the 404 text is already trimmed and so matches the second suffix check |
| Store.NotAllowedIsNoConflict | adapter/k8s.go:236 | a text ending with the 405 answer does not end with "already exists" |
| Store.Cluster.constructor | adapter/k8s.go:131-217 | a handle starts on the given server state with an empty log |
| Store.Cluster.Send | adapter/k8s.go:131-217 | a call over the handle updates the server in place as `Respond` says and logs the call |
| Store.Cluster.Settle | adapter/k8s.go:120 | the one-second sleep changes no state and is logged as a pause |
| Orchestrator.Fallback | adapter/k8s.go:131-217 | the namespaced-then-cluster-wide pattern never pauses |
| Orchestrator.FallbackOutcome | adapter/k8s.go:131-217 | the cluster-wide call is made exactly when the namespaced one fails. The operation fails exactly when both fail, and its error is the second error wrapped with the operation's context. The returned object comes from the call that succeeded |
| Orchestrator.FallbackKinds | adapter/k8s.go:131-217 | both attempts are calls of the same kind |
| Orchestrator.CreateRun | adapter/k8s.go:131-145 | `createResource` keeps the types. A failed create has made both calls, returns an error (not a panic) and changes no object; a successful one adds exactly the key of the document's name, in its namespace or cluster-wide |
| Orchestrator.GetRun | adapter/k8s.go:187-202 | `getResource` changes nothing, and a returned object is the one stored under the document's name, in its namespace or cluster-wide |
| Orchestrator.UpdateRun | adapter/k8s.go:204-217 | `updateResource` never adds or removes an object, and a failed update changes none. A successful one stores the document under its name, in its namespace or (with the namespace cleared) cluster-wide |
| Orchestrator.DeleteCalls | adapter/k8s.go:171-184 | the delete calls change no object when they fail, and on success remove exactly the key of the document's name, in its namespace or cluster-wide |
| Orchestrator.ScaledDown | adapter/k8s.go:162-165 | `spec.replicas` becomes 0, every other spec field and the rest of the object are kept |
| Orchestrator.ScaleRun | adapter/k8s.go:157-169 | the scale-down never pauses and keeps the types |
| Orchestrator.DeleteRun | adapter/k8s.go:147-185 | deleting the default namespace makes no call and succeeds; a delete never pauses and keeps the types |
| Orchestrator.Placed | adapter/k8s.go:81-83 | the namespace is replaced when one is given and kept otherwise; nothing else changes |
| Orchestrator.Perform | adapter/k8s.go:111-128 | at most one pause, and only in the retry of a custom create; the types are kept |
| Orchestrator.ExecuteRun | adapter/k8s.go:80-129 | `executeRule` keeps the types and pauses at most once, only in a custom create (with `PerformModes`, `PerformRetry`, `PerformCreateFails`: its flow) |
| Orchestrator.ScaleThenDelete | adapter/k8s.go:157-171 | when calls without a delete include a given call after the first, and more calls follow, every delete comes after that call |
| Orchestrator.ScaleRunCalls | adapter/k8s.go:157-169 | the scale-down sends the get of the deployment first and no delete. When it succeeds, the get returned a live object with a `spec`, and an update of exactly that object with `replicas` set to 0 was sent after the get |
| Orchestrator.DeploymentScaledBeforeDelete | adapter/k8s.go:157-176 | deleting a deployment sends the get first. Every delete request comes after an update of the object that get returned, with `replicas` set to 0 |
| Orchestrator.DeploymentStopsOnError | adapter/k8s.go:158-168 | if the get or the update of the scale-down fails, its error is returned and no delete is sent |
| Orchestrator.CreateStores | adapter/k8s.go:131-145 | creating an absent object stores it in its scope, without error |
| Orchestrator.CreateExisting | adapter/k8s.go:131-145 | creating an existing object fails and changes nothing. For a cluster-scoped type the error ends in "already exists"; for a namespaced type it ends with the 405 of the cluster-wide retry |
| Orchestrator.GetAbsent | adapter/k8s.go:187-202 | reading an absent object fails with the second call's miss, wrapped |
| Orchestrator.DeleteCallsAbsent | adapter/k8s.go:171-182 | the delete calls on an absent object fail with the second call's miss, wrapped |
| Orchestrator.MissingTrimmed | adapter/k8s.go:229-233 | a wrapped miss ends in "not found" (cluster-scoped) or in the 404 text (namespaced) |
| Orchestrator.DeleteAbsent | adapter/k8s.go:147-185 | deleting an absent object fails without changing anything, with an error that ends in "not found" or the 404 text |
| Orchestrator.GetPresent | adapter/k8s.go:187-202 | reading an existing object returns it and changes nothing |
| Orchestrator.UpdatePresent | adapter/k8s.go:204-217 | updating an existing object succeeds and replaces it with the document, placed in its scope |
| Orchestrator.DeleteCallsPresent | adapter/k8s.go:171-184 | the delete calls on an existing object remove exactly it |
| Orchestrator.DeleteRemoves | adapter/k8s.go:147-185 | deleting an existing object removes exactly it without error, and keeps the default namespace |
| Orchestrator.DeleteRunNeverCreates | adapter/k8s.go:147-185 | a delete never sends a create |
| Orchestrator.PerformModes | adapter/k8s.go:111-128 | delete mode sends no create; plain create mode sends only creates |
| Orchestrator.PerformRetry | adapter/k8s.go:115-123 | a failed custom create is followed by the delete, one pause and the second create, in that order |
| Orchestrator.PerformCreateFails | adapter/k8s.go:114-126 | a failed plain create returns the create's result; in a custom operation a failed delete returns its error, with no pause and no create after the first |
| Orchestrator.NamelessDelete | adapter/k8s.go:147-185 | deleting a document without a name changes nothing and fails with "name is required", wrapped with the context of the get (deployments) or of the delete |
| Orchestrator.RecreateStores | adapter/k8s.go:117-121 | deleting an existing object and creating it again stores the new one |
| Orchestrator.CustomReplaces | adapter/k8s.go:111-128 | a custom operation on an existing object replaces it, pausing once, without error |
| Orchestrator.CreateResource | adapter/k8s.go:131-145 | on the handle: exactly the state, calls and error of `CreateRun` |
| Orchestrator.GetResource | adapter/k8s.go:187-202 | on the handle: exactly the state, calls and result of `GetRun` |
| Orchestrator.UpdateResource | adapter/k8s.go:204-217 | on the handle: exactly the state, calls and error of `UpdateRun` |
| Orchestrator.DeleteCallsOn | adapter/k8s.go:171-184 | on the handle: exactly the two-step delete of `DeleteCalls` |
| Orchestrator.DeleteResource | adapter/k8s.go:147-185 | a missing client gives "mesh client has not been created"; otherwise exactly `DeleteRun` |
| Orchestrator.ScaleDeployment | adapter/k8s.go:157-169 | on the handle: exactly `ScaleRun` |
| Orchestrator.ExecuteRule | adapter/k8s.go:80-129 | on the handle: exactly `ExecuteRun` |
| Batch.Each | adapter/k8s.go:268-271 | an empty list makes no call; a first item that fails ends the run with its result |
| Batch.PayloadRun | adapter/k8s.go:249-279 | a missing client gives "mesh client has not been created" with no call. JSON of at most five bytes is skipped without error. A conversion error is wrapped with "unable to convert yaml to json" |
| Batch.Ignorable | adapter/k8s.go:229-240 | the errors the loop steps over; a panic is never one of them |
| Batch.IgnorableAnswers | adapter/k8s.go:229-240 | a wrapped NotFound or 404 is stepped over in delete mode and a wrapped AlreadyExists in create mode; a NotFound is not stepped over in create mode |
| Batch.DocumentRun | adapter/k8s.go:227-244 | a blank document makes no call. Otherwise the document is `applyRulePayload`: its error is dropped exactly when it is ignorable and kept otherwise, so an error that survives is never ignorable |
| Batch.NamespaceRun | adapter/k8s.go:323-334 | a render error is returned unchanged with no call (with `NamespaceOnlyCreates`: only creates are sent) |
| Batch.ConfigChangeRun | adapter/k8s.go:219-225 | without a decoder the error is "error while splitting yaml: unable to create a yaml decoder" |
| Batch.EachConcat | adapter/k8s.go:226-246 | a run over `a + b` is the run over `a`, then, unless it failed, the run over `b` |
| Batch.EachFrom | adapter/k8s.go:226-246 | the run from element `i` is element `i`, then the rest unless it failed |
| Batch.EachStopsAt | adapter/k8s.go:226-246 | when element `k` is the first whose step fails, the run ends with that step's result and the elements after `k` are never applied |
| Batch.EachNext | adapter/k8s.go:226-246 | one loop turn: a failing step ends the run; otherwise its calls join those made so far |
| Batch.BatchErrorsFatal | adapter/k8s.go:226-246 | an error returned by the batch is never one of the suppressed kinds |
| Batch.FirstFatalDocument | adapter/k8s.go:226-246 | when document `k` is the first that fails with an error the loop does not step over, the batch returns that error and never applies the documents after it |
| Batch.EachOnlyCreates | adapter/k8s.go:226-246 | if every step only creates, the whole run only creates |
| Batch.DocumentOnlyCreates | adapter/k8s.go:249-279 | in plain create mode a document sends only creates |
| Batch.NamespaceOnlyCreates | adapter/k8s.go:323-334 | `createNamespace` sends nothing but creates: no delete, update or pause |
| Batch.ManifestRun | adapter/k8s.go:227-278 | a document holding one object is `executeRule` on it, with an ignorable error dropped |
| Batch.AbsentDeleteSkipped | adapter/k8s.go:229-234 | deleting a manifest whose object is gone is stepped over and leaves the server unchanged |
| Batch.ExistingCreate | adapter/k8s.go:235-238 | re-creating an existing object changes nothing. The error is stepped over for a cluster-scoped type but fails the batch for a namespaced one |
| Batch.NamelessDeleteFatal | adapter/k8s.go:229-242 | deleting a manifest without a name is not stepped over: the batch fails with the server unchanged |
| Batch.NameRequiredIsFatal | adapter/k8s.go:229-242 | "name is required", however wrapped, is never stepped over in delete mode |
| Batch.RequiredIsFatal | adapter/k8s.go:229-233 | an error ending in "name is required" matches neither delete-mode suffix |
| Batch.ListStopsAtIgnorable | adapter/k8s.go:268-272 | a list stops at its first failing item even when the batch would step over that error, so later items are never applied |
| Batch.NoClientIsFatal | adapter/k8s.go:250-252 | the missing-client error is never stepped over |
| Batch.DetachedBatch | adapter/k8s.go:226-252 | without a client no call is made. The batch fails with "mesh client has not been created" exactly when some document is not blank |
| Batch.ApplyItem | adapter/k8s.go:269-272 | on the handle: exactly the list callback |
| Batch.EachListItem | adapter/k8s.go:268-272 | on the handle: exactly `Each` over the items with `executeRule` |
| Batch.ApplyRulePayload | adapter/k8s.go:249-279 | on the handle, with or without a client: exactly `PayloadRun` |
| Batch.ApplyDocument | adapter/k8s.go:227-244 | on the handle: exactly one pass of the loop |
| Batch.ApplyDocuments | adapter/k8s.go:226-246 | on a created handle: exactly `Each` over the documents |
| Batch.DetachedDocuments | adapter/k8s.go:226-246 | without a client: no call, no change, and the error `Each` gives |
| Batch.ApplyConfigChange | adapter/k8s.go:219-247 | on the handle, with or without a client: exactly `ConfigChangeRun` |
| Batch.CreateNamespace | adapter/k8s.go:323-334 | on the handle: exactly `NamespaceRun` (a render error is returned unchanged) |

## Left out

- Kubeconfig handling and client creation are not part of this model. A client handle is
  either given (`Cluster`) or absent (`null`).
- `executeTemplate` is a parameter `render` of `createNamespace`. The template engine and
  its files are not modelled.
- YAML-to-JSON conversion, JSON decoding, `IsList` and the document decoder are library
  code. They are parameters: the `Codec`, and the reads the decoder delivers.
- `EachListItem`'s internals are left out. It is modelled as "each item in order, stop at
  the first error", which is how the code uses it.
- Logging, the `context.Context` argument and the decoder's `Close` have no effect on the
  result and are left out.
- `time.Sleep` is a ghost `Pause` event in the call log. Time itself is not modelled.
- Text is `seq<char>` with one character per byte. `strings.ToLower` is modelled on ASCII
  letters only, which is what resource kinds use.
- `Text.TrimSpace` cuts only the single-byte white space. Go's `strings.TrimSpace` also cuts
  the multi-byte Unicode spaces (U+0085, U+00A0, U+2000 and others), which are sequences of
  several characters in this byte model.
- The API server is an abstract model: scopes, stored objects, a 404 for unserved paths, a
  405 for creates on the cluster-wide path of a namespaced type, and injected faults.
  Admission, defaulting, resource versions, watches and garbage collection are not modelled.
  Deleting a deployment removes only that object; its replica sets and pods are not modelled.
- `Store.Respond`: a successful delete removes the object at once. Graceful deletion and
  finalizers, which can keep a deleted object around for a while (the reason for the pause
  before the re-create), are not modelled, so `DeleteThenGet`, `RecreateStores` and
  `CustomReplaces` hold only under this simplification.
- `Store.Respond` does not check that a namespace exists: a create into any namespace succeeds.
  The real server refuses such a create with `namespaces "<ns>" not found`, which is why
  `createNamespace` exists. `CreateStores`, `RecreateStores` and `CustomReplaces` hold only
  under this simplification.
- `Store.Respond`: `generateName` is not modelled; a create without a name always gets the 422
  answer.
- `Store.Cluster.Send` logs a call the client refuses for want of a name as well; the log
  records the calls of the dynamic client's methods, not the requests that reach the server.
- The panic of the `spec` type assertion (`adapter/k8s.go:163`) is a `Panic` failure. It ends
  the request and is never stepped over. The Go runtime's unwinding is not modelled.
  `Object.spec` is `None` both when the field is missing and when it is not an object, and the
  panic text is the one for a missing `spec`; when `spec` holds another JSON type the Go
  runtime names that type in place of `nil`.
- `applyConfigChange` with a missing client is proved in two loops, `ApplyDocuments` and
  `DetachedDocuments`, chosen by whether the handle exists. Their results are proved equal
  to the single loop of the code.
- `Splitter.SplitYaml`: the decoder either cannot be made (`None`) or yields a finite
  sequence of reads, followed by end-of-stream. A decoder that never ends is not modelled.
- `Batch.PayloadRun`: the `len(jsonBytes) > 5` test sees the whole JSON text; bytes and
  characters are the same here.
