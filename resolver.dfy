/**
 * Resource resolution (`executeRule`): a document's `apiVersion` and `kind`
 * determine the group, version and plural resource name its API calls use.
 * No discovery call is made; the plural comes from a fixed naive rule.
 */
module Resolver {
  import opened Text
  import opened Kube

  /**
   * Group and version of an `apiVersion`: `group/version` when it holds one
   * slash, the whole text as version when it holds none, and two empty
   * parts otherwise.
   */
  function GroupVersion(apiVersion: string): (gv: (string, string))
    ensures Count(apiVersion, '/') == 0 ==> gv == ("", apiVersion)
    ensures Count(apiVersion, '/') == 1 ==>
      '/' !in gv.0 && '/' !in gv.1 && apiVersion == gv.0 + "/" + gv.1
    ensures Count(apiVersion, '/') >= 2 ==> gv == ("", "")
  {
    var parts := Split(apiVersion, '/');
    SplitCount(apiVersion, '/');
    SplitPiecesFree(apiVersion, '/');
    JoinSplit(apiVersion, '/');
    if |parts| == 2 then
      assert parts[1..] == [parts[1]];
      (parts[0], parts[1])
    else if |parts| == 1 then
      ("", parts[0])
    else
      ("", "")
  }

  /** The two irregular plurals; every other kind takes a trailing "s". */
  function Plural(kind: string): (r: string)
    ensures HasSuffix(r, "s")
  {
    var k := ToLower(kind);
    if k == "logentry" then "logentries"
    else if k == "kubernetes" then "kuberneteses"
    else k + "s"
  }

  /** The resource type a document's API calls are routed to. */
  function Resolve(apiVersion: string, kind: string): (res: Gvr)
    ensures (res.group, res.version) == GroupVersion(apiVersion)
    ensures res.resource == Plural(kind)
  {
    var gv := GroupVersion(apiVersion);
    Gvr(gv.0, gv.1, Plural(kind))
  }

  /** `group/version` with no other slash is taken apart exactly. */
  lemma GroupVersionOfPair(group: string, version: string)
    requires '/' !in group && '/' !in version
    ensures GroupVersion(group + "/" + version) == (group, version)
  {
    SplitOneSeparator(group, version, '/');
  }

  /** The plural depends on the kind only up to ASCII case. */
  lemma PluralIgnoresCase(kind: string)
    ensures Plural(ToLower(kind)) == Plural(kind)
  {
    assert ToLower(ToLower(kind)) == ToLower(kind);
  }

  /** A regular kind's plural is its lower-cased form followed by "s". */
  lemma PluralRegular(kind: string)
    requires ToLower(kind) != "logentry" && ToLower(kind) != "kubernetes"
    ensures Plural(kind) == ToLower(kind) + "s"
    ensures |Plural(kind)| == |kind| + 1
  {
  }

  /** The naive rule is not injective: two different lower-case kinds share one plural. */
  lemma PluralCollides()
    ensures Plural("logentry") == Plural("logentrie") == "logentries"
  {
    assert ToLower("logentry") == "logentry";
    assert ToLower("logentrie") == "logentrie";
  }

  /** A core kind with a bare version resolves into the empty group. */
  lemma ResolveService()
    ensures Resolve("v1", "Service") == Gvr("", "v1", "services")
  {
    assert ToLower("Service") == "service";
    assert Count("v1", '/') == 0;
  }

  /** A grouped `apiVersion` routes to that group and version. */
  lemma ResolveGrouped(group: string, version: string, kind: string)
    requires '/' !in group && '/' !in version
    ensures Resolve(group + "/" + version, kind) == Gvr(group, version, Plural(kind))
  {
    GroupVersionOfPair(group, version);
  }

  /** The "LogEntry" kind takes the first irregular plural. */
  lemma PluralLogEntry()
    ensures Plural("LogEntry") == "logentries"
  {
    assert ToLower("LogEntry") == "logentry";
  }

  /** The "kubernetes" kind takes the second irregular plural. */
  lemma ResolveKubernetes()
    ensures Resolve("v1", "Kubernetes").resource == "kuberneteses"
  {
    assert ToLower("Kubernetes") == "kubernetes";
  }
}
