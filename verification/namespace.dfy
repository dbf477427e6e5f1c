/** rancher2_namespace: the decisions inside its create/read/update/delete
    flows. The client calls themselves are parameters: what `ByID` returned,
    and whether the delete and the wait for "removed" failed. */
module Namespace {
  import opened Attr
  import opened ResourceState

  /** The fields of clusterClient.Namespace the provider reads. */
  datatype Namespace = Namespace(
    id: string,
    projectId: string,
    name: string,
    description: string,
    annotations: map<string, string>,
    labels: map<string, string>,
    state: string)

  /** The outcome of client.Namespace.ByID. The generated client allocates
      the object it decodes into before the call, so a "not found" error
      still comes with an object (`obj`). */
  datatype Lookup = Found(ns: Namespace) | NotFound(obj: Namespace) | Failed(err: string)

  /** What a refresh function hands to the state waiter: the object, its state, an error. */
  datatype Refresh = Refresh(obj: Option<Namespace>, state: string, err: Option<string>)

  const RemovedState := "removed"

  /** namespaceStateRefreshFunc, for one poll. */
  function RefreshNamespace(l: Lookup): (r: Refresh)
    ensures r.err.Some? <==> l.Failed?
    ensures r.obj.None? <==> l.Failed?
    ensures l.Failed? ==> r == Refresh(None, "", Some(l.err))
    ensures l.NotFound? ==> r == Refresh(Some(l.obj), RemovedState, None)
    ensures l.Found? ==> r == Refresh(Some(l.ns), l.ns.state, None)
  {
    match l
    case NotFound(obj) => Refresh(Some(obj), RemovedState, None)
    case Failed(e) => Refresh(None, "", Some(e))
    case Found(ns) => Refresh(Some(ns), ns.state, None)
  }

  /** One poll reaches a target state of the waiter: no error, an object
      (a nil one counts as "not found"), and the target state. */
  predicate Reaches(r: Refresh, target: string)
  {
    r.err.None? && r.obj.Some? && r.state == target
  }

  /** A poll of the delete's wait reaches "removed" exactly when the
      namespace is no longer found or is found already removed; a lookup
      error never does. */
  lemma RefreshReachesRemoved(l: Lookup)
    ensures Reaches(RefreshNamespace(l), RemovedState) <==>
      l.NotFound? || (l.Found? && l.ns.state == RemovedState)
    ensures l.Failed? ==> !Reaches(RefreshNamespace(l), RemovedState)
  {
  }

  /** The move decision of resourceRancher2NamespaceUpdate, over the cluster and
      project parts of the desired project id (`clusterId`, `projectId`) and of
      the namespace's current one (`readClusterId`, `readProjectId`). */
  predicate ShouldMove(clusterId: string, projectId: string, readClusterId: string, readProjectId: string)
  {
    projectId != readProjectId && (clusterId == readClusterId || readClusterId == "")
  }

  /** A namespace is never moved into the project it is already in, never
      moved across clusters, and always moved when only the project differs
      or when it sits outside any cluster project. */
  lemma MoveRule(clusterId: string, projectId: string, readClusterId: string, readProjectId: string)
    ensures projectId == readProjectId ==> !ShouldMove(clusterId, projectId, readClusterId, readProjectId)
    ensures readClusterId != "" && readClusterId != clusterId ==> !ShouldMove(clusterId, projectId, readClusterId, readProjectId)
    ensures projectId != readProjectId && clusterId == readClusterId ==> ShouldMove(clusterId, projectId, readClusterId, readProjectId)
    ensures projectId != readProjectId && readClusterId == "" ==> ShouldMove(clusterId, projectId, readClusterId, readProjectId)
  {
  }

  /** The values an update sends. */
  datatype PayloadValue = Text(s: string) | Quota(q: Value) | Labels(m: map<string, string>)

  /** The update payload of resourceRancher2NamespaceUpdate; `quota` is what
      expandNamespaceResourceQuota made of resource_quota. */
  function UpdatePayload(d: ResourceData, quota: Value): (r: map<string, PayloadValue>)
    reads d
    ensures r.Keys == {"description", "resourceQuota", "annotations", "labels"}
    ensures "projectId" !in r
    ensures r["description"] == Text(AsStr(d.Get("description")))
  {
    map[
      "description" := Text(AsStr(d.Get("description"))),
      "resourceQuota" := Quota(quota),
      "annotations" := Labels(ToMapString(MapIn(d.attrs, "annotations"))),
      "labels" := Labels(ToMapString(MapIn(d.attrs, "labels")))]
  }

  /** resourceRancher2NamespaceDelete after the client is built: `lookup` is
      what ByID returned, `deleteErr` what Delete returned and `waitErr` what
      waiting for "removed" returned. */
  method DeleteNamespace(d: ResourceData, lookup: Lookup, deleteErr: Option<string>, waitErr: Option<string>)
    returns (err: Option<string>)
    modifies d`id
    ensures lookup.NotFound? ==> err.None? && d.id == ""
    ensures lookup.Failed? ==> err == Some(lookup.err) && d.id == old(d.id)
    ensures lookup.Found? && deleteErr.Some? ==> err == Some("Error removing Namespace: " + deleteErr.value) && d.id == old(d.id)
    ensures lookup.Found? && deleteErr.None? && waitErr.Some? ==> err.Some? && d.id == old(d.id)
    ensures err.None? <==> lookup.NotFound? || (lookup.Found? && deleteErr.None? && waitErr.None?)
    ensures err.None? ==> d.id == ""
  {
    var id := d.id;
    match lookup {
      case NotFound(_) =>
        d.SetId("");
        return None;
      case Failed(e) =>
        return Some(e);
      case Found(ns) =>
    }
    if deleteErr.Some? {
      return Some("Error removing Namespace: " + deleteErr.value);
    }
    if waitErr.Some? {
      return Some("[ERROR] waiting for namespace (" + id + ") to be removed: " + waitErr.value);
    }
    d.SetId("");
    err := None;
  }
}
