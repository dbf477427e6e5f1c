/** rancher2_namespace_move: flattenNamespaceMove and expandNamespaceMove. */
module NamespaceMove {
  import opened Attr
  import opened ResourceState
  import opened Namespace

  /** What flattenNamespaceMove writes: the cluster it was given, then the
      namespace's own attributes. */
  function MoveAttr(clusterId: string, ns: Namespace, k: string): Value
  {
    match k
    case "cluster_id" => Str(clusterId)
    case "project_id" => Str(ns.projectId)
    case "name" => Str(ns.name)
    case "description" => Str(ns.description)
    case "annotations" => Map(ToMapInterface(ns.annotations))
    case "labels" => Map(ToMapInterface(ns.labels))
    case _ => Null
  }

  const MoveKeys: set<string> := {"cluster_id", "project_id", "name", "description", "annotations", "labels"}

  function MoveAttrs(clusterId: string, ns: Namespace): Obj
  {
    map k | k in MoveKeys :: MoveAttr(clusterId, ns, k)
  }

  const MoveOrder := ["cluster_id", "project_id", "name", "description", "annotations", "labels"]

  /** The Set of cluster_id ignores its error; the other five return theirs. */
  function MoveWrites(clusterId: string, ns: Namespace): seq<Write>
  {
    Writes(MoveOrder, MoveAttrs(clusterId, ns), {"project_id", "name", "description", "annotations", "labels"})
  }

  method FlattenNamespaceMove(clusterId: string, d: ResourceData, src: Option<Namespace>) returns (err: Option<string>)
    modifies d`id, d`attrs
    ensures src.None? ==> err.None? && d.id == old(d.id) && d.attrs == old(d.attrs)
    ensures src.Some? ==> d.id == src.value.id
    ensures src.Some? ==> Applied(d.attrs, err) == ApplyWrites(d.schema, old(d.attrs), MoveWrites(clusterId, src.value))
  {
    if src.None? {
      return None;
    }
    var ns := src.value;
    var e := d.Set("cluster_id", Str(clusterId));
    d.SetId(ns.id);
    err := d.SetAll(MoveWrites(clusterId, ns)[1..]);
  }

  /** The cluster is not part of the namespace record, and neither is its state. */
  function ExpandNamespaceMove(d: ResourceData?): (r: Option<Namespace>)
    reads d
    ensures d == null <==> r.None?
    ensures r.Some? ==> r.value.id == d.id && r.value.state == ""
    ensures r.Some? ==> r.value.projectId == AsStr(d.Get("project_id"))
  {
    if d == null then None
    else
      Some(Namespace(
        d.id,
        AsStr(d.Get("project_id")),
        AsStr(d.Get("name")),
        AsStr(d.Get("description")),
        ToMapString(MapIn(d.attrs, "annotations")),
        ToMapString(MapIn(d.attrs, "labels")),
        ""))
  }

  lemma Covered(clusterId: string, ns: Namespace)
    ensures forall i :: 0 <= i < |MoveOrder| ==> MoveOrder[i] in MoveAttrs(clusterId, ns)
    ensures forall k :: k in MoveAttrs(clusterId, ns) ==> k in MoveOrder
  {
  }

  lemma Reads(d: ResourceData, clusterId: string, ns: Namespace)
    requires Holds(d.attrs, MoveAttrs(clusterId, ns))
    ensures d.Get("cluster_id") == Str(clusterId)
    ensures AsStr(d.Get("project_id")) == ns.projectId
    ensures AsStr(d.Get("name")) == ns.name
    ensures AsStr(d.Get("description")) == ns.description
    ensures ToMapString(MapIn(d.attrs, "annotations")) == ns.annotations
    ensures ToMapString(MapIn(d.attrs, "labels")) == ns.labels
  {
    var vals := MoveAttrs(clusterId, ns);
    d.HeldGet(vals, "cluster_id");
    d.HeldGet(vals, "project_id");
    d.HeldGet(vals, "name");
    d.HeldGet(vals, "description");
    MapRead(d.attrs, vals, "annotations", ns.annotations);
    MapRead(d.attrs, vals, "labels", ns.labels);
  }

  /** Expanding what a successful flatten stored gives the namespace back,
      without its state, and the state keeps the cluster it was given. */
  lemma RoundTrip(d: ResourceData, a: Obj, clusterId: string, ns: Namespace)
    requires AllAdmitted(d.schema, MoveWrites(clusterId, ns))
    requires d.id == ns.id && d.attrs == ApplyWrites(d.schema, a, MoveWrites(clusterId, ns)).attrs
    ensures ExpandNamespaceMove(d) == Some(ns.(state := ""))
    ensures d.Get("cluster_id") == Str(clusterId)
  {
    Covered(clusterId, ns);
    WritesHold(d.schema, a, MoveOrder, MoveAttrs(clusterId, ns), {"project_id", "name", "description", "annotations", "labels"});
    Reads(d, clusterId, ns);
  }
}
