/** rancher2_node_pool: flattenNodePool and expandNodePool. */
module NodePool {
  import opened Attr
  import opened ResourceState

  datatype NodePool = NodePool(
    id: string,
    clusterId: string,
    name: string,
    hostnamePrefix: string,
    nodeTemplateId: string,
    quantity: int,
    controlPlane: bool,
    etcd: bool,
    worker: bool,
    annotations: map<string, string>,
    labels: map<string, string>)

  /** What flattenNodePool writes to attribute k after SetId. */
  function NodePoolAttr(p: NodePool, k: string): Value
  {
    match k
    case "cluster_id" => Str(p.clusterId)
    case "name" => Str(p.name)
    case "hostname_prefix" => Str(p.hostnamePrefix)
    case "node_template_id" => Str(p.nodeTemplateId)
    case "quantity" => Int(p.quantity)
    case "control_plane" => Bool(p.controlPlane)
    case "etcd" => Bool(p.etcd)
    case "worker" => Bool(p.worker)
    case "annotations" => Map(ToMapInterface(p.annotations))
    case "labels" => Map(ToMapInterface(p.labels))
    case _ => Null
  }

  const NodePoolKeys: set<string> := {"cluster_id", "name", "hostname_prefix", "node_template_id", "quantity",
    "control_plane", "etcd", "worker", "annotations", "labels"}

  function NodePoolAttrs(p: NodePool): Obj
  {
    map k | k in NodePoolKeys :: NodePoolAttr(p, k)
  }

  const NodePoolOrder := ["cluster_id", "name", "hostname_prefix", "node_template_id", "quantity",
    "control_plane", "etcd", "worker", "annotations", "labels"]

  function NodePoolWrites(p: NodePool): seq<Write>
  {
    Writes(NodePoolOrder, NodePoolAttrs(p), {"annotations", "labels"})
  }

  method FlattenNodePool(d: ResourceData, src: Option<NodePool>) returns (err: Option<string>)
    modifies d`id, d`attrs
    ensures src.None? ==> err.None? && d.id == old(d.id) && d.attrs == old(d.attrs)
    ensures src.Some? ==> d.id == src.value.id
    ensures src.Some? ==> Applied(d.attrs, err) == ApplyWrites(d.schema, old(d.attrs), NodePoolWrites(src.value))
  {
    if src.None? {
      return None;
    }
    var p := src.value;
    d.SetId(p.id);
    err := d.SetAll(NodePoolWrites(p));
  }

  function ExpandNodePool(d: ResourceData?): (r: Option<NodePool>)
    reads d
    ensures d == null <==> r.None?
  {
    if d == null then None
    else
      Some(NodePool(
        d.id,
        AsStr(d.Get("cluster_id")),
        AsStr(d.Get("name")),
        AsStr(d.Get("hostname_prefix")),
        AsStr(d.Get("node_template_id")),
        AsInt(d.Get("quantity")),
        AsBool(d.Get("control_plane")),
        AsBool(d.Get("etcd")),
        AsBool(d.Get("worker")),
        ToMapString(MapIn(d.attrs, "annotations")),
        ToMapString(MapIn(d.attrs, "labels"))))
  }

  /** Every attribute flattenNodePool writes, and no other. */
  lemma Covered(p: NodePool)
    ensures forall i :: 0 <= i < |NodePoolOrder| ==> NodePoolOrder[i] in NodePoolAttrs(p)
    ensures forall k :: k in NodePoolAttrs(p) ==> k in NodePoolOrder
  {
  }

  lemma Reads1(d: ResourceData, p: NodePool)
    requires Holds(d.attrs, NodePoolAttrs(p))
    ensures AsStr(d.Get("cluster_id")) == p.clusterId
    ensures AsStr(d.Get("name")) == p.name
    ensures AsStr(d.Get("hostname_prefix")) == p.hostnamePrefix
    ensures AsStr(d.Get("node_template_id")) == p.nodeTemplateId
    ensures AsInt(d.Get("quantity")) == p.quantity
  {
    var vals := NodePoolAttrs(p);
    d.HeldGet(vals, "cluster_id");
    d.HeldGet(vals, "name");
    d.HeldGet(vals, "hostname_prefix");
    d.HeldGet(vals, "node_template_id");
    d.HeldGet(vals, "quantity");
  }

  lemma Reads2(d: ResourceData, p: NodePool)
    requires Holds(d.attrs, NodePoolAttrs(p))
    ensures AsBool(d.Get("control_plane")) == p.controlPlane
    ensures AsBool(d.Get("etcd")) == p.etcd
    ensures AsBool(d.Get("worker")) == p.worker
    ensures ToMapString(MapIn(d.attrs, "annotations")) == p.annotations
    ensures ToMapString(MapIn(d.attrs, "labels")) == p.labels
  {
    var vals := NodePoolAttrs(p);
    d.HeldGet(vals, "control_plane");
    d.HeldGet(vals, "etcd");
    d.HeldGet(vals, "worker");
    MapRead(d.attrs, vals, "annotations", p.annotations);
    MapRead(d.attrs, vals, "labels", p.labels);
  }

  /** Expanding what a successful flatten stored gives the pool back. */
  lemma RoundTrip(d: ResourceData, a: Obj, p: NodePool)
    requires AllAdmitted(d.schema, NodePoolWrites(p))
    requires d.id == p.id && d.attrs == ApplyWrites(d.schema, a, NodePoolWrites(p)).attrs
    ensures ExpandNodePool(d) == Some(p)
  {
    Covered(p);
    WritesHold(d.schema, a, NodePoolOrder, NodePoolAttrs(p), {"annotations", "labels"});
    Reads1(d, p);
    Reads2(d, p);
  }
}
