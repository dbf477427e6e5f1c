/** rancher2_cluster_role_template_binding and rancher2_project_role_template_binding:
    the two resources share their converters except for the key of the scope
    they bind in (cluster_id or project_id). */
module RoleTemplateBinding {
  import opened Attr
  import opened ResourceState

  datatype Scope = ClusterScope | ProjectScope

  /** The attribute naming the cluster or project the binding lives in. */
  function ScopeKey(s: Scope): (k: string)
    ensures k == "cluster_id" || k == "project_id"
    ensures s.ClusterScope? <==> k == "cluster_id"
  {
    match s
    case ClusterScope => "cluster_id"
    case ProjectScope => "project_id"
  }

  /** ClusterRoleTemplateBinding / ProjectRoleTemplateBinding; `scopeId` is
      ClusterID or ProjectID. */
  datatype Binding = Binding(
    id: string,
    scopeId: string,
    roleTemplateId: string,
    name: string,
    groupId: string,
    groupPrincipalId: string,
    userId: string,
    userPrincipalId: string,
    annotations: map<string, string>,
    labels: map<string, string>)

  /** What the flatten writes to attribute k after SetId. */
  function BindingAttr(s: Scope, b: Binding, k: string): Value
  {
    if k == ScopeKey(s) then Str(b.scopeId)
    else
      match k
      case "role_template_id" => Str(b.roleTemplateId)
      case "name" => Str(b.name)
      case "group_id" => Str(b.groupId)
      case "group_principal_id" => Str(b.groupPrincipalId)
      case "user_id" => Str(b.userId)
      case "user_principal_id" => Str(b.userPrincipalId)
      case "annotations" => Map(ToMapInterface(b.annotations))
      case "labels" => Map(ToMapInterface(b.labels))
      case _ => Null
  }

  function BindingKeys(s: Scope): set<string>
  {
    {ScopeKey(s), "role_template_id", "name", "group_id", "group_principal_id",
     "user_id", "user_principal_id", "annotations", "labels"}
  }

  function BindingAttrs(s: Scope, b: Binding): Obj
  {
    map k | k in BindingKeys(s) :: BindingAttr(s, b, k)
  }

  function BindingOrder(s: Scope): seq<string>
  {
    [ScopeKey(s), "role_template_id", "name", "group_id", "group_principal_id",
     "user_id", "user_principal_id", "annotations", "labels"]
  }

  /** Every Set of the flatten returns its error. */
  function BindingWrites(s: Scope, b: Binding): seq<Write>
  {
    Writes(BindingOrder(s), BindingAttrs(s, b), BindingKeys(s))
  }

  method FlattenBinding(s: Scope, d: ResourceData, src: Option<Binding>) returns (err: Option<string>)
    modifies d`id, d`attrs
    ensures src.None? ==> err.None? && d.id == old(d.id) && d.attrs == old(d.attrs)
    ensures src.Some? ==> d.id == src.value.id
    ensures src.Some? ==> Applied(d.attrs, err) == ApplyWrites(d.schema, old(d.attrs), BindingWrites(s, src.value))
  {
    if src.None? {
      return None;
    }
    var b := src.value;
    d.SetId(b.id);
    err := d.SetAll(BindingWrites(s, b));
  }

  function ExpandBinding(s: Scope, d: ResourceData?): (r: Option<Binding>)
    reads d
    ensures d == null <==> r.None?
    ensures r.Some? ==> r.value.id == d.id && r.value.scopeId == AsStr(d.Get(ScopeKey(s)))
  {
    if d == null then None
    else
      Some(Binding(
        d.id,
        AsStr(d.Get(ScopeKey(s))),
        AsStr(d.Get("role_template_id")),
        AsStr(d.Get("name")),
        AsStr(d.Get("group_id")),
        AsStr(d.Get("group_principal_id")),
        AsStr(d.Get("user_id")),
        AsStr(d.Get("user_principal_id")),
        ToMapString(MapIn(d.attrs, "annotations")),
        ToMapString(MapIn(d.attrs, "labels"))))
  }

  lemma Covered(s: Scope, b: Binding)
    ensures forall i :: 0 <= i < |BindingOrder(s)| ==> BindingOrder(s)[i] in BindingAttrs(s, b)
    ensures forall k :: k in BindingAttrs(s, b) ==> k in BindingOrder(s)
  {
  }

  lemma Reads1(s: Scope, d: ResourceData, b: Binding)
    requires Holds(d.attrs, BindingAttrs(s, b))
    ensures AsStr(d.Get(ScopeKey(s))) == b.scopeId
    ensures AsStr(d.Get("role_template_id")) == b.roleTemplateId
    ensures AsStr(d.Get("name")) == b.name
    ensures AsStr(d.Get("group_id")) == b.groupId
  {
    var vals := BindingAttrs(s, b);
    d.HeldGet(vals, ScopeKey(s));
    d.HeldGet(vals, "role_template_id");
    d.HeldGet(vals, "name");
    d.HeldGet(vals, "group_id");
  }

  lemma Reads2(s: Scope, d: ResourceData, b: Binding)
    requires Holds(d.attrs, BindingAttrs(s, b))
    ensures AsStr(d.Get("group_principal_id")) == b.groupPrincipalId
    ensures AsStr(d.Get("user_id")) == b.userId
    ensures AsStr(d.Get("user_principal_id")) == b.userPrincipalId
    ensures ToMapString(MapIn(d.attrs, "annotations")) == b.annotations
    ensures ToMapString(MapIn(d.attrs, "labels")) == b.labels
  {
    var vals := BindingAttrs(s, b);
    d.HeldGet(vals, "group_principal_id");
    d.HeldGet(vals, "user_id");
    d.HeldGet(vals, "user_principal_id");
    MapRead(d.attrs, vals, "annotations", b.annotations);
    MapRead(d.attrs, vals, "labels", b.labels);
  }

  /** Expanding what a successful flatten stored gives the binding back. */
  lemma RoundTrip(s: Scope, d: ResourceData, a: Obj, b: Binding)
    requires AllAdmitted(d.schema, BindingWrites(s, b))
    requires d.id == b.id && d.attrs == ApplyWrites(d.schema, a, BindingWrites(s, b)).attrs
    ensures ExpandBinding(s, d) == Some(b)
  {
    Covered(s, b);
    WritesHold(d.schema, a, BindingOrder(s), BindingAttrs(s, b), BindingKeys(s));
    Reads1(s, d, b);
    Reads2(s, d, b);
  }
}
