/** The GitHub auth config: flattenAuthConfigGithub and expandAuthConfigGithub. */
module AuthConfigGithub {
  import opened Attr
  import opened ResourceState
  import opened AuthConfig

  /** The resource's fixed id and name, and the API type of its config. */
  const AuthConfigGithubName := "github"
  const GithubConfigType := "githubConfig"

  /** managementClient.GithubConfig, the fields the converters touch. */
  datatype GithubConfig = GithubConfig(
    name: string,
    configType: string,
    accessMode: string,
    allowedPrincipalIds: seq<string>,
    enabled: bool,
    annotations: map<string, string>,
    labels: map<string, string>,
    clientId: string,
    clientSecret: string,
    hostname: string,
    tls: bool)

  /** What flattenAuthConfigGithub writes to attribute k. The name and type
      are the constants, whatever the config says. */
  function GithubAttr(c: GithubConfig, k: string): Value
  {
    match k
    case "name" => Str(AuthConfigGithubName)
    case "type" => Str(GithubConfigType)
    case "access_mode" => Str(c.accessMode)
    case "allowed_principal_ids" => List(ToArrayInterface(c.allowedPrincipalIds))
    case "enabled" => Bool(c.enabled)
    case "annotations" => Map(ToMapInterface(c.annotations))
    case "labels" => Map(ToMapInterface(c.labels))
    case "client_id" => Str(c.clientId)
    case "hostname" => Str(c.hostname)
    case "tls" => Bool(c.tls)
    case _ => Null
  }

  /** The attributes the flatten writes; client_secret is not among them. */
  const GithubKeys: set<string> := {"name", "type", "access_mode", "allowed_principal_ids", "enabled",
    "annotations", "labels", "client_id", "hostname", "tls"}

  function GithubAttrs(c: GithubConfig): Obj
  {
    map k | k in GithubKeys :: GithubAttr(c, k)
  }

  const GithubOrder := ["name", "type", "access_mode", "allowed_principal_ids", "enabled",
    "annotations", "labels", "client_id", "hostname", "tls"]

  /** Every Set returns its error. */
  function GithubWrites(c: GithubConfig): seq<Write>
  {
    Writes(GithubOrder, GithubAttrs(c), GithubKeys)
  }

  /** flattenAuthConfigGithub: the id is set first, then the attributes in order. */
  method FlattenAuthConfigGithub(d: ResourceData, c: GithubConfig) returns (err: Option<string>)
    modifies d
    ensures d.id == AuthConfigGithubName
    ensures Applied(d.attrs, err) == ApplyWrites(d.schema, old(d.attrs), GithubWrites(c))
  {
    d.SetId(AuthConfigGithubName);
    err := d.SetAll(GithubWrites(c));
  }

  /** expandAuthConfigGithub. */
  function ExpandAuthConfigGithub(d: ResourceData?): (r: Result<GithubConfig>)
    reads d
    ensures d == null ==> r.Failure?
    ensures d != null ==>
      (r.Failure? <==> !AccessModeAccepted(StrIn(d.attrs, "access_mode"), ToArrayString(ListIn(d.attrs, "allowed_principal_ids"))))
    ensures r.Success? ==> r.value.name == AuthConfigGithubName && r.value.configType == GithubConfigType
    ensures r.Success? ==> AccessModeAccepted(r.value.accessMode, r.value.allowedPrincipalIds)
    ensures r.Success? ==> r.value.clientSecret == StrIn(d.attrs, "client_secret")
  {
    if d == null then Failure("expanding " + AuthConfigGithubName + " Auth Config: Input ResourceData is nil")
    else
      var m := d.attrs;
      var mode := StrIn(m, "access_mode");
      var ids := ToArrayString(ListIn(m, "allowed_principal_ids"));
      if !AccessModeAccepted(mode, ids) then Failure(AccessModeError(AuthConfigGithubName, mode))
      else
        Success(GithubConfig(
          AuthConfigGithubName,
          GithubConfigType,
          mode,
          ids,
          BoolIn(m, "enabled"),
          ToMapString(MapIn(m, "annotations")),
          ToMapString(MapIn(m, "labels")),
          StrIn(m, "client_id"),
          StrIn(m, "client_secret"),
          StrIn(m, "hostname"),
          BoolIn(m, "tls")))
  }

  lemma Covered(c: GithubConfig)
    ensures forall i :: 0 <= i < |GithubOrder| ==> GithubOrder[i] in GithubAttrs(c)
    ensures forall k :: k in GithubAttrs(c) ==> k in GithubOrder
  {
  }

  lemma Reads1(m: Obj, c: GithubConfig)
    requires Holds(m, GithubAttrs(c))
    ensures StrIn(m, "access_mode") == c.accessMode
    ensures ToArrayString(ListIn(m, "allowed_principal_ids")) == c.allowedPrincipalIds
    ensures BoolIn(m, "enabled") == c.enabled
    ensures ToMapString(MapIn(m, "annotations")) == c.annotations
  {
    var vals := GithubAttrs(c);
    StrRead(m, vals, "access_mode", c.accessMode);
    ListRead(m, vals, "allowed_principal_ids", c.allowedPrincipalIds);
    BoolRead(m, vals, "enabled", c.enabled);
    MapRead(m, vals, "annotations", c.annotations);
  }

  lemma Reads2(m: Obj, c: GithubConfig)
    requires Holds(m, GithubAttrs(c))
    ensures ToMapString(MapIn(m, "labels")) == c.labels
    ensures StrIn(m, "client_id") == c.clientId
    ensures StrIn(m, "hostname") == c.hostname
    ensures BoolIn(m, "tls") == c.tls
  {
    var vals := GithubAttrs(c);
    MapRead(m, vals, "labels", c.labels);
    StrRead(m, vals, "client_id", c.clientId);
    StrRead(m, vals, "hostname", c.hostname);
    BoolRead(m, vals, "tls", c.tls);
  }

  /** The flatten never names the client secret: it keeps what state held. */
  lemma SecretUntouched(schema: Schema, a: Obj, c: GithubConfig)
    ensures var m := ApplyWrites(schema, a, GithubWrites(c)).attrs;
      ("client_secret" in m <==> "client_secret" in a) && ("client_secret" in a ==> m["client_secret"] == a["client_secret"])
  {
    assert "client_secret" !in GithubOrder;
    ApplyUntouched(schema, a, GithubWrites(c), "client_secret");
  }

  /** Expanding what a successful flatten stored gives the config back, with
      the constant name and type and the client secret state already held;
      this needs the access mode to be accepted. */
  lemma RoundTrip(d: ResourceData, a: Obj, c: GithubConfig)
    requires AllAdmitted(d.schema, GithubWrites(c))
    requires d.attrs == ApplyWrites(d.schema, a, GithubWrites(c)).attrs
    requires AccessModeAccepted(c.accessMode, c.allowedPrincipalIds)
    ensures ExpandAuthConfigGithub(d) == Success(c.(name := AuthConfigGithubName, configType := GithubConfigType,
      clientSecret := StrIn(a, "client_secret")))
  {
    Covered(c);
    WritesHold(d.schema, a, GithubOrder, GithubAttrs(c), GithubKeys);
    SecretUntouched(d.schema, a, c);
    Reads1(d.attrs, c);
    Reads2(d.attrs, c);
  }
}
