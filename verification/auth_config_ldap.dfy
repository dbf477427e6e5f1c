/** The LDAP auth config: flattenAuthConfigLdap, expandAuthConfigLdap and the
    schema merge of authConfigLdapFields. */
module AuthConfigLdap {
  import opened Attr
  import opened ResourceState
  import opened AuthConfig

  /** managementClient.LdapConfig; the three integers are int64 in the API. */
  datatype LdapConfig = LdapConfig(
    accessMode: string,
    allowedPrincipalIds: seq<string>,
    enabled: bool,
    annotations: map<string, string>,
    labels: map<string, string>,
    servers: seq<string>,
    serviceAccountDistinguishedName: string,
    serviceAccountPassword: string,
    userSearchBase: string,
    certificate: string,
    connectionTimeout: int,
    groupDnAttribute: string,
    groupMemberMappingAttribute: string,
    groupMemberUserAttribute: string,
    groupNameAttribute: string,
    groupObjectClass: string,
    groupSearchAttribute: string,
    groupSearchBase: string,
    nestedGroupMembershipEnabled: bool,
    port: int,
    tls: bool,
    userDisabledBitMask: int,
    userEnabledAttribute: string,
    userLoginAttribute: string,
    userMemberAttribute: string,
    userNameAttribute: string,
    userObjectClass: string,
    userSearchAttribute: string)

  /** The schema of the LDAP resource: its own fields `s` with the common
      auth config fields `r` copied over them, one key at a time. */
  method MergeFields<V>(s: map<string, V>, r: map<string, V>) returns (merged: map<string, V>)
    ensures merged.Keys == s.Keys + r.Keys
    ensures forall k :: k in r ==> merged[k] == r[k]
    ensures forall k :: k in s && k !in r ==> merged[k] == s[k]
  {
    merged := s;
    var rest := r.Keys;
    while rest != {}
      invariant rest <= r.Keys
      invariant merged == s + map k | k in r && k !in rest :: r[k]
      decreases rest
    {
      var k :| k in rest;
      merged := merged[k := r[k]];
      rest := rest - {k};
    }
  }

  /** What flattenAuthConfigLdap writes to attribute k. */
  function LdapAttr(c: LdapConfig, k: string): Value
  {
    match k
    case "access_mode" => Str(c.accessMode)
    case "allowed_principal_ids" => List(ToArrayInterface(c.allowedPrincipalIds))
    case "enabled" => Bool(c.enabled)
    case "annotations" => Map(ToMapInterface(c.annotations))
    case "labels" => Map(ToMapInterface(c.labels))
    case "servers" => List(ToArrayInterface(c.servers))
    case "service_account_distinguished_name" => Str(c.serviceAccountDistinguishedName)
    case "user_search_base" => Str(c.userSearchBase)
    case "certificate" => Str(c.certificate)
    case "connection_timeout" => Int(c.connectionTimeout)
    case "group_dn_attribute" => Str(c.groupDnAttribute)
    case "group_member_mapping_attribute" => Str(c.groupMemberMappingAttribute)
    case "group_member_user_attribute" => Str(c.groupMemberUserAttribute)
    case "group_name_attribute" => Str(c.groupNameAttribute)
    case "group_object_class" => Str(c.groupObjectClass)
    case "group_search_attribute" => Str(c.groupSearchAttribute)
    case "group_search_base" => Str(c.groupSearchBase)
    case "nested_group_membership_enabled" => Bool(c.nestedGroupMembershipEnabled)
    case "port" => Int(c.port)
    case "tls" => Bool(c.tls)
    case "user_disabled_bit_mask" => Int(c.userDisabledBitMask)
    case "user_enabled_attribute" => Str(c.userEnabledAttribute)
    case "user_login_attribute" => Str(c.userLoginAttribute)
    case "user_member_attribute" => Str(c.userMemberAttribute)
    case "user_name_attribute" => Str(c.userNameAttribute)
    case "user_object_class" => Str(c.userObjectClass)
    case "user_search_attribute" => Str(c.userSearchAttribute)
    case _ => Null
  }

  /** The attributes flattenAuthConfigLdap writes; the service account
      password, username and password are not among them. */
  const LdapKeys: set<string> := {"access_mode", "allowed_principal_ids", "enabled", "annotations", "labels", "servers", "service_account_distinguished_name", "user_search_base", "certificate", "connection_timeout", "group_dn_attribute", "group_member_mapping_attribute", "group_member_user_attribute", "group_name_attribute", "group_object_class", "group_search_attribute", "group_search_base", "nested_group_membership_enabled", "port", "tls", "user_disabled_bit_mask", "user_enabled_attribute", "user_login_attribute", "user_member_attribute", "user_name_attribute", "user_object_class", "user_search_attribute"}

  function LdapAttrs(c: LdapConfig): Obj
  {
    map k | k in LdapKeys :: LdapAttr(c, k)
  }

  const LdapOrder := ["access_mode", "allowed_principal_ids", "enabled", "annotations", "labels",
    "servers", "service_account_distinguished_name", "user_search_base", "certificate",
    "connection_timeout", "group_dn_attribute", "group_member_mapping_attribute",
    "group_member_user_attribute", "group_name_attribute", "group_object_class",
    "group_search_attribute", "group_search_base", "nested_group_membership_enabled", "port",
    "tls", "user_disabled_bit_mask", "user_enabled_attribute", "user_login_attribute",
    "user_member_attribute", "user_name_attribute", "user_object_class", "user_search_attribute"]

  /** Every Set returns its error. */
  function LdapWrites(c: LdapConfig): seq<Write>
  {
    Writes(LdapOrder, LdapAttrs(c), set k | k in LdapAttrs(c))
  }

  /** flattenAuthConfigLdap: it dereferences its config without a nil check. */
  method FlattenAuthConfigLdap(d: ResourceData, c: LdapConfig) returns (err: Option<string>)
    modifies d`attrs
    ensures Applied(d.attrs, err) == ApplyWrites(d.schema, old(d.attrs), LdapWrites(c))
  {
    err := d.SetAll(LdapWrites(c));
  }

  /** expandAuthConfigLdap. A Get of an unset attribute yields its zero value,
      which none of the guards accepts, so the guarded reads look at the
      stored attributes directly. */
  function ExpandAuthConfigLdap(d: ResourceData?): (r: Result<LdapConfig>)
    reads d
    ensures d == null ==> r.Failure?
    ensures d != null ==>
      (r.Failure? <==> !AccessModeAccepted(StrIn(d.attrs, "access_mode"), ToArrayString(ListIn(d.attrs, "allowed_principal_ids"))))
    ensures r.Success? ==> AccessModeAccepted(r.value.accessMode, r.value.allowedPrincipalIds)
    ensures r.Success? ==> r.value.connectionTimeout >= 0 && r.value.port >= 0 && r.value.userDisabledBitMask >= 0
  {
    if d == null then Failure("expanding ldap Auth Config: Input ResourceData is nil")
    else
      var m := d.attrs;
      var mode := StrIn(m, "access_mode");
      var ids := ToArrayString(ListIn(m, "allowed_principal_ids"));
      if !AccessModeAccepted(mode, ids) then Failure(AccessModeError("ldap", mode))
      else
        Success(LdapConfig(
          mode,
          ids,
          BoolIn(m, "enabled"),
          ToMapString(MapIn(m, "annotations")),
          ToMapString(MapIn(m, "labels")),
          ToArrayString(ListIn(m, "servers")),
          StrIn(m, "service_account_distinguished_name"),
          StrIn(m, "service_account_password"),
          StrIn(m, "user_search_base"),
          StrIn(m, "certificate"),
          PosIntIn(m, "connection_timeout"),
          StrIn(m, "group_dn_attribute"),
          StrIn(m, "group_member_mapping_attribute"),
          StrIn(m, "group_member_user_attribute"),
          StrIn(m, "group_name_attribute"),
          StrIn(m, "group_object_class"),
          StrIn(m, "group_search_attribute"),
          StrIn(m, "group_search_base"),
          BoolIn(m, "nested_group_membership_enabled"),
          PosIntIn(m, "port"),
          BoolIn(m, "tls"),
          PosIntIn(m, "user_disabled_bit_mask"),
          StrIn(m, "user_enabled_attribute"),
          StrIn(m, "user_login_attribute"),
          StrIn(m, "user_member_attribute"),
          StrIn(m, "user_name_attribute"),
          StrIn(m, "user_object_class"),
          StrIn(m, "user_search_attribute")))
  }

  lemma Covered(c: LdapConfig)
    ensures forall i :: 0 <= i < |LdapOrder| ==> LdapOrder[i] in LdapAttrs(c)
    ensures forall k :: k in LdapAttrs(c) ==> k in LdapOrder
  {
  }

  // Reading back what the flatten wrote, a few attributes at a time.

  lemma Reads1(m: Obj, c: LdapConfig)
    requires Holds(m, LdapAttrs(c))
    ensures StrIn(m, "access_mode") == c.accessMode
    ensures ToArrayString(ListIn(m, "allowed_principal_ids")) == c.allowedPrincipalIds
    ensures BoolIn(m, "enabled") == c.enabled
    ensures ToMapString(MapIn(m, "annotations")) == c.annotations
    ensures ToMapString(MapIn(m, "labels")) == c.labels
  {
    var vals := LdapAttrs(c);
    StrRead(m, vals, "access_mode", c.accessMode);
    ListRead(m, vals, "allowed_principal_ids", c.allowedPrincipalIds);
    BoolRead(m, vals, "enabled", c.enabled);
    MapRead(m, vals, "annotations", c.annotations);
    MapRead(m, vals, "labels", c.labels);
  }

  lemma Reads2(m: Obj, c: LdapConfig)
    requires Holds(m, LdapAttrs(c)) && c.connectionTimeout >= 0
    ensures ToArrayString(ListIn(m, "servers")) == c.servers
    ensures StrIn(m, "service_account_distinguished_name") == c.serviceAccountDistinguishedName
    ensures StrIn(m, "user_search_base") == c.userSearchBase
    ensures StrIn(m, "certificate") == c.certificate
    ensures PosIntIn(m, "connection_timeout") == c.connectionTimeout
  {
    var vals := LdapAttrs(c);
    ListRead(m, vals, "servers", c.servers);
    StrRead(m, vals, "service_account_distinguished_name", c.serviceAccountDistinguishedName);
    StrRead(m, vals, "user_search_base", c.userSearchBase);
    StrRead(m, vals, "certificate", c.certificate);
    PosIntRead(m, vals, "connection_timeout", c.connectionTimeout);
  }

  lemma Reads3(m: Obj, c: LdapConfig)
    requires Holds(m, LdapAttrs(c))
    ensures StrIn(m, "group_dn_attribute") == c.groupDnAttribute
    ensures StrIn(m, "group_member_mapping_attribute") == c.groupMemberMappingAttribute
    ensures StrIn(m, "group_member_user_attribute") == c.groupMemberUserAttribute
    ensures StrIn(m, "group_name_attribute") == c.groupNameAttribute
  {
    var vals := LdapAttrs(c);
    StrRead(m, vals, "group_dn_attribute", c.groupDnAttribute);
    StrRead(m, vals, "group_member_mapping_attribute", c.groupMemberMappingAttribute);
    StrRead(m, vals, "group_member_user_attribute", c.groupMemberUserAttribute);
    StrRead(m, vals, "group_name_attribute", c.groupNameAttribute);
  }

  lemma Reads4(m: Obj, c: LdapConfig)
    requires Holds(m, LdapAttrs(c))
    ensures StrIn(m, "group_object_class") == c.groupObjectClass
    ensures StrIn(m, "group_search_attribute") == c.groupSearchAttribute
    ensures StrIn(m, "group_search_base") == c.groupSearchBase
    ensures BoolIn(m, "nested_group_membership_enabled") == c.nestedGroupMembershipEnabled
  {
    var vals := LdapAttrs(c);
    StrRead(m, vals, "group_object_class", c.groupObjectClass);
    StrRead(m, vals, "group_search_attribute", c.groupSearchAttribute);
    StrRead(m, vals, "group_search_base", c.groupSearchBase);
    BoolRead(m, vals, "nested_group_membership_enabled", c.nestedGroupMembershipEnabled);
  }

  lemma Reads5(m: Obj, c: LdapConfig)
    requires Holds(m, LdapAttrs(c)) && c.port >= 0 && c.userDisabledBitMask >= 0
    ensures PosIntIn(m, "port") == c.port
    ensures BoolIn(m, "tls") == c.tls
    ensures PosIntIn(m, "user_disabled_bit_mask") == c.userDisabledBitMask
    ensures StrIn(m, "user_enabled_attribute") == c.userEnabledAttribute
  {
    var vals := LdapAttrs(c);
    PosIntRead(m, vals, "port", c.port);
    BoolRead(m, vals, "tls", c.tls);
    PosIntRead(m, vals, "user_disabled_bit_mask", c.userDisabledBitMask);
    StrRead(m, vals, "user_enabled_attribute", c.userEnabledAttribute);
  }

  lemma Reads6(m: Obj, c: LdapConfig)
    requires Holds(m, LdapAttrs(c))
    ensures StrIn(m, "user_login_attribute") == c.userLoginAttribute
    ensures StrIn(m, "user_member_attribute") == c.userMemberAttribute
    ensures StrIn(m, "user_name_attribute") == c.userNameAttribute
  {
    var vals := LdapAttrs(c);
    StrRead(m, vals, "user_login_attribute", c.userLoginAttribute);
    StrRead(m, vals, "user_member_attribute", c.userMemberAttribute);
    StrRead(m, vals, "user_name_attribute", c.userNameAttribute);
  }

  lemma Reads7(m: Obj, c: LdapConfig)
    requires Holds(m, LdapAttrs(c))
    ensures StrIn(m, "user_object_class") == c.userObjectClass
    ensures StrIn(m, "user_search_attribute") == c.userSearchAttribute
  {
    var vals := LdapAttrs(c);
    StrRead(m, vals, "user_object_class", c.userObjectClass);
    StrRead(m, vals, "user_search_attribute", c.userSearchAttribute);
  }

  /** The keys holding secrets: the flatten never names them. */
  const SecretKeys: set<string> := {"service_account_password", "username", "password"}

  /** Whatever becomes of the run, the secrets in state stay as they were. */
  lemma SecretsUntouched(schema: Schema, a: Obj, c: LdapConfig, k: string)
    requires k in SecretKeys
    ensures var m := ApplyWrites(schema, a, LdapWrites(c)).attrs;
      (k in m <==> k in a) && (k in a ==> m[k] == a[k])
  {
    assert k !in LdapOrder;
    ApplyUntouched(schema, a, LdapWrites(c), k);
  }

  /** Reads back a state holding every attribute the flatten writes. */
  lemma ExpandStored(d: ResourceData, c: LdapConfig)
    requires Holds(d.attrs, LdapAttrs(c))
    requires c.connectionTimeout >= 0 && c.port >= 0 && c.userDisabledBitMask >= 0
    requires AccessModeAccepted(c.accessMode, c.allowedPrincipalIds)
    ensures ExpandAuthConfigLdap(d) == Success(c.(serviceAccountPassword := StrIn(d.attrs, "service_account_password")))
  {
    Reads1(d.attrs, c);
    Reads2(d.attrs, c);
    Reads3(d.attrs, c);
    Reads4(d.attrs, c);
    Reads5(d.attrs, c);
    Reads6(d.attrs, c);
    Reads7(d.attrs, c);
  }

  /** Expanding what a successful flatten stored gives the config back, with
      the service account password that state already held; this needs the
      three integers to be non-negative and the access mode to be accepted. */
  lemma RoundTrip(d: ResourceData, a: Obj, c: LdapConfig)
    requires AllAdmitted(d.schema, LdapWrites(c))
    requires d.attrs == ApplyWrites(d.schema, a, LdapWrites(c)).attrs
    requires c.connectionTimeout >= 0 && c.port >= 0 && c.userDisabledBitMask >= 0
    requires AccessModeAccepted(c.accessMode, c.allowedPrincipalIds)
    ensures ExpandAuthConfigLdap(d) == Success(c.(serviceAccountPassword := StrIn(a, "service_account_password")))
  {
    Covered(c);
    WritesHold(d.schema, a, LdapOrder, LdapAttrs(c), set k | k in LdapAttrs(c));
    SecretsUntouched(d.schema, a, c, "service_account_password");
    ExpandStored(d, c);
  }
}
