/** A node template: flattenNodeTemplate, with its check that the block
    for the template's driver is present, and expandNodeTemplate, whose
    driver comes from the last config block present. */
module NodeTemplate {
  import opened Attr
  import opened ResourceState
  import opened NodeTemplateAzure
  import opened Precedence

  const Amazonec2Driver := "amazonec2"
  const AzureDriver := "azure"
  const DigitaloceanDriver := "digitalocean"
  const OpenstackDriver := "openstack"
  const VsphereDriver := "vmwarevsphere"

  /** The drivers that have a config block of their own. */
  const BuiltInDrivers: set<string> := {Amazonec2Driver, AzureDriver, DigitaloceanDriver, OpenstackDriver, VsphereDriver}

  /** The generic driver config: the driver's id, and the name the template
      reports as its driver. */
  datatype GenericConfig = GenericConfig(driverId: string, driverName: string)

  /** The fields of NodeTemplate the converters touch. The amazonec2,
      digitalocean, openstack and vsphere blocks are kept as the raw
      attribute lists their own expanders read. */
  datatype NodeTemplate = NodeTemplate(
    id: string,
    name: string,
    driver: string,
    amazonec2Config: Option<seq<Value>>,
    azureConfig: Option<AzureConfig>,
    digitaloceanConfig: Option<seq<Value>>,
    genericConfig: Option<GenericConfig>,
    openstackConfig: Option<seq<Value>>,
    vsphereConfig: Option<seq<Value>>,
    authCertificateAuthority: string,
    authKey: string,
    cloudCredentialId: string,
    description: string,
    dockerVersion: string,
    engineEnv: map<string, string>,
    engineInsecureRegistry: seq<string>,
    engineInstallUrl: string,
    engineLabel: map<string, string>,
    engineOpt: map<string, string>,
    engineRegistryMirror: seq<string>,
    engineStorageDriver: string,
    useInternalIpAddress: bool,
    annotations: map<string, string>,
    labels: map<string, string>)

  /** The attribute holding the config block a driver needs. */
  function RequiredBlock(driver: string): (b: string)
    ensures b == "generic_config" <==> driver !in BuiltInDrivers
  {
    if driver == Amazonec2Driver then "amazonec2_config"
    else if driver == AzureDriver then "azure_config"
    else if driver == DigitaloceanDriver then "digitalocean_config"
    else if driver == OpenstackDriver then "openstack_config"
    else if driver == VsphereDriver then "vsphere_config"
    else "generic_config"
  }

  /** The template lacks the config block its driver needs: the switch of
      flattenNodeTemplate, one case per built-in driver and a default. */
  predicate ConfigMissing(t: NodeTemplate)
  {
    if t.driver == Amazonec2Driver then t.amazonec2Config.None?
    else if t.driver == AzureDriver then t.azureConfig.None?
    else if t.driver == DigitaloceanDriver then t.digitaloceanConfig.None?
    else if t.driver == OpenstackDriver then t.openstackConfig.None?
    else if t.driver == VsphereDriver then t.vsphereConfig.None?
    else t.genericConfig.None?
  }

  /** Whether the template carries the block stored under attribute `block`. */
  predicate HasBlock(t: NodeTemplate, block: string)
  {
    match block
    case "amazonec2_config" => t.amazonec2Config.Some?
    case "azure_config" => t.azureConfig.Some?
    case "digitalocean_config" => t.digitaloceanConfig.Some?
    case "generic_config" => t.genericConfig.Some?
    case "openstack_config" => t.openstackConfig.Some?
    case "vsphere_config" => t.vsphereConfig.Some?
    case _ => false
  }

  function MissingConfigError(t: NodeTemplate): string
  {
    "[ERROR] Node template driver " + t.driver + " requires " + RequiredBlock(t.driver)
  }

  /** The name and driver, set before the check and without looking at the error. */
  function NamedWrites(t: NodeTemplate): seq<Write>
  {
    [Write("name", Str(t.name), false), Write("driver", Str(t.driver), false)]
  }

  lemma NamedApplied(schema: Schema, a: Obj, t: NodeTemplate)
    ensures ApplyWrites(schema, a, NamedWrites(t)) ==
      Applied(SetOne(schema, SetOne(schema, a, "name", Str(t.name)), "driver", Str(t.driver)), None)
  {
    var ws := NamedWrites(t);
    var a1 := SetOne(schema, a, "name", Str(t.name));
    assert ws[1..][1..] == [];
    assert ApplyWrites(schema, a1, ws[1..]) == ApplyWrites(schema, SetOne(schema, a1, "driver", Str(t.driver)), []);
    assert ApplyWrites(schema, a, ws) == ApplyWrites(schema, a1, ws[1..]);
  }

  /** What the flatten writes to attribute k after the check, if anything. */
  function TemplateAttr(t: NodeTemplate, k: string): Option<Value>
  {
    match k
    case "auth_certificate_authority" => NonEmpty(t.authCertificateAuthority)
    case "auth_key" => NonEmpty(t.authKey)
    case "cloud_credential_id" => NonEmpty(t.cloudCredentialId)
    case "description" => NonEmpty(t.description)
    case "docker_version" => NonEmpty(t.dockerVersion)
    case "engine_env" => NonEmptyMap(t.engineEnv)
    case "engine_insecure_registry" => NonEmptyList(t.engineInsecureRegistry)
    case "engine_install_url" => NonEmpty(t.engineInstallUrl)
    case "engine_label" => NonEmptyMap(t.engineLabel)
    case "engine_opt" => NonEmptyMap(t.engineOpt)
    case "engine_registry_mirror" => NonEmptyList(t.engineRegistryMirror)
    case "engine_storage_driver" => NonEmpty(t.engineStorageDriver)
    case "use_internal_ip_address" => Some(Bool(t.useInternalIpAddress))
    case "annotations" => NonEmptyMap(t.annotations)
    case "labels" => NonEmptyMap(t.labels)
    case _ => None
  }

  const TemplateOrder := ["auth_certificate_authority", "auth_key", "cloud_credential_id", "description",
    "docker_version", "engine_env", "engine_insecure_registry", "engine_install_url", "engine_label",
    "engine_opt", "engine_registry_mirror", "engine_storage_driver", "use_internal_ip_address",
    "annotations", "labels"]

  /** The writes whose error is returned: the maps and lists. */
  const CheckedKeys: set<string> := {"engine_env", "engine_insecure_registry", "engine_label", "engine_opt",
    "engine_registry_mirror", "annotations", "labels"}

  function TemplateAttrs(t: NodeTemplate): Obj
  {
    map k | k in TemplateOrder && TemplateAttr(t, k).Some? :: TemplateAttr(t, k).value
  }

  /** The writes after the check, in the source's order, skipping the empty ones. */
  function TemplateWrites(t: NodeTemplate): seq<Write>
  {
    Writes(Present(TemplateOrder, TemplateAttrs(t)), TemplateAttrs(t), CheckedKeys)
  }

  /** The flatten writes an attribute only when it is non-empty, except the
      boolean use_internal_ip_address, which it always writes. */
  lemma OnlyFilled(t: NodeTemplate)
    ensures "use_internal_ip_address" in TemplateAttrs(t)
    ensures forall k :: k in TemplateAttrs(t) ==> Filled(TemplateAttrs(t)[k])
  {
    forall k | k in TemplateAttrs(t)
      ensures Filled(TemplateAttrs(t)[k])
    {
      if TemplateAttr(t, k) != Some(Bool(t.useInternalIpAddress)) {
        var e := TemplateAttr(t, k).value;
        assert e.Str? ==> e.s != "";
        assert e.List? ==> |e.items| > 0;
        assert e.Map? ==> |e.entries| > 0;
      }
    }
  }

  /** flattenNodeTemplate. */
  method FlattenNodeTemplate(d: ResourceData, src: Option<NodeTemplate>) returns (err: Option<string>)
    modifies d
    ensures src.None? ==> err.None? && d.id == old(d.id) && d.attrs == old(d.attrs)
    ensures src.Some? ==> d.id == src.value.id
    ensures src.Some? && ConfigMissing(src.value) ==>
      err == Some(MissingConfigError(src.value)) &&
      d.attrs == ApplyWrites(d.schema, old(d.attrs), NamedWrites(src.value)).attrs
    ensures src.Some? && !ConfigMissing(src.value) ==>
      Applied(d.attrs, err) ==
      ApplyWrites(d.schema, ApplyWrites(d.schema, old(d.attrs), NamedWrites(src.value)).attrs, TemplateWrites(src.value))
  {
    if src.None? {
      return None;
    }
    var t := src.value;
    NamedApplied(d.schema, old(d.attrs), t);
    d.SetId(t.id);
    var _ := d.Set("name", Str(t.name));
    var _ := d.Set("driver", Str(t.driver));
    assert d.attrs == ApplyWrites(d.schema, old(d.attrs), NamedWrites(t)).attrs;
    if ConfigMissing(t) {
      return Some(MissingConfigError(t));
    }
    err := d.SetAll(TemplateWrites(t));
  }

  /** The name and driver are set before the check, so they are in state
      whichever way the check goes. */
  lemma NameDriverKept(schema: Schema, a: Obj, t: NodeTemplate)
    requires Admits(schema, "name", Str(t.name)) && Admits(schema, "driver", Str(t.driver))
    ensures var m := ApplyWrites(schema, a, NamedWrites(t)).attrs;
      "name" in m && m["name"] == Str(t.name) && "driver" in m && m["driver"] == Str(t.driver)
  {
    NamedApplied(schema, a, t);
  }

  /** The check, for every driver: a template is refused exactly when it
      lacks the block its driver needs. */
  lemma CheckedBlock(t: NodeTemplate)
    ensures ConfigMissing(t) <==> !HasBlock(t, RequiredBlock(t.driver))
  {
  }

  /** With a schema that accepts every write, the writes after the block
      check all land and return no error. */
  lemma TemplateWritesLand(schema: Schema, a: Obj, t: NodeTemplate)
    requires AllAdmitted(schema, TemplateWrites(t))
    ensures ApplyWrites(schema, a, TemplateWrites(t)).err.None?
    ensures Holds(ApplyWrites(schema, a, TemplateWrites(t)).attrs, TemplateAttrs(t))
  {
    var vals := TemplateAttrs(t);
    var order := Present(TemplateOrder, vals);
    WritesHold(schema, a, order, vals, CheckedKeys);
  }

  // Expansion.

  /** The blocks expand looks at, in its order; the generic one selects the
      driver name the generic expander reports. */
  function Blocks(m: Obj, generic: Result<GenericConfig>): seq<Block>
  {
    [Block(ListIn(m, "amazonec2_config") != [], Amazonec2Driver),
     Block(ListIn(m, "azure_config") != [], AzureDriver),
     Block(ListIn(m, "digitalocean_config") != [], DigitaloceanDriver),
     Block(ListIn(m, "generic_config") != [] && generic.Success?, if generic.Success? then generic.value.driverName else ""),
     Block(ListIn(m, "openstack_config") != [], OpenstackDriver),
     Block(ListIn(m, "vsphere_config") != [], VsphereDriver)]
  }

  /** A block taken only when its list is non-empty. */
  function BlockIn(m: Obj, k: string): Option<seq<Value>>
  {
    if ListIn(m, k) != [] then Some(ListIn(m, k)) else None
  }

  /** The generic config is refused when its expander fails or names a
      driver that has a block of its own. */
  predicate GenericRefused(m: Obj, generic: Result<GenericConfig>)
  {
    ListIn(m, "generic_config") != [] && (generic.Failure? || generic.value.driverId in BuiltInDrivers)
  }

  function GenericError(generic: Result<GenericConfig>): string
  {
    if generic.Failure? then generic.error
    else "[ERROR] Node template driver " + generic.value.driverId + " can not be used with generic_config"
  }

  /** expandNodeTemplate. `generic` is what expandGenericNodeTemplateConfig
      returns for the generic_config block; it is consulted only when that
      block is non-empty. A nil ResourceData gives no template and no error. */
  function ExpandNodeTemplate(d: ResourceData?, generic: Result<GenericConfig>): (r: Result<Option<NodeTemplate>>)
    reads d
    requires d != null ==> d.Get("name").Str?
    requires d != null ==> var az := ListIn(d.attrs, "azure_config"); |az| > 0 && !az[0].Null? ==> az[0].Map?
    ensures d == null ==> r == Success(None)
    ensures d != null ==> (r.Failure? <==> GenericRefused(d.attrs, generic))
    ensures d != null && r.Success? ==> r.value.Some? && r.value.value.id == d.id && r.value.value.name == d.Get("name").s
    ensures d != null && r.Success? ==> r.value.value.genericConfig.Some? == (ListIn(d.attrs, "generic_config") != [])
    ensures r.Success? && r.value.Some? ==> r.value.value.dockerVersion == ""
  {
    if d == null then Success(None)
    else
      var m := d.attrs;
      if GenericRefused(m, generic) then Failure(GenericError(generic))
      else
        var az := ListIn(m, "azure_config");
        Success(Some(NodeTemplate(
          d.id,
          d.Get("name").s,
          Overwrite(Blocks(m, generic), ""),
          BlockIn(m, "amazonec2_config"),
          if az != [] then Some(ExpandAzureConfig(az)) else None,
          BlockIn(m, "digitalocean_config"),
          if ListIn(m, "generic_config") != [] then Some(generic.value) else None,
          BlockIn(m, "openstack_config"),
          BlockIn(m, "vsphere_config"),
          StrIn(m, "auth_certificate_authority"),
          StrIn(m, "auth_key"),
          StrIn(m, "cloud_credential_id"),
          StrIn(m, "description"),
          "",
          ToMapString(MapIn(m, "engine_env")),
          ToArrayString(ListIn(m, "engine_insecure_registry")),
          StrIn(m, "engine_install_url"),
          ToMapString(MapIn(m, "engine_label")),
          ToMapString(MapIn(m, "engine_opt")),
          ToArrayString(ListIn(m, "engine_registry_mirror")),
          StrIn(m, "engine_storage_driver"),
          BoolIn(m, "use_internal_ip_address"),
          ToMapString(MapIn(m, "annotations")),
          ToMapString(MapIn(m, "labels")))))
  }

  /** The expanded driver is that of the last non-empty block in the order
      amazonec2, azure, digitalocean, generic, openstack, vsphere; with no
      block at all it stays empty. */
  lemma DriverPrecedence(d: ResourceData, generic: Result<GenericConfig>)
    requires d.Get("name").Str?
    requires var az := ListIn(d.attrs, "azure_config"); |az| > 0 && !az[0].Null? ==> az[0].Map?
    requires ExpandNodeTemplate(d, generic).Success?
    ensures var t := ExpandNodeTemplate(d, generic).value.value;
      t.driver == (if AnyPresent(Blocks(d.attrs, generic)) then LastPresent(Blocks(d.attrs, generic)) else "")
    ensures ListIn(d.attrs, "vsphere_config") != [] ==> ExpandNodeTemplate(d, generic).value.value.driver == VsphereDriver
  {
    var bs := Blocks(d.attrs, generic);
    OverwriteIsLastPresent(bs, "");
    if bs[5].present {
      LastPresentAt(bs, 5);
    }
  }
}
