/** The azure_config block of a node template: flattenAzureConfig and
    expandAzureConfig. */
module NodeTemplateAzure {
  import opened Attr

  datatype AzureConfig = AzureConfig(
    availabilitySet: string,
    clientId: string,
    clientSecret: string,
    customData: string,
    dns: string,
    environment: string,
    image: string,
    location: string,
    noPublicIp: bool,
    openPort: seq<string>,
    privateAddressOnly: bool,
    privateIpAddress: string,
    resourceGroup: string,
    size: string,
    sshUser: string,
    staticPublicIp: bool,
    storageType: string,
    subnet: string,
    subnetPrefix: string,
    subscriptionId: string,
    usePrivateIp: bool,
    vnet: string)

  const ZeroAzureConfig := AzureConfig("", "", "", "", "", "", "", "", false, [], false, "", "", "", "", false, "", "", "", "", false, "")

  /** What flattenAzureConfig puts at key k, if anything. */
  function AzureAttr(c: AzureConfig, k: string): Option<Value>
  {
    match k
    case "availability_set" => NonEmpty(c.availabilitySet)
    case "client_id" => NonEmpty(c.clientId)
    case "client_secret" => NonEmpty(c.clientSecret)
    case "custom_data" => NonEmpty(c.customData)
    case "dns" => NonEmpty(c.dns)
    case "environment" => NonEmpty(c.environment)
    case "image" => NonEmpty(c.image)
    case "location" => NonEmpty(c.location)
    case "no_public_ip" => Some(Bool(c.noPublicIp))
    case "open_port" => NonEmptyList(c.openPort)
    case "private_address_only" => Some(Bool(c.privateAddressOnly))
    case "private_ip_address" => NonEmpty(c.privateIpAddress)
    case "resource_group" => NonEmpty(c.resourceGroup)
    case "size" => NonEmpty(c.size)
    case "ssh_user" => NonEmpty(c.sshUser)
    case "static_public_ip" => Some(Bool(c.staticPublicIp))
    case "storage_type" => NonEmpty(c.storageType)
    case "subnet" => NonEmpty(c.subnet)
    case "subnet_prefix" => NonEmpty(c.subnetPrefix)
    case "subscription_id" => NonEmpty(c.subscriptionId)
    case "use_private_ip" => Some(Bool(c.usePrivateIp))
    case "vnet" => NonEmpty(c.vnet)
    case _ => None
  }

  const AzureKeys: set<string> := {"availability_set", "client_id", "client_secret", "custom_data", "dns",
    "environment", "image", "location", "no_public_ip", "open_port", "private_address_only",
    "private_ip_address", "resource_group", "size", "ssh_user", "static_public_ip", "storage_type",
    "subnet", "subnet_prefix", "subscription_id", "use_private_ip", "vnet"}

  function AzureMap(c: AzureConfig): Obj
  {
    map k | k in AzureKeys && AzureAttr(c, k).Some? :: AzureAttr(c, k).value
  }

  function FlattenAzureConfig(src: Option<AzureConfig>): (r: seq<Value>)
    ensures src.None? ==> r == []
    ensures src.Some? ==> |r| == 1 && r[0].Map?
  {
    match src
    case None => []
    case Some(c) => [Map(AzureMap(c))]
  }

  function ExpandAzureConfig(p: seq<Value>): (r: AzureConfig)
    requires |p| > 0 && !p[0].Null? ==> p[0].Map?
    ensures |p| == 0 || p[0].Null? ==> r == ZeroAzureConfig
  {
    if |p| == 0 || p[0].Null? then ZeroAzureConfig
    else
      var m := p[0].entries;
      AzureConfig(
        StrIn(m, "availability_set"),
        StrIn(m, "client_id"),
        StrIn(m, "client_secret"),
        StrIn(m, "custom_data"),
        StrIn(m, "dns"),
        StrIn(m, "environment"),
        StrIn(m, "image"),
        StrIn(m, "location"),
        BoolIn(m, "no_public_ip"),
        ToArrayString(ListIn(m, "open_port")),
        BoolIn(m, "private_address_only"),
        StrIn(m, "private_ip_address"),
        StrIn(m, "resource_group"),
        StrIn(m, "size"),
        StrIn(m, "ssh_user"),
        BoolIn(m, "static_public_ip"),
        StrIn(m, "storage_type"),
        StrIn(m, "subnet"),
        StrIn(m, "subnet_prefix"),
        StrIn(m, "subscription_id"),
        BoolIn(m, "use_private_ip"),
        StrIn(m, "vnet"))
  }

  /** flattenAzureConfig's map holds exactly what AzureAttr says. */
  lemma AzureMapAt(c: AzureConfig, k: string)
    requires k in AzureKeys
    ensures k in AzureMap(c) <==> AzureAttr(c, k).Some?
    ensures k in AzureMap(c) ==> AzureMap(c)[k] == AzureAttr(c, k).value
  {
  }

  /** The omit-empty convention of flattenAzureConfig: only the azure keys,
      nothing empty, the four booleans always, and open_port exactly when
      the port list is non-empty. */
  lemma OmitEmpty(c: AzureConfig)
    ensures AzureMap(c).Keys <= AzureKeys
    ensures forall k :: k in AzureMap(c) ==> Filled(AzureMap(c)[k])
    ensures "no_public_ip" in AzureMap(c) && "private_address_only" in AzureMap(c)
    ensures "static_public_ip" in AzureMap(c) && "use_private_ip" in AzureMap(c)
    ensures "open_port" in AzureMap(c) <==> c.openPort != []
  {
    forall k | k in AzureMap(c)
      ensures Filled(AzureMap(c)[k])
    {
      AzureMapAt(c, k);
      AttrFilled(c, k);
    }
    AzureMapAt(c, "no_public_ip");
    AzureMapAt(c, "private_address_only");
    AzureMapAt(c, "static_public_ip");
    AzureMapAt(c, "use_private_ip");
    AzureMapAt(c, "open_port");
  }

  lemma AttrFilled(c: AzureConfig, k: string)
    requires AzureAttr(c, k).Some?
    ensures Filled(AzureAttr(c, k).value)
  {
  }

  lemma StrAt(c: AzureConfig, k: string, s: string)
    requires k in AzureKeys && AzureAttr(c, k) == NonEmpty(s)
    ensures StrIn(AzureMap(c), k) == s
  {
    AzureMapAt(c, k);
  }

  lemma BoolAt(c: AzureConfig, k: string, b: bool)
    requires k in AzureKeys && AzureAttr(c, k) == Some(Bool(b))
    ensures BoolIn(AzureMap(c), k) == b
  {
    AzureMapAt(c, k);
  }

  lemma Reads1(c: AzureConfig)
    ensures StrIn(AzureMap(c), "availability_set") == c.availabilitySet
    ensures StrIn(AzureMap(c), "client_id") == c.clientId
    ensures StrIn(AzureMap(c), "client_secret") == c.clientSecret
    ensures StrIn(AzureMap(c), "custom_data") == c.customData
    ensures StrIn(AzureMap(c), "dns") == c.dns
  {
    StrAt(c, "availability_set", c.availabilitySet);
    StrAt(c, "client_id", c.clientId);
    StrAt(c, "client_secret", c.clientSecret);
    StrAt(c, "custom_data", c.customData);
    StrAt(c, "dns", c.dns);
  }

  lemma Reads2(c: AzureConfig)
    ensures StrIn(AzureMap(c), "environment") == c.environment
    ensures StrIn(AzureMap(c), "image") == c.image
    ensures StrIn(AzureMap(c), "location") == c.location
    ensures BoolIn(AzureMap(c), "no_public_ip") == c.noPublicIp
    ensures ToArrayString(ListIn(AzureMap(c), "open_port")) == c.openPort
  {
    StrAt(c, "environment", c.environment);
    StrAt(c, "image", c.image);
    StrAt(c, "location", c.location);
    BoolAt(c, "no_public_ip", c.noPublicIp);
    AzureMapAt(c, "open_port");
    ArrayRoundTrip(c.openPort);
  }

  lemma Reads3(c: AzureConfig)
    ensures BoolIn(AzureMap(c), "private_address_only") == c.privateAddressOnly
    ensures StrIn(AzureMap(c), "private_ip_address") == c.privateIpAddress
    ensures StrIn(AzureMap(c), "resource_group") == c.resourceGroup
    ensures StrIn(AzureMap(c), "size") == c.size
  {
    BoolAt(c, "private_address_only", c.privateAddressOnly);
    StrAt(c, "private_ip_address", c.privateIpAddress);
    StrAt(c, "resource_group", c.resourceGroup);
    StrAt(c, "size", c.size);
  }

  lemma Reads4(c: AzureConfig)
    ensures StrIn(AzureMap(c), "ssh_user") == c.sshUser
    ensures BoolIn(AzureMap(c), "static_public_ip") == c.staticPublicIp
    ensures StrIn(AzureMap(c), "storage_type") == c.storageType
    ensures StrIn(AzureMap(c), "subnet") == c.subnet
  {
    StrAt(c, "ssh_user", c.sshUser);
    BoolAt(c, "static_public_ip", c.staticPublicIp);
    StrAt(c, "storage_type", c.storageType);
    StrAt(c, "subnet", c.subnet);
  }

  lemma Reads5(c: AzureConfig)
    ensures StrIn(AzureMap(c), "subnet_prefix") == c.subnetPrefix
    ensures StrIn(AzureMap(c), "subscription_id") == c.subscriptionId
    ensures BoolIn(AzureMap(c), "use_private_ip") == c.usePrivateIp
    ensures StrIn(AzureMap(c), "vnet") == c.vnet
  {
    StrAt(c, "subnet_prefix", c.subnetPrefix);
    StrAt(c, "subscription_id", c.subscriptionId);
    BoolAt(c, "use_private_ip", c.usePrivateIp);
    StrAt(c, "vnet", c.vnet);
  }

  /** Expanding a flattened config gives it back. */
  lemma RoundTrip(c: AzureConfig)
    ensures ExpandAzureConfig(FlattenAzureConfig(Some(c))) == c
  {
    Reads1(c);
    Reads2(c);
    Reads3(c);
    Reads4(c);
    Reads5(c);
  }
}
