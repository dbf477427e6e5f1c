/** The bastion_host block of an RKE cluster config:
    flattenClusterRKEConfigBastionHost and expandClusterRKEConfigBastionHost.
    Neither function can fail, so their Go error result is always nil and is
    not modelled. */
module RkeBastionHost {
  import opened Attr

  datatype BastionHost = BastionHost(
    address: string,
    port: string,
    sshAgentAuth: bool,
    sshKey: string,
    sshKeyPath: string,
    user: string)

  const ZeroBastionHost := BastionHost("", "", false, "", "", "")

  /** What the flatten puts at key k, if anything. */
  function BastionAttr(b: BastionHost, k: string): Option<Value>
  {
    match k
    case "address" => NonEmpty(b.address)
    case "port" => NonEmpty(b.port)
    case "ssh_agent_auth" => Some(Bool(b.sshAgentAuth))
    case "ssh_key" => NonEmpty(b.sshKey)
    case "ssh_key_path" => NonEmpty(b.sshKeyPath)
    case "user" => NonEmpty(b.user)
    case _ => None
  }

  const BastionKeys: set<string> := {"address", "port", "ssh_agent_auth", "ssh_key", "ssh_key_path", "user"}

  function BastionMap(b: BastionHost): Obj
  {
    map k | k in BastionKeys && BastionAttr(b, k).Some? :: BastionAttr(b, k).value
  }

  function FlattenBastionHost(src: Option<BastionHost>): (r: seq<Value>)
    ensures src.None? ==> r == []
    ensures src.Some? ==> |r| == 1 && r[0].Map? && "ssh_agent_auth" in r[0].entries
  {
    match src
    case None => []
    case Some(b) => [Map(BastionMap(b))]
  }

  function ExpandBastionHost(p: seq<Value>): (r: BastionHost)
    requires |p| > 0 && !p[0].Null? ==> p[0].Map?
    ensures |p| == 0 || p[0].Null? ==> r == ZeroBastionHost
  {
    if |p| == 0 || p[0].Null? then ZeroBastionHost
    else
      var m := p[0].entries;
      BastionHost(
        StrIn(m, "address"),
        StrIn(m, "port"),
        BoolIn(m, "ssh_agent_auth"),
        StrIn(m, "ssh_key"),
        StrIn(m, "ssh_key_path"),
        StrIn(m, "user"))
  }

  /** The flattened map holds a string only when it is non-empty, and always
      holds ssh_agent_auth. */
  lemma BastionMapAt(b: BastionHost, k: string)
    requires k in BastionKeys
    ensures k in BastionMap(b) <==> BastionAttr(b, k).Some?
    ensures k in BastionMap(b) ==> BastionMap(b)[k] == BastionAttr(b, k).value
  {
  }

  /** The omit-empty convention of the flatten: each string is in the map
      exactly when it is non-empty, and ssh_agent_auth always. */
  lemma OmitEmpty(b: BastionHost)
    ensures BastionMap(b).Keys <= BastionKeys
    ensures "address" in BastionMap(b) <==> b.address != ""
    ensures "port" in BastionMap(b) <==> b.port != ""
    ensures "ssh_key" in BastionMap(b) <==> b.sshKey != ""
    ensures "ssh_key_path" in BastionMap(b) <==> b.sshKeyPath != ""
    ensures "user" in BastionMap(b) <==> b.user != ""
    ensures "ssh_agent_auth" in BastionMap(b)
    ensures forall k :: k in BastionMap(b) ==> Filled(BastionMap(b)[k])
  {
    BastionMapAt(b, "address");
    BastionMapAt(b, "port");
    BastionMapAt(b, "ssh_key");
    BastionMapAt(b, "ssh_key_path");
    BastionMapAt(b, "user");
    BastionMapAt(b, "ssh_agent_auth");
    forall k | k in BastionMap(b)
      ensures Filled(BastionMap(b)[k])
    {
      BastionMapAt(b, k);
    }
  }

  lemma RoundTrip(b: BastionHost)
    ensures ExpandBastionHost(FlattenBastionHost(Some(b))) == b
  {
    BastionMapAt(b, "address");
    BastionMapAt(b, "port");
    BastionMapAt(b, "ssh_agent_auth");
    BastionMapAt(b, "ssh_key");
    BastionMapAt(b, "ssh_key_path");
    BastionMapAt(b, "user");
  }
}
