/** The dns block of an RKE cluster config: flattenClusterRKEConfigDNS and
    expandClusterRKEConfigDNS. Neither can fail; their Go error result is
    always nil and is not modelled. */
module RkeDns {
  import opened Attr

  datatype DnsConfig = DnsConfig(
    nodeSelector: map<string, string>,
    provider: string,
    reverseCidrs: seq<string>,
    upstreamNameservers: seq<string>)

  const ZeroDnsConfig := DnsConfig(map[], "", [], [])

  /** What the flatten puts at key k, if anything: every key only when its
      value is non-empty. */
  function DnsAttr(c: DnsConfig, k: string): Option<Value>
  {
    match k
    case "node_selector" => NonEmptyMap(c.nodeSelector)
    case "provider" => NonEmpty(c.provider)
    case "reverse_cidrs" => NonEmptyList(c.reverseCidrs)
    case "upstream_nameservers" => NonEmptyList(c.upstreamNameservers)
    case _ => None
  }

  const DnsKeys: set<string> := {"node_selector", "provider", "reverse_cidrs", "upstream_nameservers"}

  function DnsMap(c: DnsConfig): Obj
  {
    map k | k in DnsKeys && DnsAttr(c, k).Some? :: DnsAttr(c, k).value
  }

  function FlattenDns(src: Option<DnsConfig>): (r: seq<Value>)
    ensures src.None? ==> r == []
    ensures src.Some? ==> |r| == 1 && r[0].Map?
  {
    match src
    case None => []
    case Some(c) => [Map(DnsMap(c))]
  }

  function ExpandDns(p: seq<Value>): (r: DnsConfig)
    requires |p| > 0 && !p[0].Null? ==> p[0].Map?
    ensures |p| == 0 || p[0].Null? ==> r == ZeroDnsConfig
  {
    if |p| == 0 || p[0].Null? then ZeroDnsConfig
    else
      var m := p[0].entries;
      DnsConfig(
        ToMapString(MapIn(m, "node_selector")),
        StrIn(m, "provider"),
        ToArrayString(ListIn(m, "reverse_cidrs")),
        ToArrayString(ListIn(m, "upstream_nameservers")))
  }

  lemma DnsMapAt(c: DnsConfig, k: string)
    requires k in DnsKeys
    ensures k in DnsMap(c) <==> DnsAttr(c, k).Some?
    ensures k in DnsMap(c) ==> DnsMap(c)[k] == DnsAttr(c, k).value
  {
  }

  /** The omit-empty convention of the flatten: each of the four keys is in
      the map exactly when its value is non-empty. */
  lemma OmitEmpty(c: DnsConfig)
    ensures DnsMap(c).Keys <= DnsKeys
    ensures "node_selector" in DnsMap(c) <==> c.nodeSelector != map[]
    ensures "provider" in DnsMap(c) <==> c.provider != ""
    ensures "reverse_cidrs" in DnsMap(c) <==> c.reverseCidrs != []
    ensures "upstream_nameservers" in DnsMap(c) <==> c.upstreamNameservers != []
    ensures forall k :: k in DnsMap(c) ==> Filled(DnsMap(c)[k])
  {
    DnsMapAt(c, "node_selector");
    DnsMapAt(c, "provider");
    DnsMapAt(c, "reverse_cidrs");
    DnsMapAt(c, "upstream_nameservers");
    forall k | k in DnsMap(c)
      ensures Filled(DnsMap(c)[k])
    {
      DnsMapAt(c, k);
    }
  }

  /** A zero config flattens to one empty map. */
  lemma FlattenZero()
    ensures FlattenDns(Some(ZeroDnsConfig)) == [Map(map[])]
  {
    assert DnsMap(ZeroDnsConfig) == map[];
  }

  lemma RoundTrip(c: DnsConfig)
    ensures ExpandDns(FlattenDns(Some(c))) == c
  {
    DnsMapAt(c, "node_selector");
    DnsMapAt(c, "provider");
    DnsMapAt(c, "reverse_cidrs");
    DnsMapAt(c, "upstream_nameservers");
    MapRoundTrip(c.nodeSelector);
    ArrayRoundTrip(c.reverseCidrs);
    ArrayRoundTrip(c.upstreamNameservers);
  }
}
