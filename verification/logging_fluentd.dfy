/** The fluentd_config block of a logging resource: its fluent_servers list
    and the forwarder config around it. */
module LoggingFluentd {
  import opened Attr

  /** managementClient.FluentServer; `weight` is an int64 in the API. */
  datatype FluentServer = FluentServer(
    endpoint: string,
    hostname: string,
    password: string,
    sharedKey: string,
    standby: bool,
    username: string,
    weight: int)

  /** What the server flatten puts at key k, if anything: strings when
      non-empty, standby always, weight only when positive. */
  function ServerAttr(s: FluentServer, k: string): Option<Value>
  {
    match k
    case "endpoint" => NonEmpty(s.endpoint)
    case "hostname" => NonEmpty(s.hostname)
    case "password" => NonEmpty(s.password)
    case "shared_key" => NonEmpty(s.sharedKey)
    case "standby" => Some(Bool(s.standby))
    case "username" => NonEmpty(s.username)
    case "weight" => if s.weight > 0 then Some(Int(s.weight)) else None
    case _ => None
  }

  const ServerKeys: set<string> := {"endpoint", "hostname", "password", "shared_key", "standby", "username", "weight"}

  /** The map one loop iteration of flattenLoggingFluentdConfigFluentServer appends. */
  function ServerMap(s: FluentServer): Obj
  {
    map k | k in ServerKeys && ServerAttr(s, k).Some? :: ServerAttr(s, k).value
  }

  /** The map one loop iteration of expandLoggingFluentdConfigFluentServer reads. */
  function ExpandServer(m: Obj): (s: FluentServer)
    ensures s.weight != 0 ==> "weight" in m && m["weight"] == Int(s.weight)
  {
    FluentServer(
      StrIn(m, "endpoint"),
      StrIn(m, "hostname"),
      StrIn(m, "password"),
      StrIn(m, "shared_key"),
      BoolIn(m, "standby"),
      StrIn(m, "username"),
      IntIn(m, "weight"))
  }

  /** The whole server list, flattened: one map per server, in order. */
  function FlattenServers(data: seq<FluentServer>): (r: seq<Value>)
    ensures |r| == |data|
    ensures forall i :: 0 <= i < |data| ==> r[i] == Map(ServerMap(data[i]))
  {
    seq(|data|, i requires 0 <= i < |data| => Map(ServerMap(data[i])))
  }

  /** A list the server expand can read without a failed type assertion: an
      empty one, one whose first element is nil, or one of maps only. */
  predicate ServersReadable(p: seq<Value>)
  {
    |p| == 0 || p[0].Null? || forall i :: 0 <= i < |p| ==> p[i].Map?
  }

  /** The whole server list, expanded: empty for an empty list or a nil first
      element, otherwise one server per map, in order. */
  function ExpandServers(p: seq<Value>): (r: seq<FluentServer>)
    requires ServersReadable(p)
    ensures |p| == 0 || p[0].Null? ==> r == []
    ensures !(|p| == 0 || p[0].Null?) ==> |r| == |p| && forall i :: 0 <= i < |p| ==> r[i] == ExpandServer(p[i].entries)
  {
    if |p| == 0 || p[0].Null? then []
    else seq(|p|, i requires 0 <= i < |p| => ExpandServer(p[i].entries))
  }

  method FlattenFluentServers(data: seq<FluentServer>) returns (result: seq<Value>, err: Option<string>)
    ensures result == FlattenServers(data)
    ensures err.None?
  {
    result := [];
    for i := 0 to |data|
      invariant result == FlattenServers(data[..i])
    {
      assert data[..i + 1] == data[..i] + [data[i]];
      result := result + [Map(ServerMap(data[i]))];
    }
    assert data[..|data|] == data;
    err := None;
  }

  method ExpandFluentServers(p: seq<Value>) returns (result: seq<FluentServer>, err: Option<string>)
    requires ServersReadable(p)
    ensures result == ExpandServers(p)
    ensures err.None?
  {
    result := [];
    err := None;
    if |p| == 0 || p[0].Null? {
      return;
    }
    for i := 0 to |p|
      invariant |result| == i
      invariant forall j :: 0 <= j < i ==> result[j] == ExpandServer(p[j].entries)
    {
      result := result + [ExpandServer(p[i].entries)];
    }
  }

  lemma ServerMapAt(s: FluentServer, k: string)
    requires k in ServerKeys
    ensures k in ServerMap(s) <==> ServerAttr(s, k).Some?
    ensures k in ServerMap(s) ==> ServerMap(s)[k] == ServerAttr(s, k).value
  {
  }

  /** The omit-empty convention of one server map: each string exactly when
      non-empty, standby always, and weight exactly when positive. */
  lemma ServerOmitEmpty(s: FluentServer)
    ensures ServerMap(s).Keys <= ServerKeys
    ensures "endpoint" in ServerMap(s) <==> s.endpoint != ""
    ensures "hostname" in ServerMap(s) <==> s.hostname != ""
    ensures "password" in ServerMap(s) <==> s.password != ""
    ensures "shared_key" in ServerMap(s) <==> s.sharedKey != ""
    ensures "username" in ServerMap(s) <==> s.username != ""
    ensures "standby" in ServerMap(s)
    ensures "weight" in ServerMap(s) <==> s.weight > 0
    ensures forall k :: k in ServerMap(s) ==> Filled(ServerMap(s)[k])
  {
    ServerMapAt(s, "endpoint");
    ServerMapAt(s, "hostname");
    ServerMapAt(s, "password");
    ServerMapAt(s, "shared_key");
    ServerMapAt(s, "username");
    ServerMapAt(s, "standby");
    ServerMapAt(s, "weight");
    forall k | k in ServerMap(s)
      ensures Filled(ServerMap(s)[k])
    {
      ServerMapAt(s, k);
    }
  }

  /** A server comes back from its map exactly when its weight is not
      negative; a negative weight is dropped and comes back as 0. */
  lemma ServerRoundTrip(s: FluentServer)
    ensures ExpandServer(ServerMap(s)) == s <==> s.weight >= 0
    ensures s.weight < 0 ==> ExpandServer(ServerMap(s)) == s.(weight := 0)
  {
    ServerMapAt(s, "endpoint");
    ServerMapAt(s, "hostname");
    ServerMapAt(s, "password");
    ServerMapAt(s, "shared_key");
    ServerMapAt(s, "standby");
    ServerMapAt(s, "username");
    ServerMapAt(s, "weight");
  }

  predicate WeightsNonNegative(data: seq<FluentServer>)
  {
    forall i :: 0 <= i < |data| ==> data[i].weight >= 0
  }

  lemma {:induction false} ServersRoundTrip(data: seq<FluentServer>)
    ensures ServersReadable(FlattenServers(data))
    ensures ExpandServers(FlattenServers(data)) == data <==> WeightsNonNegative(data)
  {
    var r := FlattenServers(data);
    if |data| > 0 {
      if WeightsNonNegative(data) {
        forall i | 0 <= i < |data|
          ensures ExpandServer(r[i].entries) == data[i]
        {
          ServerRoundTrip(data[i]);
        }
      } else {
        var i :| 0 <= i < |data| && data[i].weight < 0;
        ServerRoundTrip(data[i]);
        assert ExpandServers(r)[i] != data[i];
      }
    }
  }

  /** managementClient.FluentForwarderConfig; None is a nil FluentServers slice. */
  datatype FluentForwarderConfig = FluentForwarderConfig(
    fluentServers: Option<seq<FluentServer>>,
    certificate: string,
    compress: bool,
    enableTls: bool)

  const ZeroForwarderConfig := FluentForwarderConfig(None, "", false, false)

  function ForwarderAttr(c: FluentForwarderConfig, k: string): Option<Value>
  {
    match k
    case "fluent_servers" =>
      if c.fluentServers.Some? then Some(List(FlattenServers(c.fluentServers.value))) else None
    case "certificate" => NonEmpty(c.certificate)
    case "compress" => Some(Bool(c.compress))
    case "enable_tls" => Some(Bool(c.enableTls))
    case _ => None
  }

  const ForwarderKeys: set<string> := {"fluent_servers", "certificate", "compress", "enable_tls"}

  function ForwarderMap(c: FluentForwarderConfig): Obj
  {
    map k | k in ForwarderKeys && ForwarderAttr(c, k).Some? :: ForwarderAttr(c, k).value
  }

  /** flattenLoggingFluentdConfig; its error result is always nil. */
  function FlattenFluentdConfig(src: Option<FluentForwarderConfig>): (r: seq<Value>)
    ensures src.None? ==> r == []
    ensures src.Some? ==> |r| == 1 && r[0].Map?
    ensures src.Some? ==> "compress" in r[0].entries && "enable_tls" in r[0].entries
  {
    match src
    case None => []
    case Some(c) =>
      ForwarderMapAt(c, "compress");
      ForwarderMapAt(c, "enable_tls");
      [Map(ForwarderMap(c))]
  }

  predicate ForwarderReadable(p: seq<Value>)
  {
    |p| == 0 || p[0].Null? || (p[0].Map? && ServersReadable(ListIn(p[0].entries, "fluent_servers")))
  }

  /** expandLoggingFluentdConfig; its error result is always nil. */
  function ExpandFluentdConfig(p: seq<Value>): (r: FluentForwarderConfig)
    requires ForwarderReadable(p)
    ensures |p| == 0 || p[0].Null? ==> r == ZeroForwarderConfig
    ensures |p| > 0 && !p[0].Null? ==> (r.fluentServers.Some? <==> ListIn(p[0].entries, "fluent_servers") != [])
  {
    if |p| == 0 || p[0].Null? then ZeroForwarderConfig
    else
      var m := p[0].entries;
      var servers := ListIn(m, "fluent_servers");
      FluentForwarderConfig(
        if |servers| > 0 then Some(ExpandServers(servers)) else None,
        StrIn(m, "certificate"),
        BoolIn(m, "compress"),
        BoolIn(m, "enable_tls"))
  }

  lemma ForwarderMapAt(c: FluentForwarderConfig, k: string)
    requires k in ForwarderKeys
    ensures k in ForwarderMap(c) <==> ForwarderAttr(c, k).Some?
    ensures k in ForwarderMap(c) ==> ForwarderMap(c)[k] == ForwarderAttr(c, k).value
  {
  }

  /** The convention of the config map: fluent_servers for any non-nil
      slice, even an empty one, the certificate exactly when non-empty, and
      both booleans always. */
  lemma ForwarderOmitEmpty(c: FluentForwarderConfig)
    ensures ForwarderMap(c).Keys <= ForwarderKeys
    ensures "fluent_servers" in ForwarderMap(c) <==> c.fluentServers.Some?
    ensures "certificate" in ForwarderMap(c) <==> c.certificate != ""
    ensures "compress" in ForwarderMap(c) && "enable_tls" in ForwarderMap(c)
  {
    ForwarderMapAt(c, "fluent_servers");
    ForwarderMapAt(c, "certificate");
    ForwarderMapAt(c, "compress");
    ForwarderMapAt(c, "enable_tls");
  }

  /** The server list is not an empty non-nil slice (flatten keeps it,
      expand drops it) and no server has a negative weight. */
  predicate ForwarderKept(c: FluentForwarderConfig)
  {
    c.fluentServers != Some([]) && (c.fluentServers.Some? ==> WeightsNonNegative(c.fluentServers.value))
  }

  /** The forwarder config comes back exactly when ForwarderKept holds. */
  lemma ForwarderRoundTrip(c: FluentForwarderConfig)
    ensures ForwarderReadable(FlattenFluentdConfig(Some(c)))
    ensures ExpandFluentdConfig(FlattenFluentdConfig(Some(c))) == c <==> ForwarderKept(c)
  {
    ForwarderMapAt(c, "fluent_servers");
    ForwarderMapAt(c, "certificate");
    ForwarderMapAt(c, "compress");
    ForwarderMapAt(c, "enable_tls");
    if c.fluentServers.Some? {
      ServersRoundTrip(c.fluentServers.value);
    }
  }
}
