/** The registration token of a cluster: flattenClusterRegistationToken,
    expandClusterRegistationToken and the id findClusterRegistrationToken
    looks up. */
module ClusterRegistrationToken {
  import opened Attr

  /** clusterRegistrationTokenName: every cluster has one token, named "system". */
  const TokenName := "system"

  datatype Token = Token(
    id: string,
    clusterId: string,
    name: string,
    command: string,
    insecureCommand: string,
    manifestUrl: string,
    nodeCommand: string,
    windowsNodeCommand: string,
    annotations: map<string, string>,
    labels: map<string, string>)

  const TokenKeys: set<string> := {"id", "cluster_id", "name", "command", "insecure_command",
    "manifest_url", "node_command", "windows_node_command", "annotations", "labels"}

  /** Every key is emitted, empty or not; the name is always "system". */
  function TokenMap(t: Token): (m: Obj)
    ensures m.Keys == TokenKeys
    ensures m["name"] == Str(TokenName)
  {
    map[
      "id" := Str(t.id),
      "cluster_id" := Str(t.clusterId),
      "name" := Str(TokenName),
      "command" := Str(t.command),
      "insecure_command" := Str(t.insecureCommand),
      "manifest_url" := Str(t.manifestUrl),
      "node_command" := Str(t.nodeCommand),
      "windows_node_command" := Str(t.windowsNodeCommand),
      "annotations" := Map(ToMapInterface(t.annotations)),
      "labels" := Map(ToMapInterface(t.labels))]
  }

  /** flattenClusterRegistationToken; its error result is always nil. */
  function FlattenToken(src: Option<Token>): (r: seq<Value>)
    ensures src.None? ==> r == []
    ensures src.Some? ==> |r| == 1 && r[0].Map? && r[0].entries.Keys == TokenKeys
    ensures src.Some? ==> r[0].entries["name"] == Str(TokenName)
  {
    match src
    case None => []
    case Some(t) => [Map(TokenMap(t))]
  }

  /** A token that only names its cluster: what expand makes of an empty block. */
  function BareToken(clusterId: string): Token
  {
    Token("", clusterId, TokenName, "", "", "", "", "", map[], map[])
  }

  function ExpandToken(p: seq<Value>, clusterId: string): (r: Result<Token>)
    requires |p| > 0 && !p[0].Null? ==> p[0].Map?
    ensures r.Failure? <==> clusterId == ""
    ensures r.Success? ==> r.value.clusterId == clusterId && r.value.name == TokenName
    ensures r.Success? ==>
      r.value.command == "" && r.value.insecureCommand == "" && r.value.manifestUrl == "" &&
      r.value.nodeCommand == "" && r.value.windowsNodeCommand == ""
    ensures clusterId != "" && (|p| == 0 || p[0].Null?) ==> r == Success(BareToken(clusterId))
  {
    if |clusterId| == 0 then Failure("[ERROR] Expanding Cluster Registration Token: Cluster id is nil")
    else if |p| == 0 || p[0].Null? then Success(BareToken(clusterId))
    else
      var m := p[0].entries;
      Success(BareToken(clusterId).(
        id := StrIn(m, "id"),
        annotations := ToMapString(MapIn(m, "annotations")),
        labels := ToMapString(MapIn(m, "labels"))))
  }

  /** Expanding a flattened token under its own cluster keeps its id and
      labels, resets its name to "system" and drops the computed commands
      and URL. */
  lemma RoundTrip(t: Token)
    requires t.clusterId != ""
    ensures ExpandToken(FlattenToken(Some(t)), t.clusterId) ==
      Success(BareToken(t.clusterId).(id := t.id, annotations := t.annotations, labels := t.labels))
  {
    MapRoundTrip(t.annotations);
    MapRoundTrip(t.labels);
  }

  /** The id of a cluster's token. */
  function TokenId(clusterId: string): (id: string)
    ensures |id| == |clusterId| + 1 + |TokenName|
    ensures id[..|clusterId|] == clusterId && id[|clusterId|] == ':'
    ensures id[|clusterId| + 1..] == TokenName
  {
    clusterId + ":" + TokenName
  }

  /** Distinct clusters never share a token id. */
  lemma TokenIdInjective(a: string, b: string)
    requires TokenId(a) == TokenId(b)
    ensures a == b
  {
    assert |a| == |b|;
    assert a == TokenId(a)[..|a|];
  }
}
