/** Project logging: flattenProjectLogging, which infers the logging kind
    when state has none, and expandProjectLogging, which builds the config
    the kind names. */
module ProjectLogging {
  import opened Attr
  import opened ResourceState
  import opened Precedence
  import opened LoggingFluentd

  const ElasticsearchKind := "elasticsearch"
  const FluentdKind := "fluentd"
  const KafkaKind := "kafka"
  const SplunkKind := "splunk"
  const SyslogKind := "syslog"

  const LoggingKinds: set<string> := {ElasticsearchKind, FluentdKind, KafkaKind, SplunkKind, SyslogKind}

  /** managementClient.ProjectLogging. The elasticsearch, kafka, splunk and
      syslog configs are kept as the attribute lists their own converters
      produce and read. */
  datatype ProjectLogging = ProjectLogging(
    id: string,
    projectId: string,
    name: string,
    elasticsearchConfig: Option<seq<Value>>,
    fluentForwarderConfig: Option<FluentForwarderConfig>,
    kafkaConfig: Option<seq<Value>>,
    splunkConfig: Option<seq<Value>>,
    syslogConfig: Option<seq<Value>>,
    namespaceId: string,
    outputFlushInterval: int,
    outputTags: map<string, string>,
    annotations: map<string, string>,
    labels: map<string, string>)

  /** The configs present, in the order the kind inference looks at them. */
  function KindBlocks(l: ProjectLogging): seq<Block>
  {
    [Block(l.elasticsearchConfig.Some?, ElasticsearchKind),
     Block(l.fluentForwarderConfig.Some?, FluentdKind),
     Block(l.kafkaConfig.Some?, KafkaKind),
     Block(l.splunkConfig.Some?, SplunkKind),
     Block(l.syslogConfig.Some?, SyslogKind)]
  }

  /** The kind flatten infers: that of the last config present, or "". */
  function InferKind(l: ProjectLogging): string
  {
    LastPresent(KindBlocks(l))
  }

  /** The kind flatten goes on with: the one in state, or the inferred one when state has none. */
  function EffectiveKind(stateKind: string, l: ProjectLogging): string
  {
    if stateKind == "" then InferKind(l) else stateKind
  }

  /** The attribute holding the config of a kind. */
  function ConfigKey(kind: string): string
  {
    match kind
    case "elasticsearch" => "elasticsearch_config"
    case "fluentd" => "fluentd_config"
    case "kafka" => "kafka_config"
    case "splunk" => "splunk_config"
    case _ => "syslog_config"
  }

  /** The config of a kind, flattened; a nil config flattens to an empty list. */
  function FlattenConfig(kind: string, l: ProjectLogging): seq<Value>
  {
    if kind == FluentdKind then FlattenFluentdConfig(l.fluentForwarderConfig)
    else
      var c :=
        if kind == ElasticsearchKind then l.elasticsearchConfig
        else if kind == KafkaKind then l.kafkaConfig
        else if kind == SplunkKind then l.splunkConfig
        else l.syslogConfig;
      if c.Some? then c.value else []
  }

  function KindError(kind: string): string
  {
    "[ERROR] Flattening Cluster Logging resource data: Kind " + kind + " not supported"
  }

  /** The writes before the kind is looked at; neither checks its error. */
  function HeadWrites(l: ProjectLogging): seq<Write>
  {
    [Write("project_id", Str(l.projectId), false), Write("name", Str(l.name), false)]
  }

  /** What the writes after the dispatch put in attribute k. */
  function TailAttr(l: ProjectLogging, k: string): Value
  {
    match k
    case "namespace_id" => Str(l.namespaceId)
    case "output_flush_interval" => Int(l.outputFlushInterval)
    case "output_tags" => Map(ToMapInterface(l.outputTags))
    case "annotations" => Map(ToMapInterface(l.annotations))
    case _ => Map(ToMapInterface(l.labels))
  }

  const TailOrder := ["namespace_id", "output_flush_interval", "output_tags", "annotations", "labels"]
  const TailKeys: set<string> := {"namespace_id", "output_flush_interval", "output_tags", "annotations", "labels"}

  function TailAttrs(l: ProjectLogging): Obj
  {
    map k | k in TailKeys :: TailAttr(l, k)
  }

  /** The writes after the dispatch; the namespace and the flush interval
      do not check their errors. */
  function TailWrites(l: ProjectLogging): seq<Write>
  {
    Writes(TailOrder, TailAttrs(l), {"output_tags", "annotations", "labels"})
  }

  /** The writes of a supported kind: its config, then the tail. */
  function BodyWrites(kind: string, l: ProjectLogging): seq<Write>
  {
    [Write(ConfigKey(kind), List(FlattenConfig(kind, l)), true)] + TailWrites(l)
  }

  /** The inference step of flattenProjectLogging: each config present, in
      turn, overwrites the kind picked so far. */
  method InferFrom(l: ProjectLogging) returns (kind: string)
    ensures kind == InferKind(l)
  {
    kind := "";
    if l.elasticsearchConfig.Some? {
      kind := ElasticsearchKind;
    }
    if l.fluentForwarderConfig.Some? {
      kind := FluentdKind;
    }
    if l.kafkaConfig.Some? {
      kind := KafkaKind;
    }
    if l.splunkConfig.Some? {
      kind := SplunkKind;
    }
    if l.syslogConfig.Some? {
      kind := SyslogKind;
    }
    InferredKind(l);
  }

  /** The state once the kind is settled: the head written and, when state
      had no kind, the inferred one set without checking its error. */
  function Kinded(schema: Schema, a: Obj, l: ProjectLogging, stateKind: string): Obj
  {
    var head := ApplyWrites(schema, a, HeadWrites(l)).attrs;
    if stateKind == "" then SetOne(schema, head, "kind", Str(InferKind(l))) else head
  }

  /** What flattenProjectLogging leaves in state, and the error it returns,
      given the attributes a and the kind stateKind it starts from. */
  function Flattened(schema: Schema, a: Obj, l: ProjectLogging, stateKind: string): Applied
  {
    var kind := EffectiveKind(stateKind, l);
    var kinded := Kinded(schema, a, l, stateKind);
    if kind !in LoggingKinds then Applied(kinded, Some(KindError(kind)))
    else ApplyWrites(schema, kinded, BodyWrites(kind, l))
  }

  /** flattenProjectLogging. The kind in state is read with an unchecked
      type assertion, so it must be a string. */
  method FlattenProjectLogging(d: ResourceData, src: Option<ProjectLogging>) returns (err: Option<string>)
    requires src.Some? ==> d.Get("kind").Str?
    modifies d`id, d`attrs
    ensures src.None? ==> err.None? && d.id == old(d.id) && d.attrs == old(d.attrs)
    ensures src.Some? ==> d.id == src.value.id
    ensures src.Some? ==> Applied(d.attrs, err) == Flattened(d.schema, old(d.attrs), src.value, old(d.Get("kind")).s)
  {
    if src.None? {
      return None;
    }
    var l := src.value;
    ghost var stateKind := d.Get("kind").s;
    ghost var a := d.attrs;
    d.SetId(l.id);
    var _ := d.SetAll(HeadWrites(l));
    ApplyUntouched(d.schema, a, HeadWrites(l), "kind");
    var kind := d.Get("kind").s;
    if kind == "" {
      kind := InferFrom(l);
      var _ := d.Set("kind", Str(kind));
    }
    assert kind == EffectiveKind(stateKind, l) && d.attrs == Kinded(d.schema, a, l, stateKind);
    if kind !in LoggingKinds {
      return Some(KindError(kind));
    }
    var config := FlattenConfig(kind, l);
    ApplyCons(d.schema, d.attrs, Write(ConfigKey(kind), List(config), true), TailWrites(l));
    err := d.Set(ConfigKey(kind), List(config));
    if err.Some? {
      return;
    }
    err := d.SetAll(TailWrites(l));
  }

  /** Setting the kind one present config at a time, in the source's order,
      gives the kind of the last config present, or "" when there is none. */
  lemma InferredKind(l: ProjectLogging)
    ensures InferKind(l) ==
      if l.syslogConfig.Some? then SyslogKind
      else if l.splunkConfig.Some? then SplunkKind
      else if l.kafkaConfig.Some? then KafkaKind
      else if l.fluentForwarderConfig.Some? then FluentdKind
      else if l.elasticsearchConfig.Some? then ElasticsearchKind
      else ""
  {
    var bs := KindBlocks(l);
    if l.syslogConfig.Some? {
      LastPresentAt(bs, 4);
    } else if l.splunkConfig.Some? {
      LastPresentAt(bs, 3);
    } else if l.kafkaConfig.Some? {
      LastPresentAt(bs, 2);
    } else if l.fluentForwarderConfig.Some? {
      LastPresentAt(bs, 1);
    } else if l.elasticsearchConfig.Some? {
      LastPresentAt(bs, 0);
    } else {
      NonePresent(bs);
    }
  }

  /** A kind already in state is taken as it is; without one, flatten finds
      a supported kind exactly when some config is present, and fails
      otherwise. */
  lemma KindRules(stateKind: string, l: ProjectLogging)
    ensures stateKind != "" ==> EffectiveKind(stateKind, l) == stateKind
    ensures stateKind == "" ==> (EffectiveKind(stateKind, l) in LoggingKinds <==> AnyPresent(KindBlocks(l)))
  {
    InferredKind(l);
    var bs := KindBlocks(l);
    if AnyPresent(bs) {
      var i :| 0 <= i < |bs| && bs[i].present;
      assert i == 0 || i == 1 || i == 2 || i == 3 || i == 4;
    } else {
      assert !bs[0].present && !bs[1].present && !bs[2].present && !bs[3].present && !bs[4].present;
    }
  }

  /** A kind already in state is not written again: the kind attribute keeps
      what it held, whatever else the flatten does. */
  lemma KindKept(schema: Schema, a: Obj, l: ProjectLogging, stateKind: string)
    requires stateKind != ""
    ensures var m := Flattened(schema, a, l, stateKind).attrs;
      ("kind" in m <==> "kind" in a) && ("kind" in a ==> m["kind"] == a["kind"])
  {
    ApplyUntouched(schema, a, HeadWrites(l), "kind");
    var body := BodyWrites(stateKind, l);
    assert forall i :: 0 <= i < |body| ==> body[i].key != "kind";
    ApplyUntouched(schema, Kinded(schema, a, l, stateKind), body, "kind");
  }

  /** What expandProjectLogging returns: the object, which can come with an error. */
  datatype Expanded = Expanded(obj: Option<ProjectLogging>, err: Option<string>)

  /** The kinds whose config an object carries. */
  function Configs(l: ProjectLogging): set<string>
  {
    (if l.elasticsearchConfig.Some? then {ElasticsearchKind} else {}) +
    (if l.fluentForwarderConfig.Some? then {FluentdKind} else {}) +
    (if l.kafkaConfig.Some? then {KafkaKind} else {}) +
    (if l.splunkConfig.Some? then {SplunkKind} else {}) +
    (if l.syslogConfig.Some? then {SyslogKind} else {})
  }

  /** What expand has filled in when it looks at the kind. */
  function Started(d: ResourceData): ProjectLogging
    reads d
    requires d.Get("project_id").Str? && d.Get("name").Str?
  {
    ProjectLogging(d.id, d.Get("project_id").s, d.Get("name").s, None, None, None, None, None, "", 0, map[], map[], map[])
  }

  /** An object with its configs cleared. */
  function Unconfigured(l: ProjectLogging): ProjectLogging
  {
    l.(elasticsearchConfig := None, fluentForwarderConfig := None, kafkaConfig := None,
      splunkConfig := None, syslogConfig := None)
  }

  /** The switch of expandProjectLogging: the config of the kind, expanded
      from its block, and no other. */
  function WithConfig(obj: ProjectLogging, kind: string, block: seq<Value>): (r: ProjectLogging)
    requires kind in LoggingKinds
    requires kind == FluentdKind ==> ForwarderReadable(block)
    ensures Configs(r) == Configs(obj) + {kind}
    ensures Unconfigured(r) == Unconfigured(obj)
  {
    if kind == ElasticsearchKind then obj.(elasticsearchConfig := Some(block))
    else if kind == FluentdKind then obj.(fluentForwarderConfig := Some(ExpandFluentdConfig(block)))
    else if kind == KafkaKind then obj.(kafkaConfig := Some(block))
    else if kind == SplunkKind then obj.(splunkConfig := Some(block))
    else obj.(syslogConfig := Some(block))
  }

  /** What the unchecked type assertions of expandProjectLogging demand. */
  predicate Expandable(d: ResourceData)
    reads d
  {
    d.Get("project_id").Str? && d.Get("name").Str? && d.Get("kind").Str? &&
    (d.Get("kind").s == FluentdKind ==> ForwarderReadable(ListIn(d.attrs, ConfigKey(FluentdKind))))
  }

  /** expandProjectLogging. The project, name and kind are read with
      unchecked type assertions, and so is the fluentd block. */
  function ExpandProjectLogging(d: ResourceData?): (r: Expanded)
    reads d
    requires d != null ==> Expandable(d)
    ensures d == null ==> r.obj.None? && r.err.Some?
    ensures d != null ==> r.obj.Some? && (r.err.Some? <==> d.Get("kind").s !in LoggingKinds)
    ensures d != null && r.err.Some? ==> r.obj.value == Started(d)
    ensures d != null && r.err.None? ==>
      var l := r.obj.value;
      l.id == d.id && l.projectId == d.Get("project_id").s && l.name == d.Get("name").s &&
      l.outputFlushInterval >= 0
  {
    if d == null then Expanded(None, Some("[ERROR] Expanding cluster config: Schema Resource data is nil"))
    else
      var kind := d.Get("kind").s;
      var obj := Started(d);
      if kind !in LoggingKinds then
        Expanded(Some(obj), Some("[ERROR] Flattening Project Logging resource data: Kind " + kind + " not supported"))
      else
        var m := d.attrs;
        var tail := obj.(
          namespaceId := StrIn(m, "namespace_id"),
          outputFlushInterval := PosIntIn(m, "output_flush_interval"),
          outputTags := ToMapString(MapIn(m, "output_tags")),
          annotations := ToMapString(MapIn(m, "annotations")),
          labels := ToMapString(MapIn(m, "labels")));
        Expanded(Some(WithConfig(tail, kind, ListIn(m, ConfigKey(kind)))), None)
  }

  /** A successful expand carries the config of the kind in state, and no other. */
  lemma ExpandedConfig(d: ResourceData)
    requires Expandable(d) && d.Get("kind").s in LoggingKinds
    ensures Configs(ExpandProjectLogging(d).obj.value) == {d.Get("kind").s}
  {
    var m := d.attrs;
    var obj := Started(d);
    var tail := obj.(
      namespaceId := StrIn(m, "namespace_id"),
      outputFlushInterval := PosIntIn(m, "output_flush_interval"),
      outputTags := ToMapString(MapIn(m, "output_tags")),
      annotations := ToMapString(MapIn(m, "annotations")),
      labels := ToMapString(MapIn(m, "labels")));
    assert Configs(tail) == {};
  }

  /** What expand gives back of a flattened object: the config of the kind
      and no other, and the flush interval only when it is positive. */
  function Kept(l: ProjectLogging, kind: string): ProjectLogging
  {
    l.(elasticsearchConfig := if kind == ElasticsearchKind then l.elasticsearchConfig else None,
       fluentForwarderConfig := if kind == FluentdKind then l.fluentForwarderConfig else None,
       kafkaConfig := if kind == KafkaKind then l.kafkaConfig else None,
       splunkConfig := if kind == SplunkKind then l.splunkConfig else None,
       syslogConfig := if kind == SyslogKind then l.syslogConfig else None,
       outputFlushInterval := if l.outputFlushInterval > 0 then l.outputFlushInterval else 0)
  }

  /** Every write of the flatten lands: the head, the inferred kind when
      state had none, and the body of the kind. */
  predicate AllLand(schema: Schema, l: ProjectLogging, stateKind: string)
  {
    var kind := EffectiveKind(stateKind, l);
    AllAdmitted(schema, HeadWrites(l)) &&
    (stateKind == "" ==> Admits(schema, "kind", Str(kind))) &&
    AllAdmitted(schema, BodyWrites(kind, l))
  }

  /** The head and the kind, once written, are in the settled state. */
  lemma KindedHolds(schema: Schema, a: Obj, l: ProjectLogging, stateKind: string)
    requires AllLand(schema, l, stateKind)
    requires stateKind != "" ==> "kind" in a && a["kind"] == Str(stateKind)
    ensures var m := Kinded(schema, a, l, stateKind);
      "project_id" in m && m["project_id"] == Str(l.projectId) &&
      "name" in m && m["name"] == Str(l.name) &&
      "kind" in m && m["kind"] == Str(EffectiveKind(stateKind, l))
  {
    var ws := HeadWrites(l);
    assert Admits(schema, ws[0].key, ws[0].value) && Admits(schema, ws[1].key, ws[1].value);
    assert ws == [ws[0]] + [ws[1]];
    ApplyCons(schema, a, ws[0], [ws[1]]);
    ApplyCons(schema, a[ws[0].key := ws[0].value], ws[1], []);
  }

  /** The body of a supported kind, when it all lands, stores the config
      and the tail attributes. */
  lemma BodyHolds(schema: Schema, h: Obj, kind: string, l: ProjectLogging)
    requires AllAdmitted(schema, BodyWrites(kind, l))
    ensures var m := h[ConfigKey(kind) := List(FlattenConfig(kind, l))];
      ApplyWrites(schema, h, BodyWrites(kind, l)) == Applied(m + TailAttrs(l), None) &&
      Holds(m + TailAttrs(l), TailAttrs(l))
  {
    var w := Write(ConfigKey(kind), List(FlattenConfig(kind, l)), true);
    var body := BodyWrites(kind, l);
    assert Admits(schema, body[0].key, body[0].value);
    assert AllAdmitted(schema, TailWrites(l)) by {
      forall i | 0 <= i < |TailWrites(l)|
        ensures Admits(schema, TailWrites(l)[i].key, TailWrites(l)[i].value)
      {
        assert TailWrites(l)[i] == body[i + 1];
      }
    }
    ApplyCons(schema, h, w, TailWrites(l));
    WritesHold(schema, h[ConfigKey(kind) := List(FlattenConfig(kind, l))], TailOrder, TailAttrs(l),
      {"output_tags", "annotations", "labels"});
  }

  /** The tail attributes read back as the object holds them. */
  lemma TailReads(m: Obj, l: ProjectLogging)
    requires Holds(m, TailAttrs(l))
    ensures StrIn(m, "namespace_id") == l.namespaceId
    ensures PosIntIn(m, "output_flush_interval") == if l.outputFlushInterval > 0 then l.outputFlushInterval else 0
    ensures ToMapString(MapIn(m, "output_tags")) == l.outputTags
    ensures ToMapString(MapIn(m, "annotations")) == l.annotations
    ensures ToMapString(MapIn(m, "labels")) == l.labels
  {
    var vals := TailAttrs(l);
    StrRead(m, vals, "namespace_id", l.namespaceId);
    assert vals["output_flush_interval"] == Int(l.outputFlushInterval);
    MapRead(m, vals, "output_tags", l.outputTags);
    MapRead(m, vals, "annotations", l.annotations);
    MapRead(m, vals, "labels", l.labels);
  }

  /** The state a supported kind's flatten leaves, when every write landed,
      holds the head, the kind, the config and the tail. */
  lemma StoredReads(m: Obj, k: Obj, kind: string, l: ProjectLogging)
    requires kind in LoggingKinds
    requires "project_id" in k && k["project_id"] == Str(l.projectId) && "name" in k && k["name"] == Str(l.name)
    requires "kind" in k && k["kind"] == Str(kind)
    requires m == k[ConfigKey(kind) := List(FlattenConfig(kind, l))] + TailAttrs(l)
    ensures "project_id" in m && m["project_id"] == Str(l.projectId) && "name" in m && m["name"] == Str(l.name)
    ensures "kind" in m && m["kind"] == Str(kind)
    ensures ListIn(m, ConfigKey(kind)) == FlattenConfig(kind, l)
  {
    assert ConfigKey(kind) !in TailKeys && ConfigKey(kind) !in {"project_id", "name", "kind"};
  }

  /** Expand reads back the object, given what the stored state holds. */
  lemma ExpandReads(d: ResourceData, kind: string, l: ProjectLogging)
    requires kind in Configs(l)
    requires kind == FluentdKind ==> ForwarderKept(l.fluentForwarderConfig.value)
    requires d.id == l.id && Holds(d.attrs, TailAttrs(l))
    requires d.Get("project_id") == Str(l.projectId) && d.Get("name") == Str(l.name) && d.Get("kind") == Str(kind)
    requires ListIn(d.attrs, ConfigKey(kind)) == FlattenConfig(kind, l)
    ensures Expandable(d) && ExpandProjectLogging(d) == Expanded(Some(Kept(l, kind)), None)
  {
    TailReads(d.attrs, l);
    if kind == FluentdKind {
      ForwarderRoundTrip(l.fluentForwarderConfig.value);
    }
    ConfigKept(l, kind);
  }

  /** Putting back the flattened config of the kind restores it. */
  lemma ConfigKept(l: ProjectLogging, kind: string)
    requires kind in Configs(l)
    requires kind == FluentdKind ==> ExpandFluentdConfig(FlattenFluentdConfig(l.fluentForwarderConfig)) == l.fluentForwarderConfig.value
    ensures kind == FluentdKind ==> ForwarderReadable(FlattenConfig(kind, l))
    ensures WithConfig(Unconfigured(Kept(l, kind)), kind, FlattenConfig(kind, l)) == Kept(l, kind)
  {
    if kind == FluentdKind {
      ForwarderRoundTrip(l.fluentForwarderConfig.value);
    }
  }

  /** Expanding what a flatten stored, when every write landed, gives the
      object back with only the config of its kind; that config must be
      present, and a forwarder config must survive its own round trip. */
  lemma RoundTrip(d: ResourceData, a: Obj, l: ProjectLogging, stateKind: string)
    requires EffectiveKind(stateKind, l) in Configs(l)
    requires EffectiveKind(stateKind, l) == FluentdKind ==> ForwarderKept(l.fluentForwarderConfig.value)
    requires AllLand(d.schema, l, stateKind)
    requires stateKind != "" ==> "kind" in a && a["kind"] == Str(stateKind)
    requires d.id == l.id && d.attrs == Flattened(d.schema, a, l, stateKind).attrs
    ensures Expandable(d) && ExpandProjectLogging(d) == Expanded(Some(Kept(l, EffectiveKind(stateKind, l))), None)
  {
    var kind := EffectiveKind(stateKind, l);
    var k := Kinded(d.schema, a, l, stateKind);
    assert kind in LoggingKinds;
    assert Flattened(d.schema, a, l, stateKind) == ApplyWrites(d.schema, k, BodyWrites(kind, l));
    KindedHolds(d.schema, a, l, stateKind);
    BodyHolds(d.schema, k, kind, l);
    StoredReads(d.attrs, k, kind, l);
    ExpandReads(d, kind, l);
  }

  /** Expand of a state holding an empty block for a kind the object has no
      config of: that kind gets an empty config. */
  lemma ExpandEmptyBlock(d: ResourceData, kind: string, l: ProjectLogging)
    requires kind in LoggingKinds && kind !in Configs(l)
    requires d.id == l.id && Holds(d.attrs, TailAttrs(l))
    requires d.Get("project_id") == Str(l.projectId) && d.Get("name") == Str(l.name) && d.Get("kind") == Str(kind)
    requires ListIn(d.attrs, ConfigKey(kind)) == []
    ensures Expandable(d) && ExpandProjectLogging(d) == Expanded(Some(WithConfig(Kept(l, kind), kind, [])), None)
  {
    TailReads(d.attrs, l);
    assert Configs(Kept(l, kind)) == {};
  }

  /** The exception to the round trip: a kind in state whose config the
      object lacks is flattened as an empty block, and expand turns that
      block into an empty config of the kind, so the object does not come
      back. */
  lemma MissingConfig(d: ResourceData, a: Obj, l: ProjectLogging, stateKind: string)
    requires EffectiveKind(stateKind, l) in LoggingKinds
    requires EffectiveKind(stateKind, l) !in Configs(l)
    requires AllLand(d.schema, l, stateKind)
    requires stateKind != "" ==> "kind" in a && a["kind"] == Str(stateKind)
    requires d.id == l.id && d.attrs == Flattened(d.schema, a, l, stateKind).attrs
    ensures Flattened(d.schema, a, l, stateKind).err.None?
    ensures Expandable(d)
    ensures ExpandProjectLogging(d) == Expanded(Some(WithConfig(Kept(l, EffectiveKind(stateKind, l)), EffectiveKind(stateKind, l), [])), None)
    ensures ExpandProjectLogging(d).obj.value != l
    ensures EffectiveKind(stateKind, l) == FluentdKind ==>
      ExpandProjectLogging(d).obj.value.fluentForwarderConfig == Some(ZeroForwarderConfig)
  {
    var kind := EffectiveKind(stateKind, l);
    var k := Kinded(d.schema, a, l, stateKind);
    assert FlattenConfig(kind, l) == [];
    KindedHolds(d.schema, a, l, stateKind);
    BodyHolds(d.schema, k, kind, l);
    StoredReads(d.attrs, k, kind, l);
    ExpandEmptyBlock(d, kind, l);
  }
}
