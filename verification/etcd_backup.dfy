/** rancher2_etcd_backup: flattenEtcdBackup, which keeps the S3 secret held
    in state across a refresh by writing it into the API object it was
    handed, and expandEtcdBackup. */
module EtcdBackup {
  import opened Attr
  import opened ResourceState

  /** managementClient.S3BackupConfig, the fields the converters touch. */
  datatype S3BackupConfig = S3BackupConfig(
    accessKey: string,
    bucketName: string,
    endpoint: string,
    region: string,
    secretKey: string)

  /** managementClient.BackupConfig; Enabled is a *bool in the API. */
  datatype BackupConfig = BackupConfig(
    enabled: Option<bool>,
    intervalHours: int,
    retention: int,
    s3BackupConfig: Option<S3BackupConfig>)

  /** managementClient.EtcdBackup. */
  datatype Backup = Backup(
    id: string,
    backupConfig: Option<BackupConfig>,
    clusterId: string,
    filename: string,
    manual: bool,
    name: string,
    namespaceId: string,
    annotations: map<string, string>,
    labels: map<string, string>)

  /** The *managementClient.EtcdBackup that flatten is handed: the caller's
      object, which flatten may change. */
  class BackupRef {
    var obj: Backup

    constructor (obj: Backup)
      ensures this.obj == obj
    {
      this.obj := obj;
    }
  }

  // The S3 block: a string field is stored only when it is non-empty.

  function S3Field(c: S3BackupConfig, k: string): string
  {
    match k
    case "access_key" => c.accessKey
    case "bucket_name" => c.bucketName
    case "endpoint" => c.endpoint
    case "region" => c.region
    case _ => c.secretKey
  }

  const S3Keys: set<string> := {"access_key", "bucket_name", "endpoint", "region", "secret_key"}

  function S3Map(c: S3BackupConfig): Obj
  {
    map k | k in S3Keys && S3Field(c, k) != "" :: Str(S3Field(c, k))
  }

  /** The S3 block as a one-element list, or an empty list for nil. */
  function FlattenS3(src: Option<S3BackupConfig>): (r: seq<Value>)
    ensures src.None? <==> r == []
    ensures src.Some? ==> r == [Map(S3Map(src.value))]
  {
    if src.None? then [] else [Map(S3Map(src.value))]
  }

  function ExpandS3(p: seq<Value>): (r: S3BackupConfig)
    requires |p| > 0
    ensures p[0].Map? && StrIn(p[0].entries, "secret_key") != "" ==>
      "secret_key" in p[0].entries && p[0].entries["secret_key"] == Str(r.secretKey)
  {
    var m := if p[0].Map? then p[0].entries else map[];
    S3BackupConfig(StrIn(m, "access_key"), StrIn(m, "bucket_name"), StrIn(m, "endpoint"),
      StrIn(m, "region"), StrIn(m, "secret_key"))
  }

  /** Every S3 field comes back. */
  lemma S3RoundTrip(c: S3BackupConfig)
    ensures ExpandS3(FlattenS3(Some(c))) == c
  {
    var m := S3Map(c);
    assert StrIn(m, "access_key") == c.accessKey;
    assert StrIn(m, "bucket_name") == c.bucketName;
    assert StrIn(m, "endpoint") == c.endpoint;
    assert StrIn(m, "region") == c.region;
    assert StrIn(m, "secret_key") == c.secretKey;
  }

  // The backup block: enabled only when set, the counts only when positive,
  // the S3 block only when present.

  function BackupMap(c: BackupConfig): (r: Obj)
    ensures "s3_backup_config" in r <==> c.s3BackupConfig.Some?
    ensures "s3_backup_config" in r ==> r["s3_backup_config"] == List(FlattenS3(c.s3BackupConfig))
  {
    (if c.enabled.Some? then map["enabled" := Bool(c.enabled.value)] else map[]) +
    (if c.intervalHours > 0 then map["interval_hours" := Int(c.intervalHours)] else map[]) +
    (if c.retention > 0 then map["retention" := Int(c.retention)] else map[]) +
    (if c.s3BackupConfig.Some? then map["s3_backup_config" := List(FlattenS3(c.s3BackupConfig))] else map[])
  }

  function FlattenBackupConfig(src: Option<BackupConfig>): (r: seq<Value>)
    ensures src.None? <==> r == []
    ensures src.Some? ==> r == [Map(BackupMap(src.value))]
  {
    if src.None? then [] else [Map(BackupMap(src.value))]
  }

  function ExpandBackupConfig(p: seq<Value>): (r: BackupConfig)
    requires |p| > 0
    ensures r.intervalHours >= 0 && r.retention >= 0
    ensures p[0].Map? ==> (r.s3BackupConfig.Some? <==> ListIn(p[0].entries, "s3_backup_config") != [])
  {
    var m := if p[0].Map? then p[0].entries else map[];
    var s3 := ListIn(m, "s3_backup_config");
    BackupConfig(
      if "enabled" in m && m["enabled"].Bool? then Some(m["enabled"].b) else None,
      PosIntIn(m, "interval_hours"),
      PosIntIn(m, "retention"),
      if s3 != [] then Some(ExpandS3(s3)) else None)
  }

  /** A backup block comes back when its counts are not negative; a
      negative count is not stored and reads back as zero. */
  lemma BackupRoundTrip(c: BackupConfig)
    ensures ExpandBackupConfig(FlattenBackupConfig(Some(c))) == c <==> c.intervalHours >= 0 && c.retention >= 0
  {
    var m := BackupMap(c);
    assert ("enabled" in m && m["enabled"].Bool?) <==> c.enabled.Some?;
    assert c.enabled.Some? ==> m["enabled"].b == c.enabled.value;
    assert PosIntIn(m, "interval_hours") == if c.intervalHours > 0 then c.intervalHours else 0;
    assert PosIntIn(m, "retention") == if c.retention > 0 then c.retention else 0;
    if c.s3BackupConfig.Some? {
      S3RoundTrip(c.s3BackupConfig.value);
    }
  }

  // State and the secret it holds.

  /** d.Get("backup_config.0.s3_backup_config.0.secret_key"), read as a
      string: "" when any step of the path is missing. */
  function SecretInState(m: Obj): string
  {
    var bl := ListIn(m, "backup_config");
    if bl == [] || !bl[0].Map? then ""
    else
      var sl := ListIn(bl[0].entries, "s3_backup_config");
      if sl == [] || !sl[0].Map? then "" else StrIn(sl[0].entries, "secret_key")
  }

  /** Whether an object has an S3 block whose secret can be replaced. */
  predicate HasS3(b: Backup)
  {
    b.backupConfig.Some? && b.backupConfig.value.s3BackupConfig.Some?
  }

  /** The object after flatten has put the state's secret into it: unchanged
      when state holds no secret, otherwise with only the S3 secret replaced. */
  function WithStateSecret(b: Backup, secret: string): (r: Backup)
    requires secret != "" ==> HasS3(b)
    ensures secret == "" ==> r == b
    ensures secret != "" ==> HasS3(r) && r.backupConfig.value.s3BackupConfig.value.secretKey == secret
    ensures r.(backupConfig := b.backupConfig) == b
    ensures HasS3(b) ==>
      r.backupConfig.value.(s3BackupConfig := b.backupConfig.value.s3BackupConfig) == b.backupConfig.value &&
      r.backupConfig.value.s3BackupConfig.value.(secretKey := b.backupConfig.value.s3BackupConfig.value.secretKey) ==
        b.backupConfig.value.s3BackupConfig.value
  {
    if secret == "" then b
    else
      var bc := b.backupConfig.value;
      var s3 := bc.s3BackupConfig.value;
      b.(backupConfig := Some(bc.(s3BackupConfig := Some(s3.(secretKey := secret)))))
  }

  /** What flattenEtcdBackup writes to attribute k after SetId. */
  function EtcdAttr(b: Backup, k: string): Value
  {
    match k
    case "backup_config" => List(FlattenBackupConfig(b.backupConfig))
    case "cluster_id" => Str(b.clusterId)
    case "filename" => Str(b.filename)
    case "manual" => Bool(b.manual)
    case "name" => Str(b.name)
    case "namespace_id" => Str(b.namespaceId)
    case "annotations" => Map(ToMapInterface(b.annotations))
    case _ => Map(ToMapInterface(b.labels))
  }

  const EtcdKeys: set<string> := {"backup_config", "cluster_id", "filename", "manual", "name",
    "namespace_id", "annotations", "labels"}

  function EtcdAttrs(b: Backup): Obj
  {
    map k | k in EtcdKeys :: EtcdAttr(b, k)
  }

  const EtcdOrder := ["backup_config", "cluster_id", "filename", "manual", "name",
    "namespace_id", "annotations", "labels"]

  /** Every Set returns its error. */
  function EtcdWrites(b: Backup): seq<Write>
  {
    Writes(EtcdOrder, EtcdAttrs(b), EtcdKeys)
  }

  /** flattenEtcdBackup. When state holds an S3 secret, the caller's object
      must have an S3 block for it to go into, as the source dereferences
      both pointers unchecked. */
  method FlattenEtcdBackup(d: ResourceData, src: BackupRef?) returns (err: Option<string>)
    requires src != null && SecretInState(d.attrs) != "" ==> HasS3(src.obj)
    modifies d`id, d`attrs, src
    ensures src == null ==> err.None? && d.id == old(d.id) && d.attrs == old(d.attrs)
    ensures src != null ==> src.obj == WithStateSecret(old(src.obj), SecretInState(old(d.attrs)))
    ensures src != null ==> d.id == src.obj.id
    ensures src != null ==> Applied(d.attrs, err) == ApplyWrites(d.schema, old(d.attrs), EtcdWrites(src.obj))
  {
    if src == null {
      return None;
    }
    d.SetId(src.obj.id);
    var secret := SecretInState(d.attrs);
    if secret != "" {
      var bc := src.obj.backupConfig.value;
      var s3 := bc.s3BackupConfig.value;
      src.obj := src.obj.(backupConfig := Some(bc.(s3BackupConfig := Some(s3.(secretKey := secret)))));
    }
    err := d.SetAll(EtcdWrites(src.obj));
  }

  /** expandEtcdBackup. The cluster id is read with an unchecked type
      assertion. */
  function ExpandEtcdBackup(d: ResourceData?): (r: Option<Backup>)
    reads d
    requires d != null ==> d.Get("cluster_id").Str?
    ensures d == null <==> r.None?
    ensures r.Some? ==> r.value.clusterId == d.Get("cluster_id").s && r.value.id == d.id
    ensures r.Some? ==> (r.value.backupConfig.Some? <==> ListIn(d.attrs, "backup_config") != [])
    ensures r.Some? && r.value.backupConfig.Some? ==>
      r.value.backupConfig.value.intervalHours >= 0 && r.value.backupConfig.value.retention >= 0
    ensures r.Some? ==> r.value.manual == BoolIn(d.attrs, "manual")
    ensures r.Some? ==> r.value.filename == StrIn(d.attrs, "filename")
    ensures r.Some? ==> r.value.name == StrIn(d.attrs, "name")
    ensures r.Some? ==> r.value.namespaceId == StrIn(d.attrs, "namespace_id")
    ensures r.Some? ==> r.value.annotations == ToMapString(MapIn(d.attrs, "annotations"))
    ensures r.Some? ==> r.value.labels == ToMapString(MapIn(d.attrs, "labels"))
  {
    if d == null then None
    else
      var m := d.attrs;
      var bl := ListIn(m, "backup_config");
      Some(Backup(
        d.id,
        if bl != [] then Some(ExpandBackupConfig(bl)) else None,
        d.Get("cluster_id").s,
        StrIn(m, "filename"),
        BoolIn(m, "manual"),
        StrIn(m, "name"),
        StrIn(m, "namespace_id"),
        ToMapString(MapIn(m, "annotations")),
        ToMapString(MapIn(m, "labels"))))
  }

  lemma Covered(b: Backup)
    ensures forall i :: 0 <= i < |EtcdOrder| ==> EtcdOrder[i] in EtcdAttrs(b)
    ensures forall k :: k in EtcdAttrs(b) ==> k in EtcdOrder
  {
  }

  /** The secret that state reads back after a write of the backup block. */
  lemma StoredSecret(b: Backup)
    ensures SecretInState(map["backup_config" := List(FlattenBackupConfig(b.backupConfig))]) ==
      if HasS3(b) then b.backupConfig.value.s3BackupConfig.value.secretKey else ""
  {
    if HasS3(b) {
      var s3 := b.backupConfig.value.s3BackupConfig.value;
      assert StrIn(S3Map(s3), "secret_key") == s3.secretKey;
    }
  }

  /** When every write lands, state holds what flatten wrote. */
  lemma Stored(schema: Schema, a: Obj, b: Backup)
    requires AllAdmitted(schema, EtcdWrites(b))
    ensures ApplyWrites(schema, a, EtcdWrites(b)) == Applied(a + EtcdAttrs(b), None)
    ensures Holds(a + EtcdAttrs(b), EtcdAttrs(b))
  {
    Covered(b);
    WritesHold(schema, a, EtcdOrder, EtcdAttrs(b), EtcdKeys);
  }

  /** A refresh keeps the S3 secret held in state: once every write lands,
      state holds the secret it held before, or the API object's own secret
      when it held none. */
  lemma SecretSurvives(schema: Schema, a: Obj, b: Backup)
    requires SecretInState(a) != "" ==> HasS3(b)
    requires AllAdmitted(schema, EtcdWrites(WithStateSecret(b, SecretInState(a))))
    ensures var m := ApplyWrites(schema, a, EtcdWrites(WithStateSecret(b, SecretInState(a)))).attrs;
      SecretInState(m) ==
        if SecretInState(a) != "" then SecretInState(a)
        else if HasS3(b) then b.backupConfig.value.s3BackupConfig.value.secretKey
        else ""
  {
    var b' := WithStateSecret(b, SecretInState(a));
    Stored(schema, a, b');
    var m := a + EtcdAttrs(b');
    var v := List(FlattenBackupConfig(b'.backupConfig));
    assert m["backup_config"] == v;
    assert SecretInState(m) == SecretInState(map["backup_config" := v]);
    StoredSecret(b');
  }

  lemma Reads(d: ResourceData, b: Backup)
    requires Holds(d.attrs, EtcdAttrs(b))
    ensures d.Get("cluster_id") == Str(b.clusterId)
    ensures ListIn(d.attrs, "backup_config") == FlattenBackupConfig(b.backupConfig)
    ensures StrIn(d.attrs, "filename") == b.filename && BoolIn(d.attrs, "manual") == b.manual
    ensures StrIn(d.attrs, "name") == b.name && StrIn(d.attrs, "namespace_id") == b.namespaceId
    ensures ToMapString(MapIn(d.attrs, "annotations")) == b.annotations
    ensures ToMapString(MapIn(d.attrs, "labels")) == b.labels
  {
    var vals := EtcdAttrs(b);
    d.HeldGet(vals, "cluster_id");
    assert vals["backup_config"] == List(FlattenBackupConfig(b.backupConfig));
    StrRead(d.attrs, vals, "filename", b.filename);
    BoolRead(d.attrs, vals, "manual", b.manual);
    StrRead(d.attrs, vals, "name", b.name);
    StrRead(d.attrs, vals, "namespace_id", b.namespaceId);
    MapRead(d.attrs, vals, "annotations", b.annotations);
    MapRead(d.attrs, vals, "labels", b.labels);
  }

  /** Expanding what a successful flatten stored gives the object back,
      provided its backup counts are not negative. */
  lemma RoundTrip(d: ResourceData, a: Obj, b: Backup)
    requires AllAdmitted(d.schema, EtcdWrites(b))
    requires d.id == b.id && d.attrs == ApplyWrites(d.schema, a, EtcdWrites(b)).attrs
    requires b.backupConfig.Some? ==> b.backupConfig.value.intervalHours >= 0 && b.backupConfig.value.retention >= 0
    ensures d.Get("cluster_id").Str? && ExpandEtcdBackup(d) == Some(b)
  {
    Stored(d.schema, a, b);
    Reads(d, b);
    if b.backupConfig.Some? {
      BackupRoundTrip(b.backupConfig.value);
    }
  }

  // The unit test's fixture.

  const FixtureS3 := S3BackupConfig("access_key", "bucket_name", "endpoint", "region", "secret")
  const FixtureBackupConfig := BackupConfig(Some(true), 20, 10, Some(FixtureS3))
  const FixtureBackup := Backup("", Some(FixtureBackupConfig), "cluster-test", "filename", true, "test",
    "namespace_id", map[], map[])

  /** The test's attribute map. */
  function FixtureAttr(k: string): Value
  {
    match k
    case "backup_config" => List(FlattenBackupConfig(Some(FixtureBackupConfig)))
    case "cluster_id" => Str("cluster-test")
    case "filename" => Str("filename")
    case "manual" => Bool(true)
    case "name" => Str("test")
    case _ => Str("namespace_id")
  }

  const FixtureKeys: set<string> := {"backup_config", "cluster_id", "filename", "manual", "name", "namespace_id"}

  function FixtureAttrs(): Obj
  {
    map k | k in FixtureKeys :: FixtureAttr(k)
  }

  /** The test's S3 block, as stored. */
  lemma FixtureS3Block()
    ensures S3Map(FixtureS3) == map["access_key" := Str("access_key"), "bucket_name" := Str("bucket_name"),
      "endpoint" := Str("endpoint"), "region" := Str("region"), "secret_key" := Str("secret")]
  {
  }

  /** The test's backup block, as stored. */
  lemma FixtureBackupBlock()
    ensures BackupMap(FixtureBackupConfig) == map["enabled" := Bool(true), "interval_hours" := Int(20),
      "retention" := Int(10), "s3_backup_config" := List([Map(S3Map(FixtureS3))])]
  {
  }

  /** TestFlattenEtcdBackup: flattening the fixture into empty state, where
      every write lands, stores each attribute of the fixture's map. */
  lemma FlattenFixture(schema: Schema)
    requires AllAdmitted(schema, EtcdWrites(FixtureBackup))
    ensures var r := ApplyWrites(schema, map[], EtcdWrites(FixtureBackup));
      r.err.None? && Holds(r.attrs, FixtureAttrs())
  {
    FlattenHolds(schema, map[], FixtureBackup);
    assert FixtureAttrs() == CoreAttrs(FixtureBackup);
  }

  /** The attributes other than the annotations and labels. */
  function CoreAttrs(b: Backup): Obj
  {
    map k | k in FixtureKeys :: EtcdAttr(b, k)
  }

  /** When every write lands, state holds the core attributes. */
  lemma FlattenHolds(schema: Schema, a: Obj, b: Backup)
    requires AllAdmitted(schema, EtcdWrites(b))
    ensures var r := ApplyWrites(schema, a, EtcdWrites(b));
      r.err.None? && Holds(r.attrs, CoreAttrs(b))
  {
    Stored(schema, a, b);
    CoreHeld(a + EtcdAttrs(b), b);
  }

  lemma CoreHeld(m: Obj, b: Backup)
    requires Holds(m, EtcdAttrs(b))
    ensures Holds(m, CoreAttrs(b))
  {
    forall k | k in CoreAttrs(b)
      ensures k in m && m[k] == CoreAttrs(b)[k]
    {
      assert EtcdAttrs(b)[k] == CoreAttrs(b)[k];
    }
  }

  /** Expand reads back an object whose attributes other than annotations
      and labels are in state, when it has neither. */
  lemma ExpandCore(d: ResourceData, b: Backup)
    requires d.id == b.id && Holds(d.attrs, CoreAttrs(b))
    requires "annotations" !in d.attrs && "labels" !in d.attrs && b.annotations == map[] && b.labels == map[]
    requires b.backupConfig.Some? ==> b.backupConfig.value.intervalHours >= 0 && b.backupConfig.value.retention >= 0
    ensures d.Get("cluster_id").Str? && ExpandEtcdBackup(d) == Some(b)
  {
    var vals := CoreAttrs(b);
    d.HeldGet(vals, "cluster_id");
    assert vals["backup_config"] == List(FlattenBackupConfig(b.backupConfig));
    if b.backupConfig.Some? {
      BackupRoundTrip(b.backupConfig.value);
    }
    StrRead(d.attrs, vals, "filename", b.filename);
    BoolRead(d.attrs, vals, "manual", b.manual);
    StrRead(d.attrs, vals, "name", b.name);
    StrRead(d.attrs, vals, "namespace_id", b.namespaceId);
  }

  /** TestExpandEtcdBackup: expanding the fixture's map gives the fixture. */
  lemma ExpandFixture(d: ResourceData)
    requires d.id == "" && d.attrs == FixtureAttrs()
    ensures d.Get("cluster_id").Str? && ExpandEtcdBackup(d) == Some(FixtureBackup)
  {
    assert FixtureAttrs() == CoreAttrs(FixtureBackup);
    ExpandCore(d, FixtureBackup);
  }
}
