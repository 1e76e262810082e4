/**
 * The Velero side: the process configuration, the resource kinds the webhook
 * writes, the naming function and the two object templates
 * (namespace-webhook/main.go:23-34, 171-277).
 */
module Velero {
  import opened Wrappers
  import opened Timestamp

  /** The process configuration, fixed at start-up. */
  datatype Config = Config(
    veleroNamespace: string,
    cronExpression: string,
    csiSnapshotTimeout: string,
    storageLocation: string,
    backupTTL: string,
    defaultVolumesToFsBackup: bool,
    backupSuffix: string,
    logFormat: string,
    logLevel: string)

  /**
   * The configuration when no environment variable is set. The log level is
   * empty: its initial "info" is replaced by the empty fallback at start-up.
   */
  const Defaults: Config :=
    Config("velero", "@every 1h", "10m", "default", "720h0m0s", true, "backup", "text", "")

  datatype GroupVersionResource = GroupVersionResource(group: string, version: string, resource: string)

  const ScheduleResource: GroupVersionResource := GroupVersionResource("velero.io", "v1", "schedules")
  const BackupResource: GroupVersionResource := GroupVersionResource("velero.io", "v1", "backups")

  const VeleroApiVersion: string := "velero.io/v1"

  datatype ObjectMeta = ObjectMeta(name: string, namespace: string)

  /** The fields shared by a schedule's backup template and an instant backup's spec. */
  datatype BackupTemplate = BackupTemplate(
    csiSnapshotTimeout: string,
    includedNamespaces: seq<string>,
    storageLocation: string,
    ttl: string,
    defaultVolumesToFsBackup: bool)

  datatype Spec =
    | ScheduleSpec(schedule: string, useOwnerReferencesInBackup: bool, template: BackupTemplate)
    | BackupSpec(template: BackupTemplate)

  /** A typed view of the unstructured object sent to the cluster. */
  datatype Manifest = Manifest(apiVersion: string, kind: string, metadata: ObjectMeta, spec: Spec)

  /** One call made through the dynamic client. */
  datatype Action =
    | GetObject(resource: GroupVersionResource, namespace: string, name: string)
    | CreateObject(resource: GroupVersionResource, namespace: string, manifest: Manifest)
    | DeleteObject(resource: GroupVersionResource, namespace: string, name: string)

  /** `<namespace>-backup`; the configured suffix plays no part. */
  function ScheduleName(ns: string): (name: string)
    ensures |name| == |ns| + 7 && name[..|ns|] == ns
  {
    ns + "-backup"
  }

  /** `<namespace>-backup-<timestamp>`. */
  function BackupName(ns: string, now: DateTime): (name: string)
    ensures |name| >= |ns| + 22 && name[..|ns| + 7] == ScheduleName(ns) && name[|ns| + 7] == '-'
  {
    ScheduleName(ns) + "-" + Format(now)
  }

  function Template(cfg: Config, ns: string): BackupTemplate {
    BackupTemplate(cfg.csiSnapshotTimeout, [ns], cfg.storageLocation, cfg.backupTTL, cfg.defaultVolumesToFsBackup)
  }

  function ScheduleManifest(cfg: Config, ns: string): Manifest {
    Manifest(VeleroApiVersion, "Schedule", ObjectMeta(ScheduleName(ns), cfg.veleroNamespace),
             ScheduleSpec(cfg.cronExpression, false, Template(cfg, ns)))
  }

  function BackupManifest(cfg: Config, ns: string, now: DateTime): Manifest {
    Manifest(VeleroApiVersion, "Backup", ObjectMeta(BackupName(ns, now), cfg.veleroNamespace),
             BackupSpec(Template(cfg, ns)))
  }

  /** Different namespaces never share a schedule. */
  lemma ScheduleNameInjective(ns1: string, ns2: string)
    requires ScheduleName(ns1) == ScheduleName(ns2)
    ensures ns1 == ns2
  {
    assert ns1 == ScheduleName(ns1)[..|ns1|];
  }

  /**
   * A backup name is the schedule name, a dash and fourteen digits, and it
   * determines both the namespace and the time it was taken at.
   */
  lemma BackupNameShape(ns: string, now: DateTime)
    requires Valid(now)
    ensures var b := BackupName(ns, now);
      |b| == |ns| + 22 && b[..|ns| + 7] == ScheduleName(ns) && b[|ns| + 7] == '-'
      && AllDigits(b[|ns| + 8..]) && Parse(b[|ns| + 8..]) == Some(now)
  {
    FormatShape(now);
    ParseFormat(now);
    var b := BackupName(ns, now);
    assert b[|ns| + 8..] == Format(now);
  }

  /** Two instant backups share a name only for the same namespace at the same second. */
  lemma BackupNameInjective(ns1: string, t1: DateTime, ns2: string, t2: DateTime)
    requires Valid(t1) && Valid(t2)
    requires BackupName(ns1, t1) == BackupName(ns2, t2)
    ensures ns1 == ns2 && t1 == t2
  {
    var b := BackupName(ns1, t1);
    BackupNameShape(ns1, t1);
    BackupNameShape(ns2, t2);
    ScheduleNameInjective(ns1, ns2);
  }

  /**
   * Both objects live in the configured Velero namespace, back up exactly the
   * given namespace with the same settings, and the backup is named after the schedule.
   */
  lemma ManifestsAgree(cfg: Config, ns: string, now: DateTime)
    ensures var s, b := ScheduleManifest(cfg, ns), BackupManifest(cfg, ns, now);
      && s.metadata.name == ScheduleName(ns)
      && s.metadata.namespace == cfg.veleroNamespace && b.metadata.namespace == cfg.veleroNamespace
      && s.spec.template.includedNamespaces == [ns] && b.spec.template.includedNamespaces == [ns]
      && s.spec.template == b.spec.template
      && b.metadata.name[..|s.metadata.name| + 1] == s.metadata.name + "-"
      && s.kind == "Schedule" && b.kind == "Backup"
      && s.spec.schedule == cfg.cronExpression && !s.spec.useOwnerReferencesInBackup
  {
    var s, b := ScheduleManifest(cfg, ns), BackupManifest(cfg, ns, now);
    assert b.metadata.name == (s.metadata.name + "-") + Format(now);
  }

  /** The suffix setting is read but has no effect on any name or object. */
  lemma SuffixUnused(cfg: Config, suffix: string, ns: string, now: DateTime)
    ensures ScheduleManifest(cfg.(backupSuffix := suffix), ns) == ScheduleManifest(cfg, ns)
    ensures BackupManifest(cfg.(backupSuffix := suffix), ns, now) == BackupManifest(cfg, ns, now)
  {
  }
}
