/**
 * The transition decision: which Velero calls an admission of each operation
 * issues, given the old and new namespace (namespace-webhook/main.go:118-145),
 * and which calls each orchestration helper makes (main.go:171-277).
 */
module Decision {
  import opened Labels
  import opened Timestamp
  import opened Velero

  /** The admission operation; Connect stands for every value other than the three handled. */
  datatype Operation = Create | Update | Delete | Connect

  datatype Intent = Activate | Deactivate | NoOp

  /** The branches of the second operation switch, as written. */
  function Decide(op: Operation, oldLabels: LabelMap, newLabels: LabelMap): (intent: Intent)
    ensures intent == Activate ==> op in {Create, Update} && IsTarget(newLabels)
    ensures intent == Deactivate ==> op in {Update, Delete} && IsTarget(oldLabels)
    ensures op == Update && IsTarget(oldLabels) && IsTarget(newLabels) ==> intent == NoOp
  {
    match op
    case Create => if IsTarget(newLabels) then Activate else NoOp
    case Update =>
      if IsTarget(newLabels) && OldSideUnset(oldLabels) then Activate
      else if !IsTarget(newLabels) && IsTarget(oldLabels) then Deactivate
      else NoOp
    case Delete => if IsTarget(oldLabels) then Deactivate else NoOp
    case Connect => NoOp
  }

  /**
   * An independent reference: the webhook as a pure edge detector over the
   * target predicate (false to true activates, true to false deactivates).
   */
  function EdgeIntent(op: Operation, wasTarget: bool, isTarget: bool): Intent {
    match op
    case Create => if isTarget then Activate else NoOp
    case Update =>
      if !wasTarget && isTarget then Activate
      else if wasTarget && !isTarget then Deactivate
      else NoOp
    case Delete => if wasTarget then Deactivate else NoOp
    case Connect => NoOp
  }

  /** The calls of createVeleroSchedule: an existence check, then the create. */
  function ScheduleCalls(cfg: Config, ns: string): seq<Action> {
    [GetObject(ScheduleResource, cfg.veleroNamespace, ScheduleName(ns)),
     CreateObject(ScheduleResource, cfg.veleroNamespace, ScheduleManifest(cfg, ns))]
  }

  /** The call of createVeleroBackup. */
  function BackupCalls(cfg: Config, ns: string, now: DateTime): seq<Action> {
    [CreateObject(BackupResource, cfg.veleroNamespace, BackupManifest(cfg, ns, now))]
  }

  /** The call of deleteVeleroSchedule. */
  function DeleteCalls(cfg: Config, ns: string): seq<Action> {
    [DeleteObject(ScheduleResource, cfg.veleroNamespace, ScheduleName(ns))]
  }

  function Calls(cfg: Config, intent: Intent, ns: string, now: DateTime): (calls: seq<Action>)
    ensures calls == [] <==> intent == NoOp
    ensures forall i :: 0 <= i < |calls| ==> calls[i].namespace == cfg.veleroNamespace
  {
    match intent
    case Activate => ScheduleCalls(cfg, ns) + BackupCalls(cfg, ns, now)
    case Deactivate => DeleteCalls(cfg, ns)
    case NoOp => []
  }

  /**
   * The calls issued once the decision stage is reached. Update acts on the new
   * namespace's name, Delete on the old one's.
   */
  function Plan(cfg: Config, op: Operation, oldNamespace: Namespace, namespace: Namespace, now: DateTime): seq<Action> {
    Calls(cfg, Decide(op, oldNamespace.labels, namespace.labels), if op == Delete then oldNamespace.name else namespace.name, now)
  }

  /** The three calls of an activation, written out. */
  function ActivationTrace(cfg: Config, ns: string, now: DateTime): seq<Action> {
    [GetObject(ScheduleResource, cfg.veleroNamespace, ScheduleName(ns)),
     CreateObject(ScheduleResource, cfg.veleroNamespace, ScheduleManifest(cfg, ns)),
     CreateObject(BackupResource, cfg.veleroNamespace, BackupManifest(cfg, ns, now))]
  }

  predicate Creates(trace: seq<Action>) { exists i :: 0 <= i < |trace| && trace[i].CreateObject? }

  predicate Deletes(trace: seq<Action>) { exists i :: 0 <= i < |trace| && trace[i].DeleteObject? }

  /**
   * Decide agrees with the edge detector everywhere except on one kind of
   * Update: new labels a target, old labels not a target yet with both labels
   * set (a runtime such as "other"). There the webhook issues nothing.
   */
  lemma DecideVersusEdges(op: Operation, oldLabels: LabelMap, newLabels: LabelMap)
    ensures var gap := op == Update && IsTarget(newLabels) && !IsTarget(oldLabels) && !OldSideUnset(oldLabels);
      && (Decide(op, oldLabels, newLabels) == EdgeIntent(op, IsTarget(oldLabels), IsTarget(newLabels)) <==> !gap)
      && (gap ==> Decide(op, oldLabels, newLabels) == NoOp && EdgeIntent(op, IsTarget(oldLabels), IsTarget(newLabels)) == Activate)
  {
  }

  /** Create: the three activation calls for the new name when it is a target, nothing otherwise; never a delete. */
  lemma CreatePlan(cfg: Config, oldNamespace: Namespace, namespace: Namespace, now: DateTime)
    ensures var p := Plan(cfg, Create, oldNamespace, namespace, now);
      && (IsTarget(namespace.labels) ==> p == ActivationTrace(cfg, namespace.name, now))
      && (!IsTarget(namespace.labels) ==> p == [])
      && !Deletes(p)
  {
  }

  /**
   * Update: activation fires exactly when the new labels are a target and the
   * old side has a label absent or empty; deactivation (one delete of the new
   * name's schedule) exactly when the new labels are not a target and the old are.
   */
  lemma UpdatePlan(cfg: Config, oldNamespace: Namespace, namespace: Namespace, now: DateTime)
    ensures var p := Plan(cfg, Update, oldNamespace, namespace, now);
      && (p == ActivationTrace(cfg, namespace.name, now) <==> IsTarget(namespace.labels) && OldSideUnset(oldNamespace.labels))
      && (p == DeleteCalls(cfg, namespace.name) <==> !IsTarget(namespace.labels) && IsTarget(oldNamespace.labels))
      && (p == [] <==> !(IsTarget(namespace.labels) && OldSideUnset(oldNamespace.labels))
                       && !(!IsTarget(namespace.labels) && IsTarget(oldNamespace.labels)))
  {
  }

  /** Update: target to target, and a non-empty target label with a non-empty runtime other than "target" to target, issue nothing. */
  lemma UpdateNoReassert(cfg: Config, oldNamespace: Namespace, namespace: Namespace, now: DateTime)
    requires IsTarget(namespace.labels)
    requires IsTarget(oldNamespace.labels)
             || (TargetLabel in oldNamespace.labels && oldNamespace.labels[TargetLabel] != ""
                 && RuntimeLabel in oldNamespace.labels && oldNamespace.labels[RuntimeLabel] != ""
                 && oldNamespace.labels[RuntimeLabel] != TargetRuntime)
    ensures Plan(cfg, Update, oldNamespace, namespace, now) == []
  {
  }

  /** Delete: one delete of the old name's schedule when it was a target, nothing otherwise; never a create. */
  lemma DeletePlan(cfg: Config, oldNamespace: Namespace, namespace: Namespace, now: DateTime)
    ensures var p := Plan(cfg, Delete, oldNamespace, namespace, now);
      && (IsTarget(oldNamespace.labels) ==> p == [DeleteObject(ScheduleResource, cfg.veleroNamespace, ScheduleName(oldNamespace.name))])
      && (!IsTarget(oldNamespace.labels) ==> p == [])
      && !Creates(p)
  {
  }

  /** Any other operation issues nothing. */
  lemma ConnectPlan(cfg: Config, oldNamespace: Namespace, namespace: Namespace, now: DateTime)
    ensures Plan(cfg, Connect, oldNamespace, namespace, now) == []
  {
  }

  /**
   * Every plan is empty, a single schedule delete, or a get-create-create
   * activation; creates and deletes never mix, and every call goes to the
   * Velero namespace.
   */
  lemma {:induction false} PlanShape(cfg: Config, op: Operation, oldNamespace: Namespace, namespace: Namespace, now: DateTime)
    ensures var p := Plan(cfg, op, oldNamespace, namespace, now);
      && (|p| == 0 || |p| == 1 || |p| == 3)
      && !(Creates(p) && Deletes(p))
      && (forall i :: 0 <= i < |p| ==> p[i].namespace == cfg.veleroNamespace)
      && (|p| == 1 ==> p[0].DeleteObject? && p[0].resource == ScheduleResource)
  {
    var p := Plan(cfg, op, oldNamespace, namespace, now);
    match Decide(op, oldNamespace.labels, namespace.labels)
    case Activate =>
      assert p == ActivationTrace(cfg, if op == Delete then oldNamespace.name else namespace.name, now);
      assert !Deletes(p);
    case Deactivate =>
      assert !Creates(p);
    case NoOp =>
  }

  /**
   * Replaying an activation for the same namespace targets the same schedule
   * (same get, same create), while the instant backups of two different
   * seconds get different names.
   */
  lemma ActivationReplay(cfg: Config, ns: string, t1: DateTime, t2: DateTime)
    requires Valid(t1) && Valid(t2) && t1 != t2
    ensures var p1, p2 := Calls(cfg, Activate, ns, t1), Calls(cfg, Activate, ns, t2);
      && p1[..2] == p2[..2]
      && p1[2].manifest.metadata.name != p2[2].manifest.metadata.name
  {
    if BackupName(ns, t1) == BackupName(ns, t2) {
      BackupNameInjective(ns, t1, ns, t2);
    }
  }
}
