/** Whole reconciles and runs of them: what is persisted, and what survives. */
module Rounds {
  import opened Types
  import opened Insertion
  import opened Planning
  import opened Execution

  /** What outlives a reconcile: the persisted status and the cluster objects. */
  datatype World = World(status: Status, cluster: Cluster)

  /** The inputs of one reconcile: the stages, the API server, the made resource lines, the outcomes
      of the applies and of what follows them, the order in which the restart map is walked and the
      number of commands applied. */
  datatype Turn = Turn(
    st: Stages,
    server: Server,
    lines: seq<Resource>,
    outs: Outcomes,
    again: Again,
    order: seq<Category>,
    applied: nat)

  /** The next fingerprint is not part of the persisted status. */
  function Persist(status: Status): Status {
    map n | n in status :: status[n].(nextUid := NoUid)
  }

  ghost function PlanOf(t: Turn, w: World): seq<Command>
    requires var p := PlanAll(t.st, t.lines, w.status); !p.refused && RestartOrder(p.log, t.order)
  {
    FinalPlan(PlanAll(t.st, t.lines, w.status).log, t.order)
  }

  ghost predicate Legal(t: Turn, w: World) {
    var p := PlanAll(t.st, t.lines, w.status);
    !p.refused ==> RestartOrder(p.log, t.order) && Stops(t.outs, t.again, |PlanOf(t, w)|, t.applied)
  }

  /** One reconcile.  A refused planning persists the planned status and applies nothing; an empty
      plan persists nothing; otherwise the executed status is persisted. */
  ghost function Reconcile(t: Turn, w: World): World
    requires Legal(t, w)
  {
    var p := PlanAll(t.st, t.lines, w.status);
    if p.refused then World(Persist(p.status), w.cluster)
    else if PlanOf(t, w) == [] then w
    else World(Persist(ExecStatus(PlanOf(t, w), t.outs, p.status, t.applied)),
               ExecCluster(t.server, PlanOf(t, w), t.outs, w.cluster, t.applied))
  }

  lemma ReconcileCluster(t: Turn, w: World)
    requires Legal(t, w) && !PlanAll(t.st, t.lines, w.status).refused
    ensures Reconcile(t, w).cluster == ExecCluster(t.server, PlanOf(t, w), t.outs, w.cluster, t.applied)
  {
  }

  /** What is persisted never holds a next fingerprint, unless nothing is persisted. */
  lemma PersistedHasNoNext(t: Turn, w: World, n: Name)
    requires Legal(t, w) && n in Reconcile(t, w).status && Reconcile(t, w).status != w.status
    ensures Reconcile(t, w).status[n].nextUid == NoUid
  {
  }

  /** A refused planning applies nothing and persists what it planned. */
  lemma RefusedRound(t: Turn, w: World, n: Name)
    requires Legal(t, w) && PlanAll(t.st, t.lines, w.status).refused
    ensures var p, after := PlanAll(t.st, t.lines, w.status), Reconcile(t, w);
      && after.cluster == w.cluster && (n in after.status <==> n in p.status)
      && (n in after.status ==>
            after.status[n].uid == p.status[n].uid && after.status[n].actions == p.status[n].actions)
  {
  }

  /** When no resource is changed, visited or pending, a reconcile leaves everything as it was. */
  lemma {:induction false} SilentRound(t: Turn, w: World)
    requires Legal(t, w) && FreshFingers(t.st)
    requires forall i :: 0 <= i < |t.lines| ==> Silent(t.st, t.lines[i], w.status)
    ensures Reconcile(t, w) == w
  {
    SilentPlanning(t.st, t.lines, w.status);
  }

  ghost predicate Silent(st: Stages, line: Resource, status: Status) {
    var r := MergeStage(st, line);
    && !Changed(st, r) && st.visitation(r) == []
    && (line.desired.None? || line.meta.name !in status || NoRestartWaits(status[line.meta.name]))
  }

  lemma {:induction false} SilentPlanning(st: Stages, lines: seq<Resource>, status: Status)
    requires FreshFingers(st) && forall i :: 0 <= i < |lines| ==> Silent(st, lines[i], status)
    ensures PlanAll(st, lines, status) == Planned([], status, false)
  {
    if lines != [] {
      var n := |lines| - 1;
      forall i | 0 <= i < n ensures Silent(st, lines[..n][i], status) {
        assert lines[..n][i] == lines[i];
      }
      SilentPlanning(st, lines[..n], status);
      SilentResource(st, lines[n], PlanAll(st, lines[..n], status));
    }
  }

  // ----- restarts are never lost -----

  /** This reconcile applied a restart of resource n without error. */
  ghost predicate RestartApplied(t: Turn, w: World, n: Name)
    requires Legal(t, w)
  {
    !PlanAll(t.st, t.lines, w.status).refused &&
    exists i :: 0 <= i < t.applied && Runs(PlanOf(t, w)[i], n, Restart) && At(t.outs, i).None?
  }

  lemma RoundKeepsPending(t: Turn, w: World, n: Name)
    requires Legal(t, w) && n in w.status && RestartPending(w.status[n]) && !RestartApplied(t, w, n)
    ensures n in Reconcile(t, w).status && RestartPending(Reconcile(t, w).status[n])
  {
    var p := PlanAll(t.st, t.lines, w.status);
    PlanningKeepsPending(t.st, t.lines, w.status, n);
    if !p.refused {
      ExecEntry(PlanOf(t, w), t.outs, p.status, t.applied, n, Restart);
      ExecKeepsNames(PlanOf(t, w), t.outs, p.status, t.applied, n);
    }
  }

  /** A run: ws[i + 1] is what reconcile ts[i] makes of ws[i]. */
  ghost predicate IsRun(ts: seq<Turn>, ws: seq<World>) {
    |ws| == |ts| + 1 && forall i :: 0 <= i < |ts| ==> Legal(ts[i], ws[i]) && ws[i + 1] == Reconcile(ts[i], ws[i])
  }

  /** Over every run, whatever the handlers, the spec, the cluster and the failures: a recorded
      restart stays recorded until some reconcile applies a restart of that resource without error. */
  lemma {:induction false} RestartSurvives(ts: seq<Turn>, ws: seq<World>, n: Name, k: nat)
    requires IsRun(ts, ws) && k < |ws| && n in ws[0].status && RestartPending(ws[0].status[n])
    requires forall i :: 0 <= i < k ==> !RestartApplied(ts[i], ws[i], n)
    ensures n in ws[k].status && RestartPending(ws[k].status[n])
  {
    if k > 0 {
      RestartSurvives(ts, ws, n, k - 1);
      RoundKeepsPending(ts[k - 1], ws[k - 1], n);
    }
  }

  // ----- the state machine of one reconcile -----

  /** With base handlers, every command collected in a completed planning ends as its last
      application did, and keeps waiting when it was not applied. */
  lemma {:induction false} CollectedEnds(t: Turn, w: World, c: Command)
    requires Legal(t, w) && BaseHandlers(t.st) && !PlanAll(t.st, t.lines, w.status).refused
    requires c in PlanAll(t.st, t.lines, w.status).log
    ensures var n, after := OwnerName(c), Reconcile(t, w).status;
      var i := LastRun(PlanOf(t, w), t.applied, n, c.action);
      && n in after && c.action in after[n].actions
      && after[n].actions[c.action].state ==
           if i < 0 then Waiting(c.action) else if At(t.outs, i).Some? then Failed else Success
  {
    var p := PlanAll(t.st, t.lines, w.status);
    PlanNonEmpty(p.log, t.order, c);
    CollectedWaits(t.st, t.lines, w.status, c);
    ExecEntry(PlanOf(t, w), t.outs, p.status, t.applied, OwnerName(c), c.action);
    ExecKeepsNames(PlanOf(t, w), t.outs, p.status, t.applied, OwnerName(c));
  }

  /** No reconcile leaves an action in progress. */
  lemma NothingLeftInProgress(t: Turn, w: World)
    requires Legal(t, w) && FreshFingers(t.st) && NoneInProgress(w.status)
    ensures NoneInProgress(Reconcile(t, w).status)
  {
    var p := PlanAll(t.st, t.lines, w.status);
    PlanningStartsNothing(t.st, t.lines, w.status);
    if !p.refused {
      var after := ExecStatus(PlanOf(t, w), t.outs, p.status, t.applied);
      forall n, a | n in after && a in after[n].actions && after[n].actions[a].state == InProgress ensures false {
        NoneLeftInProgress(PlanOf(t, w), t.outs, p.status, t.applied, n, a);
      }
    }
  }

  /** The recorded fingerprint of a changed resource becomes the desired one exactly when one of its
      commands succeeded; otherwise the observed one is recorded. */
  lemma {:induction false} UidMoves(t: Turn, w: World, i: nat)
    requires Legal(t, w) && i < |t.lines| && DistinctNames(t.lines) && FreshFingers(t.st)
    requires !PlanAll(t.st, t.lines, w.status).refused && PlanOf(t, w) != []
    requires Changed(t.st, MergeStage(t.st, t.lines[i]))
    ensures var r := MergeStage(t.st, t.lines[i]); var after := Reconcile(t, w).status;
      && r.meta.name in after
      && after[r.meta.name].uid ==
           if Succeeded(PlanOf(t, w), t.outs, t.applied, r.meta.name) then t.st.finger(r.meta, r.desired).uid
           else t.st.finger(r.meta, r.observed).uid
  {
    var r := MergeStage(t.st, t.lines[i]);
    var p := PlanAll(t.st, t.lines, w.status);
    ChangedIsRecorded(t.st, t.lines, w.status, i);
    ExecUid(PlanOf(t, w), t.outs, p.status, t.applied, r.meta.name);
    ExecKeepsNames(PlanOf(t, w), t.outs, p.status, t.applied, r.meta.name);
  }
}
