/** The executor of kernel/component_reconcile_worker.go: running a plan against the status map. */
module Execution {
  import opened Types
  import opened Planning

  /** None when applying a command succeeded, otherwise the text of the last error. */
  type Outcome = Option<string>

  /** The built-in objects of one custom resource, by resource name. */
  type Cluster = map<Name, Object>

  /** The outcomes of the commands that are applied, in order; further ones succeed. */
  type Outcomes = seq<Outcome>

  function At(outs: Outcomes, i: nat): Outcome {
    if i < |outs| then outs[i] else None
  }

  /** What exec falls back to when the status map has no entry. */
  const UNKNOWN_STATE := ComponentState(OfNothing, NoUid, map[], Success, map[], "unknown state")

  function OwnerName(c: Command): Name {
    if c.owner.Some? then c.owner.value.name else ""
  }

  function StateOf(status: Status, n: Name): ComponentState {
    if n in status then status[n] else UNKNOWN_STATE
  }

  function ExecOne(status: Status, c: Command, out: Outcome): Status {
    var n := OwnerName(c);
    var started := UpdateActionState(StateOf(status, n), c.action, InProgress, c.message);
    var ended :=
      if out.Some? then UpdateActionState(started, c.action, Failed, out.value)
      else
        var done := UpdateActionState(started, c.action, Success, "");
        if done.nextUid == NoUid then done else done.(uid := done.nextUid);
    status[n := ended]
  }

  /** What the API server does to the leaf fields of an object it stores: it fills in defaults,
      imposes values of its own, and keeps write-only leaves to itself. */
  datatype Keeping = Keeping(defaults: Fields, imposed: Fields, dropped: set<string>)

  function Keep(k: Keeping, f: Fields): Fields {
    (k.defaults + f + k.imposed) - k.dropped
  }

  /** How the API server stores the object of each resource: its fields and its pod template. */
  datatype Admission = Admission(fields: Keeping, template: Keeping)

  type Server = map<Name, Admission>

  function Admit(server: Server, n: Name, o: Object): Object {
    if n in server then
      o.(fields := Keep(server[n].fields, o.fields), template := Keep(server[n].template, o.template))
    else o
  }

  /** What a successful apply stage does to the cluster.  An object is stored under the name of its
      resource, as the API server admits it; restarts, fail-overs and the actions that only carry a
      callback leave the objects alone. */
  function Effect(server: Server, cluster: Cluster, c: Command): Cluster {
    var n := OwnerName(c);
    match c.action
    case Create =>
      if n in cluster || c.target.None? then cluster else cluster[n := Admit(server, n, c.target.value)]
    case Delete => cluster - {n}
    case Update => if c.target.None? then cluster else cluster[n := Admit(server, n, c.target.value)]
    case ReCreate => if c.target.None? then cluster else cluster[n := Admit(server, n, c.target.value)]
    case _ => cluster
  }

  /** The cluster after the first n commands; a command that fails has no effect. */
  function ExecCluster(server: Server, cs: seq<Command>, outs: Outcomes, cluster: Cluster, n: nat): Cluster
    requires n <= |cs|
  {
    if n == 0 then cluster
    else
      var before := ExecCluster(server, cs, outs, cluster, n - 1);
      if At(outs, n - 1).Some? then before else Effect(server, before, cs[n - 1])
  }

  /** The status map after the first n commands. */
  function ExecStatus(cs: seq<Command>, outs: Outcomes, status: Status, n: nat): Status
    requires n <= |cs|
  {
    if n == 0 then status else ExecOne(ExecStatus(cs, outs, status, n - 1), cs[n - 1], At(outs, n - 1))
  }

  /** again[i] says that the callback or the post-apply of command i left the shared result non-empty
      although its apply succeeded. */
  type Again = seq<bool>

  /** The loop ends behind command i. */
  predicate Ends(outs: Outcomes, again: Again, i: nat) {
    At(outs, i).Some? || (i < |again| && again[i])
  }

  /** The run of a plan of total commands applied n of them: it ends behind the first command that
      failed or whose result was made non-empty. */
  ghost predicate Stops(outs: Outcomes, again: Again, total: nat, n: nat) {
    && n <= total
    && (forall i :: 0 <= i < n - 1 ==> !Ends(outs, again, i))
    && (n < total ==> n > 0 && Ends(outs, again, n - 1))
  }

  lemma StopsOnce(outs: Outcomes, again: Again, total: nat, n: nat, m: nat)
    requires Stops(outs, again, total, n) && Stops(outs, again, total, m)
    ensures n == m
  {
  }

  ghost predicate Runs(c: Command, n: Name, a: Action) {
    OwnerName(c) == n && c.action == a
  }

  /** The position of the last applied command of resource n with action a, -1 without one. */
  ghost function LastRun(cs: seq<Command>, applied: nat, n: Name, a: Action): (i: int)
    requires applied <= |cs|
    ensures -1 <= i < applied && (i >= 0 ==> Runs(cs[i], n, a))
    ensures forall j :: i < j < applied ==> !Runs(cs[j], n, a)
  {
    if applied == 0 then -1
    else if Runs(cs[applied - 1], n, a) then applied - 1
    else LastRun(cs, applied - 1, n, a)
  }

  ghost predicate Succeeded(cs: seq<Command>, outs: Outcomes, applied: nat, n: Name)
    requires applied <= |cs|
  {
    exists i :: 0 <= i < applied && OwnerName(cs[i]) == n && At(outs, i).None?
  }

  ghost predicate SameEntry(s: ComponentState, t: ComponentState, a: Action) {
    (a in s.actions <==> a in t.actions) && (a in s.actions ==> s.actions[a] == t.actions[a])
  }

  /** How an applied action is recorded: as failed with the text of the error, or as a success. */
  function Ended(out: Outcome): ActionState {
    if out.Some? then ActionState(Failed, "", out.value) else ActionState(Success, "", "")
  }

  lemma ExecOneEntry(status: Status, c: Command, out: Outcome, n: Name, a: Action)
    ensures var after := StateOf(ExecOne(status, c, out), n);
      if Runs(c, n, a) then a in after.actions && after.actions[a] == Ended(out)
      else SameEntry(after, StateOf(status, n), a)
  {
  }

  /** An applied (resource, action) ends as its last application did; every other entry, missing
      ones included, is as before. */
  lemma {:induction false} ExecEntry(cs: seq<Command>, outs: Outcomes, status: Status, applied: nat, n: Name, a: Action)
    requires applied <= |cs|
    ensures var after, i := StateOf(ExecStatus(cs, outs, status, applied), n), LastRun(cs, applied, n, a);
      if i < 0 then SameEntry(after, StateOf(status, n), a)
      else if At(outs, i).Some? then
        a in after.actions && after.actions[a] == ActionState(Failed, "", At(outs, i).value)
      else a in after.actions && after.actions[a] == ActionState(Success, "", "")
  {
    if applied > 0 {
      var before := ExecStatus(cs, outs, status, applied - 1);
      ExecEntry(cs, outs, status, applied - 1, n, a);
      ExecOneEntry(before, cs[applied - 1], At(outs, applied - 1), n, a);
    }
  }

  /** A command of a resource without an entry is recorded in one that says so. */
  lemma ExecUnknown(status: Status, c: Command, out: Outcome)
    requires OwnerName(c) !in status
    ensures var after := ExecOne(status, c, out)[OwnerName(c)];
      && after.state == Success && after.message == "unknown state" && after.uid == OfNothing && after.nextUid == NoUid
      && after.actions.Keys == {c.action} && after.details == map[]
  {
  }

  /** No entry is left in progress unless it was before and its action was not applied. */
  lemma NoneLeftInProgress(cs: seq<Command>, outs: Outcomes, status: Status, applied: nat, n: Name, a: Action)
    requires applied <= |cs|
    requires var after := ExecStatus(cs, outs, status, applied);
      n in after && a in after[n].actions && after[n].actions[a].state == InProgress
    ensures n in status && a in status[n].actions && status[n].actions[a].state == InProgress
    ensures forall i :: 0 <= i < applied ==> !Runs(cs[i], n, a)
  {
    ExecEntry(cs, outs, status, applied, n, a);
  }

  /** The recorded fingerprint moves to the desired one exactly when a command of the resource
      succeeded; the desired one itself never changes during a run. */
  lemma {:induction false} ExecUid(cs: seq<Command>, outs: Outcomes, status: Status, applied: nat, n: Name)
    requires applied <= |cs|
    ensures var before, after := StateOf(status, n), StateOf(ExecStatus(cs, outs, status, applied), n);
      && after.nextUid == before.nextUid
      && after.uid == if Succeeded(cs, outs, applied, n) && before.nextUid != NoUid then before.nextUid else before.uid
  {
    if applied > 0 {
      ExecUid(cs, outs, status, applied - 1, n);
      var last := OwnerName(cs[applied - 1]) == n && At(outs, applied - 1).None?;
      assert Succeeded(cs, outs, applied, n) <==> Succeeded(cs, outs, applied - 1, n) || last;
      ExecOneUid(ExecStatus(cs, outs, status, applied - 1), cs[applied - 1], At(outs, applied - 1), n);
    }
  }

  lemma ExecOneUid(status: Status, c: Command, out: Outcome, n: Name)
    ensures var before, after := StateOf(status, n), StateOf(ExecOne(status, c, out), n);
      && after.nextUid == before.nextUid
      && after.uid == if OwnerName(c) == n && out.None? && before.nextUid != NoUid then before.nextUid else before.uid
  {
  }

  lemma {:induction false} ExecKeepsNames(cs: seq<Command>, outs: Outcomes, status: Status, applied: nat, n: Name)
    requires applied <= |cs| && n in status
    ensures n in ExecStatus(cs, outs, status, applied)
  {
    if applied > 0 {
      ExecKeepsNames(cs, outs, status, applied - 1, n);
    }
  }
}
