/** The planner of kernel/component_reconcile_worker.go as a function of its inputs: which commands
    one reconcile collects, and what plan they become. */
module Planning {
  import opened Types
  import opened Insertion

  const REFERENCE_LABEL := "app.kubernetes.io/reference"
  const CATEGORY_LABEL := "app.kubernetes.io/category"
  const INSTANCE_LABEL := "app.kubernetes.io/instance"

  /** The pluggable stages of the pipeline.  lookup gives the two readings MergeStage takes of a
      resource; preApply also says whether its result is non-empty. */
  datatype Stages = Stages(
    lookup: Meta -> (Option<Object>, Option<Object>),
    merge: (Object, Object) -> Object,
    finger: (Meta, Option<Object>) -> ComponentState,
    preApply: Resource -> (seq<Command>, bool),
    visitation: Resource -> seq<Command>)

  // ----- component states -----

  function UpdateActionState(s: ComponentState, a: Action, state: State, message: string): ComponentState {
    s.(actions := s.actions[a := ActionState(state, "", message)])
  }

  function RecordActionState(s: ComponentState, a: Action, state: State, cause: string): ComponentState {
    s.(actions := s.actions[a := ActionState(state, cause, "")])
  }

  predicate IsActionOk(s: ComponentState) {
    forall a :: a in s.actions ==> s.actions[a].state == Success
  }

  /** A restart was recorded and has not succeeded. */
  predicate RestartPending(s: ComponentState) {
    Restart in s.actions && s.actions[Restart].state != Success && s.actions[Restart].state != Unset
  }

  // ----- merge and fingerprint -----

  function MergeStage(st: Stages, r: Resource): Resource {
    var (observed, target) := st.lookup(r.meta);
    Resource(r.meta, observed,
      if target.Some? && r.desired.Some? then Some(st.merge(target.value, r.desired.value)) else r.desired)
  }

  predicate Changed(st: Stages, r: Resource) {
    || r.observed.None? != r.desired.None?
    || st.finger(r.meta, r.observed).uid != st.finger(r.meta, r.desired).uid
  }

  /** The state StateFingerStage returns: the observed fingerprint with the recorded actions. */
  function StateFinger(st: Stages, r: Resource, status: Status): ComponentState {
    var desired := st.finger(r.meta, r.desired);
    var current := st.finger(r.meta, r.observed);
    var known :=
      if r.meta.name in status then
        var past := status[r.meta.name];
        current.(details := past.details + desired.details, actions := past.actions, state := past.state)
      else current;
    if Changed(st, r) then known.(nextUid := desired.uid) else known
  }

  // ----- the commands of one resource -----

  function LabelOf(labels: Labels, key: string): string {
    if key in labels then labels[key] else ""
  }

  function RestartCategory(desired: Object): Category {
    var category := LabelOf(desired.labels, REFERENCE_LABEL);
    if category == "" then LabelOf(desired.labels, CATEGORY_LABEL) else category
  }

  function GetRestartCommand(desired: Object, category: Category, replicas: int, message: string): Command {
    Command(Restart, category, None, message, None,
      Pods(LabelOf(desired.labels, INSTANCE_LABEL) + "-" + category, replicas))
  }

  /** An unchanged resource is visited; a restart still waiting for it is planned again. */
  function Visit(st: Stages, r: Resource, state: ComponentState): seq<Command> {
    st.visitation(r) +
    if !IsActionOk(state) && r.desired.Some? && RestartPending(state) then
      [GetRestartCommand(r.desired.value, RestartCategory(r.desired.value), 0, state.message)]
    else []
  }

  /** The commands of one merged resource, and whether its pre-apply refused. */
  function Collect(st: Stages, r: Resource, state: ComponentState): (seq<Command>, bool) {
    if Changed(st, r) then st.preApply(r) else (Visit(st, r, state), false)
  }

  function Adopt(c: Command, meta: Meta): Command {
    c.(owner := if c.owner.None? then Some(meta) else c.owner,
       category := if c.category == "" then meta.category else c.category)
  }

  function AdoptAll(cs: seq<Command>, meta: Meta): (r: seq<Command>)
    ensures |r| == |cs| && forall i :: 0 <= i < |cs| ==> r[i] == Adopt(cs[i], meta)
  {
    seq(|cs|, i requires 0 <= i < |cs| => Adopt(cs[i], meta))
  }

  function Note(s: ComponentState, c: Command): ComponentState {
    var noted := RecordActionState(s, c.action, Preparing, c.message);
    if c.action == Restart then RecordActionState(noted, Restart, WaitRestart, c.message) else noted
  }

  function NoteAll(s: ComponentState, cs: seq<Command>): ComponentState {
    if cs == [] then s else Note(NoteAll(s, cs[..|cs| - 1]), cs[|cs| - 1])
  }

  // ----- all resources -----

  /** log holds every collected command in order; refused says that a pre-apply stopped planning. */
  datatype Planned = Planned(log: seq<Command>, status: Status, refused: bool)

  /** What one resource adds once its commands are collected. */
  function Settle(p: Planned, r: Resource, changed: bool, state: ComponentState, acts: seq<Command>, refused: bool)
    : Planned
  {
    var seen := if changed then p.status[r.meta.name := state] else p.status;
    if refused then Planned(p.log, seen, true)
    else if acts == [] then Planned(p.log, seen, false)
    else
      var cs := AdoptAll(acts, r.meta);
      Planned(p.log + cs, p.status[r.meta.name := NoteAll(state, cs)], false)
  }

  function PlanMerged(st: Stages, r: Resource, p: Planned): Planned {
    var state := StateFinger(st, r, p.status);
    var (acts, refused) := Collect(st, r, state);
    Settle(p, r, Changed(st, r), state, acts, refused)
  }

  function PlanOne(st: Stages, line: Resource, p: Planned): Planned {
    PlanMerged(st, MergeStage(st, line), p)
  }

  function PlanAll(st: Stages, lines: seq<Resource>, status: Status): Planned {
    if lines == [] then Planned([], status, false)
    else
      var p := PlanAll(st, lines[..|lines| - 1], status);
      if p.refused then p else PlanOne(st, lines[|lines| - 1], p)
  }

  /** Once a pre-apply refused, the rest of the list is not looked at. */
  lemma {:induction false} RefusedStays(st: Stages, lines: seq<Resource>, status: Status, i: nat)
    requires i <= |lines| && PlanAll(st, lines[..i], status).refused
    ensures PlanAll(st, lines, status) == PlanAll(st, lines[..i], status)
    decreases |lines|
  {
    if i < |lines| {
      assert lines[..|lines| - 1][..i] == lines[..i];
      RefusedStays(st, lines[..|lines| - 1], status, i);
    } else {
      assert lines[..i] == lines;
    }
  }

  /** Planning is refused iff the pre-apply of some changed resource gives a non-empty result. */
  lemma {:induction false} RefusedIff(st: Stages, lines: seq<Resource>, status: Status)
    ensures PlanAll(st, lines, status).refused <==>
      exists i :: 0 <= i < |lines| && Changed(st, MergeStage(st, lines[i])) && st.preApply(MergeStage(st, lines[i])).1
  {
    if lines != [] {
      var n := |lines| - 1;
      RefusedIff(st, lines[..n], status);
      if i :| 0 <= i < n && Changed(st, MergeStage(st, lines[i])) && st.preApply(MergeStage(st, lines[i])).1 {
        assert lines[..n][i] == lines[i];
      }
    }
  }

  // ----- from the collected commands to the plan -----

  function NonRestarts(log: seq<Command>): seq<Command> {
    if log == [] then []
    else
      var rest := NonRestarts(log[..|log| - 1]);
      if log[|log| - 1].action == Restart then rest else rest + [log[|log| - 1]]
  }

  /** The last restart collected for each category. */
  function Restarts(log: seq<Command>): map<Category, Command> {
    if log == [] then map[]
    else
      var c := log[|log| - 1];
      var rest := Restarts(log[..|log| - 1]);
      if c.action == Restart then rest[c.category := c] else rest
  }

  /** The categories in which something is created or deleted. */
  function Skips(log: seq<Command>): set<Category> {
    set c | c in log && (c.action == Create || c.action == Delete) :: c.category
  }

  /** Any order in which the restart map may be walked, skipped categories left out. */
  ghost predicate RestartOrder(log: seq<Command>, order: seq<Category>) {
    && (forall i, j :: 0 <= i < j < |order| ==> order[i] != order[j])
    && (forall k :: k in order <==> k in Restarts(log) && k !in Skips(log))
  }

  function RestartsIn(log: seq<Command>, order: seq<Category>): (r: seq<Command>)
    requires forall k :: k in order ==> k in Restarts(log)
    ensures |r| == |order| && forall i :: 0 <= i < |order| ==> r[i] == Restarts(log)[order[i]]
  {
    seq(|order|, i requires 0 <= i < |order| => Restarts(log)[order[i]])
  }

  ghost function FinalPlan(log: seq<Command>, order: seq<Category>): seq<Command>
    requires RestartOrder(log, order)
  {
    InsertAll(NonRestarts(log)) + RestartsIn(log, order)
  }

  // ----- the shape of every plan -----

  /** One more collected command, seen by every function of the log. */
  lemma LogStep(log: seq<Command>, c: Command)
    ensures Restarts(log + [c]) == if c.action == Restart then Restarts(log)[c.category := c] else Restarts(log)
    ensures Skips(log + [c]) == Skips(log) + if c.action == Create || c.action == Delete then {c.category} else {}
    ensures InsertAll(NonRestarts(log + [c])) ==
      if c.action == Restart then InsertAll(NonRestarts(log)) else Insert(InsertAll(NonRestarts(log)), c)
  {
    assert (log + [c])[..|log|] == log;
    var body := NonRestarts(log);
    assert (body + [c])[..|body|] == body;
  }

  ghost predicate CollectedRestart(log: seq<Command>, k: Category) {
    exists c :: c in log && c.action == Restart && c.category == k
  }

  lemma {:induction false} NonRestartsIn(log: seq<Command>, c: Command)
    ensures c in NonRestarts(log) <==> c in log && c.action != Restart
  {
    if log != [] {
      NonRestartsIn(log[..|log| - 1], c);
      assert log == log[..|log| - 1] + [log[|log| - 1]];
    }
  }

  ghost predicate LastRestart(log: seq<Command>, k: Category, i: nat) {
    && i < |log| && log[i].action == Restart && log[i].category == k
    && forall j :: i < j < |log| && log[j].action == Restart ==> log[j].category != k
  }

  /** The restart kept for a category is the last one collected for it. */
  lemma {:induction false} RestartsAreLast(log: seq<Command>, k: Category) returns (i: nat)
    ensures k in Restarts(log) <==> CollectedRestart(log, k)
    ensures k in Restarts(log) ==> LastRestart(log, k, i) && log[i] == Restarts(log)[k]
  {
    i := 0;
    if log != [] {
      var n := |log| - 1;
      i := RestartsAreLast(log[..n], k);
      assert log == log[..n] + [log[n]];
      if log[n].action == Restart && log[n].category == k {
        i := n;
      }
    }
  }

  /** Whatever the order of the restart map: restarts come last and differ in category; category k
      is restarted iff a restart of k was collected and nothing of k is created or deleted anywhere
      in the round; and no other command is lost or invented. */
  lemma PlanShape(log: seq<Command>, order: seq<Category>)
    requires RestartOrder(log, order)
    ensures var plan := FinalPlan(log, order);
      && (forall i, j :: 0 <= i < j < |plan| && plan[i].action == Restart ==>
            plan[j].action == Restart && plan[j].category != plan[i].category)
      && (forall k :: CollectedRestart(plan, k) <==>
            CollectedRestart(log, k) &&
            !exists c :: c in log && (c.action == Create || c.action == Delete) && c.category == k)
      && (forall c :: c in plan ==> c in log)
      && (forall c :: c in log && c.action != Restart ==> KeyOf(c) in KeysOf(plan))
  {
    var plan, body, tail := FinalPlan(log, order), InsertAll(NonRestarts(log)), RestartsIn(log, order);
    PlanKeys(NonRestarts(log));
    forall c | c in body ensures c in log && c.action != Restart {
      NonRestartsIn(log, c);
    }
    forall i | 0 <= i < |tail| ensures tail[i] in log && tail[i].action == Restart && tail[i].category == order[i] {
      var m := RestartsAreLast(log, order[i]);
    }
    forall k ensures CollectedRestart(plan, k) <==> k in order {
      if k in order {
        var i :| 0 <= i < |order| && order[i] == k;
        assert tail[i] in plan;
      }
      var m := RestartsAreLast(log, k);
    }
    forall k ensures k in order <==> CollectedRestart(log, k) && k !in Skips(log) {
      var m := RestartsAreLast(log, k);
    }
    forall c | c in log && c.action != Restart ensures KeyOf(c) in KeysOf(plan) {
      NonRestartsIn(log, c);
      assert KeyOf(c) in KeysOf(body);
      var d :| d in body && KeyOf(d) == KeyOf(c);
      assert d in plan;
    }
  }

  /** A round that collects anything plans something. */
  lemma PlanNonEmpty(log: seq<Command>, order: seq<Category>, c: Command)
    requires RestartOrder(log, order) && c in log
    ensures FinalPlan(log, order) != []
  {
    PlanShape(log, order);
    if c.action != Restart {
      assert KeyOf(c) in KeysOf(FinalPlan(log, order));
    } else if d :| d in log && (d.action == Create || d.action == Delete) && d.category == c.category {
      assert KeyOf(d) in KeysOf(FinalPlan(log, order));
    } else {
      assert CollectedRestart(log, c.category);
      assert CollectedRestart(FinalPlan(log, order), c.category);
    }
  }

  /** The loop that walks the restart map always finds an order. */
  lemma {:induction false} OrderExists(ks: set<Category>) returns (order: seq<Category>)
    ensures forall i, j :: 0 <= i < j < |order| ==> order[i] != order[j]
    ensures forall k :: k in order <==> k in ks
  {
    if ks == {} {
      order := [];
    } else {
      var k :| k in ks;
      var rest := OrderExists(ks - {k});
      order := [k] + rest;
    }
  }

  // ----- a pending restart is planned again -----

  lemma {:induction false} NoteKeepsPending(s: ComponentState, cs: seq<Command>)
    requires RestartPending(s)
    ensures RestartPending(NoteAll(s, cs))
  {
    if cs != [] {
      NoteKeepsPending(s, cs[..|cs| - 1]);
    }
  }

  /** Planning never turns a pending restart into a success, nor forgets it. */
  lemma {:induction false} PlanningKeepsPending(st: Stages, lines: seq<Resource>, status: Status, n: Name)
    requires n in status && RestartPending(status[n])
    ensures var p := PlanAll(st, lines, status); n in p.status && RestartPending(p.status[n])
  {
    if lines != [] {
      var before := PlanAll(st, lines[..|lines| - 1], status);
      PlanningKeepsPending(st, lines[..|lines| - 1], status, n);
      var r := MergeStage(st, lines[|lines| - 1]);
      if !before.refused && r.meta.name == n {
        var state := StateFinger(st, r, before.status);
        NoteKeepsPending(state, AdoptAll(Collect(st, r, state).0, r.meta));
      }
    }
  }

  lemma {:induction false} LogGrows(st: Stages, lines: seq<Resource>, status: Status, i: nat)
    requires i <= |lines| && !PlanAll(st, lines, status).refused
    ensures !PlanAll(st, lines[..i], status).refused
    ensures PlanAll(st, lines[..i], status).log <= PlanAll(st, lines, status).log
    decreases |lines|
  {
    if i < |lines| {
      LogGrows(st, lines[..|lines| - 1], status, i);
      assert lines[..|lines| - 1][..i] == lines[..i];
    } else {
      assert lines[..i] == lines;
    }
  }

  function PendingCategory(r: Resource): Category
    requires r.desired.Some?
  {
    var k := RestartCategory(r.desired.value);
    if k == "" then r.meta.category else k
  }

  /** A completed planning that sees resource i unchanged while its restart is pending plans a
      restart for its category, unless a create or delete of that category was collected. */
  lemma PendingIsPlanned(st: Stages, lines: seq<Resource>, status: Status, i: nat, order: seq<Category>)
    requires i < |lines| && !PlanAll(st, lines, status).refused
    requires var r := MergeStage(st, lines[i]);
      !Changed(st, r) && r.desired.Some? && r.meta.name in status && RestartPending(status[r.meta.name])
    requires RestartOrder(PlanAll(st, lines, status).log, order)
    ensures var k := PendingCategory(MergeStage(st, lines[i]));
      var log := PlanAll(st, lines, status).log;
      k in Skips(log) || CollectedRestart(FinalPlan(log, order), k)
  {
    var log := PlanAll(st, lines, status).log;
    var r := MergeStage(st, lines[i]);
    var k := PendingCategory(r);
    var before := PlanAll(st, lines[..i], status);
    LogGrows(st, lines, status, i);
    LogGrows(st, lines, status, i + 1);
    PlanningKeepsPending(st, lines[..i], status, r.meta.name);
    var state := StateFinger(st, r, before.status);
    var acts := Visit(st, r, state);
    var cs := AdoptAll(acts, r.meta);
    var c := cs[|cs| - 1];
    assert lines[..i + 1][..i] == lines[..i];
    assert PlanAll(st, lines[..i + 1], status).log == before.log + cs;
    assert (before.log + cs)[|before.log| + |cs| - 1] == c;
    assert c in log && c.action == Restart && c.category == k;
    var m := RestartsAreLast(log, k);
    PlanShape(log, order);
  }

  /** Label key of o has this text; a missing label counts as an empty one. */
  predicate Labelled(o: Object, key: string, text: string) {
    if key in o.labels then o.labels[key] == text else text == ""
  }

  /** The same on the labels.  The category is that of the reference label, or else of the category
      label, or else the resource's own; and on behalf of the resource a restart is collected that
      lists no pods of that component, so that it takes all that the spec has. */
  lemma PendingRestartsComponent(st: Stages, lines: seq<Resource>, status: Status, i: nat, order: seq<Category>,
                                 reference: string, category: string, instance: string)
    requires i < |lines| && !PlanAll(st, lines, status).refused
    requires var r := MergeStage(st, lines[i]);
      && !Changed(st, r) && r.desired.Some? && r.meta.name in status
      && Restart in status[r.meta.name].actions && status[r.meta.name].actions[Restart].state !in {Success, Unset}
      && Labelled(r.desired.value, REFERENCE_LABEL, reference) && Labelled(r.desired.value, CATEGORY_LABEL, category)
      && Labelled(r.desired.value, INSTANCE_LABEL, instance)
    requires RestartOrder(PlanAll(st, lines, status).log, order)
    ensures var log := PlanAll(st, lines, status).log;
      var component := if reference != "" then reference else category;
      var k := if component != "" then component else lines[i].meta.category;
      && ((exists c :: c in log && (c.action == Create || c.action == Delete) && c.category == k) ||
          CollectedRestart(FinalPlan(log, order), k))
      && exists c :: c in log && c.action == Restart && c.category == k && c.owner == Some(lines[i].meta)
                     && c.pods == Pods(instance + "-" + component, 0)
  {
    var r := MergeStage(st, lines[i]);
    PendingIsPlanned(st, lines, status, i, order);
    var c := PendingCollected(st, lines, status, i);
    assert c.pods == Pods(instance + "-" + RestartCategory(r.desired.value), 0);
  }

  /** The restart that is collected on behalf of a pending one. */
  lemma PendingCollected(st: Stages, lines: seq<Resource>, status: Status, i: nat) returns (c: Command)
    requires i < |lines| && !PlanAll(st, lines, status).refused
    requires var r := MergeStage(st, lines[i]);
      !Changed(st, r) && r.desired.Some? && r.meta.name in status && RestartPending(status[r.meta.name])
    ensures var d := MergeStage(st, lines[i]).desired.value;
      && c in PlanAll(st, lines, status).log && c.action == Restart && c.owner == Some(lines[i].meta)
      && c.category == PendingCategory(MergeStage(st, lines[i]))
      && c.pods == Pods(LabelOf(d.labels, INSTANCE_LABEL) + "-" + RestartCategory(d), 0)
  {
    var r := MergeStage(st, lines[i]);
    var before := PlanAll(st, lines[..i], status);
    LogGrows(st, lines, status, i);
    LogGrows(st, lines, status, i + 1);
    PlanningKeepsPending(st, lines[..i], status, r.meta.name);
    var state := StateFinger(st, r, before.status);
    var cs := AdoptAll(Visit(st, r, state), r.meta);
    c := cs[|cs| - 1];
    assert lines[..i + 1][..i] == lines[..i];
    assert PlanAll(st, lines[..i + 1], status).log == before.log + cs;
    assert (before.log + cs)[|before.log| + |cs| - 1] == c;
  }

  // ----- what is collected -----

  /** c is command a of a handler of resource meta: what the handler left open is filled in, and
      nothing else changes. */
  ghost predicate Completes(c: Command, a: Command, meta: Meta) {
    && c.action == a.action && c.message == a.message && c.target == a.target && c.pods == a.pods
    && (if a.owner == None then c.owner == Some(meta) else c.owner == a.owner)
    && (if a.category == "" then c.category == meta.category else c.category == a.category)
  }

  /** What a handler answers for a resource: its pre-apply when it is changed, otherwise its
      visitation and the restart that may be pending. */
  ghost predicate Answered(st: Stages, line: Resource, a: Command) {
    var r := MergeStage(st, line);
    if Changed(st, r) then a in st.preApply(r).0
    else a in st.visitation(r) || (r.desired.Some? && a.action == Restart)
  }

  /** Everything collected is a completed answer to one of the resources. */
  lemma {:induction false} CollectedIsAnswered(st: Stages, lines: seq<Resource>, status: Status, c: Command)
    requires c in PlanAll(st, lines, status).log
    ensures exists i, a :: 0 <= i < |lines| && Answered(st, lines[i], a) && Completes(c, a, lines[i].meta)
  {
    var n := |lines| - 1;
    var p := PlanAll(st, lines[..n], status);
    if c in p.log {
      CollectedIsAnswered(st, lines[..n], status, c);
      var i, a :| 0 <= i < n && Answered(st, lines[..n][i], a) && Completes(c, a, lines[..n][i].meta);
      assert lines[..n][i] == lines[i];
    } else {
      var a := LastAnswered(st, lines[n], p, c);
    }
  }

  lemma LastAnswered(st: Stages, line: Resource, p: Planned, c: Command) returns (a: Command)
    requires c in PlanOne(st, line, p).log && c !in p.log
    ensures Answered(st, line, a) && Completes(c, a, line.meta)
  {
    var r := MergeStage(st, line);
    var acts := Collect(st, r, StateFinger(st, r, p.status)).0;
    var i :| 0 <= i < |acts| && AdoptAll(acts, r.meta)[i] == c;
    a := acts[i];
    assert a in acts;
  }

  /** The pre-apply answers for a resource that is present on one side only or whose fingerprints
      differ, the visitation for any other. */
  ghost predicate Answers(st: Stages, r: Resource, a: Command) {
    if r.observed.None? != r.desired.None? || st.finger(r.meta, r.observed).uid != st.finger(r.meta, r.desired).uid
    then a in st.preApply(r).0
    else a in st.visitation(r)
  }

  /** Every answer for a resource is collected when planning completes. */
  lemma AnsweredIsCollected(st: Stages, lines: seq<Resource>, status: Status, i: nat, a: Command) returns (c: Command)
    requires i < |lines| && !PlanAll(st, lines, status).refused && Answers(st, MergeStage(st, lines[i]), a)
    ensures c in PlanAll(st, lines, status).log && Completes(c, a, lines[i].meta)
  {
    var p := PlanAll(st, lines[..i], status);
    LogGrows(st, lines, status, i);
    LogGrows(st, lines, status, i + 1);
    assert lines[..i + 1][..i] == lines[..i];
    c := AnswerJoins(st, lines[i], p, a);
  }

  lemma AnswerJoins(st: Stages, line: Resource, p: Planned, a: Command) returns (c: Command)
    requires !PlanOne(st, line, p).refused && Answers(st, MergeStage(st, line), a)
    ensures c in PlanOne(st, line, p).log && Completes(c, a, line.meta)
  {
    var r := MergeStage(st, line);
    var acts := Collect(st, r, StateFinger(st, r, p.status)).0;
    assert a in acts;
    var k :| 0 <= k < |acts| && acts[k] == a;
    c := AdoptAll(acts, r.meta)[k];
    assert c in AdoptAll(acts, r.meta);
  }

  // ----- what planning leaves in the status map -----

  /** Base handlers leave the owner of a command to the planner. */
  ghost predicate BaseHandlers(st: Stages) {
    && (forall r, c :: c in st.preApply(r).0 ==> c.owner.None?)
    && (forall r, c :: c in st.visitation(r) ==> c.owner.None?)
  }

  function Waiting(a: Action): State {
    if a == Restart then WaitRestart else Preparing
  }

  ghost predicate Waits(status: Status, n: Name, a: Action) {
    n in status && a in status[n].actions && status[n].actions[a].state == Waiting(a)
  }

  lemma NoteEntry(s: ComponentState, c: Command, a: Action)
    ensures var after := Note(s, c);
      && after.uid == s.uid && after.nextUid == s.nextUid && after.state == s.state && after.details == s.details
      && if c.action == a then a in after.actions && after.actions[a].state == Waiting(a)
         else (a in after.actions <==> a in s.actions) && (a in s.actions ==> after.actions[a] == s.actions[a])
  {
  }

  lemma {:induction false} NoteAllEntry(s: ComponentState, cs: seq<Command>, a: Action)
    ensures var after := NoteAll(s, cs);
      && after.uid == s.uid && after.nextUid == s.nextUid && after.state == s.state && after.details == s.details
      && if exists c :: c in cs && c.action == a then a in after.actions && after.actions[a].state == Waiting(a)
         else (a in after.actions <==> a in s.actions) && (a in s.actions ==> after.actions[a] == s.actions[a])
  {
    if cs != [] {
      NoteAllEntry(s, cs[..|cs| - 1], a);
      NoteEntry(NoteAll(s, cs[..|cs| - 1]), cs[|cs| - 1], a);
      assert cs == cs[..|cs| - 1] + [cs[|cs| - 1]];
    }
  }

  /** Planning one resource only ever writes waiting entries. */
  lemma PlanOneEntry(st: Stages, line: Resource, p: Planned, n: Name, a: Action)
    requires n in p.status
    ensures var q := PlanOne(st, line, p);
      && n in q.status
      && (Waits(q.status, n, a) ||
          ((a in q.status[n].actions <==> a in p.status[n].actions) &&
           (a in p.status[n].actions ==> q.status[n].actions[a] == p.status[n].actions[a])))
  {
    var r := MergeStage(st, line);
    var state := StateFinger(st, r, p.status);
    NoteAllEntry(state, AdoptAll(Collect(st, r, state).0, r.meta), a);
  }

  lemma JustCollected(st: Stages, line: Resource, p: Planned, c: Command)
    requires BaseHandlers(st) && c in PlanOne(st, line, p).log && c !in p.log
    ensures c.owner.Some? && Waits(PlanOne(st, line, p).status, c.owner.value.name, c.action)
  {
    var r := MergeStage(st, line);
    var state := StateFinger(st, r, p.status);
    var (acts, refused) := Collect(st, r, state);
    forall a | a in acts ensures a.owner.None? {}
    Adopted(acts, r.meta, c);
    NotedWaits(p.status, state, AdoptAll(acts, r.meta), r.meta.name, c);
  }

  lemma Adopted(acts: seq<Command>, meta: Meta, c: Command)
    requires c in AdoptAll(acts, meta) && forall a :: a in acts ==> a.owner.None?
    ensures c.owner == Some(meta)
  {
    var i :| 0 <= i < |acts| && AdoptAll(acts, meta)[i] == c;
    assert acts[i] in acts;
  }

  lemma NotedWaits(status: Status, state: ComponentState, cs: seq<Command>, n: Name, c: Command)
    requires c in cs
    ensures Waits(status[n := NoteAll(state, cs)], n, c.action)
  {
    NoteAllEntry(state, cs, c.action);
  }

  /** The last command of a resource with an action is recorded with its message as the cause. */
  lemma {:induction false} NoteAllCause(s: ComponentState, cs: seq<Command>, i: nat)
    requires i < |cs| && forall j :: i < j < |cs| ==> cs[j].action != cs[i].action
    ensures cs[i].action in NoteAll(s, cs).actions
    ensures NoteAll(s, cs).actions[cs[i].action] ==
      ActionState(if cs[i].action == Restart then WaitRestart else Preparing, cs[i].message, "")
    decreases |cs|
  {
    if i < |cs| - 1 {
      NoteAllCause(s, cs[..|cs| - 1], i);
    }
  }

  /** No restart is recorded, or the recorded one succeeded or has no state. */
  predicate NoRestartWaits(s: ComponentState) {
    Restart in s.actions ==> s.actions[Restart].state in {Success, Unset}
  }

  /** What a resource was observed to be depends on the first reading only, and what is desired on the
      second: it is overridden by the spec. */
  lemma ReadingsSeparate(st: Stages, r: Resource, first: Option<Object>, second: Option<Object>)
    requires st.lookup(r.meta) == (first, second)
    ensures MergeStage(st, r).observed == first && MergeStage(st, r).meta == r.meta
    ensures forall o: Option<Object> ::
      MergeStage(st.(lookup := (m: Meta) => (o, second)), r).desired == MergeStage(st, r).desired
    ensures second.None? || r.desired.None? ==> MergeStage(st, r).desired == r.desired
  {
  }

  /** A resource that is not changed and for which nothing is collected leaves no trace. */
  lemma SilentResource(st: Stages, line: Resource, p: Planned)
    requires var r := MergeStage(st, line); !Changed(st, r) && st.visitation(r) == []
    requires line.desired.None? || line.meta.name !in p.status || NoRestartWaits(p.status[line.meta.name])
    requires FreshFingers(st)
    ensures PlanOne(st, line, p) == Planned(p.log, p.status, false)
  {
  }

  /** An unchanged resource expects no other fingerprint: whatever is applied for it, the observed one
      stays recorded. */
  lemma UnchangedStep(st: Stages, line: Resource, p: Planned)
    requires FreshFingers(st) && PlanOne(st, line, p).log != p.log
    requires !Changed(st, MergeStage(st, line))
    ensures var r := MergeStage(st, line); var after := PlanOne(st, line, p).status;
      && r.meta.name in after && after[r.meta.name].nextUid == NoUid
      && after[r.meta.name].uid == st.finger(r.meta, r.observed).uid == st.finger(r.meta, r.desired).uid
  {
    var r := MergeStage(st, line);
    var state := StateFinger(st, r, p.status);
    NoteAllEntry(state, AdoptAll(Collect(st, r, state).0, r.meta), Restart);
  }

  /** A refused resource is recorded with its fingerprints, but none of its commands is. */
  lemma RefusedRecords(st: Stages, line: Resource, p: Planned)
    requires var r := MergeStage(st, line); Changed(st, r) && st.preApply(r).1
    requires FreshFingers(st)
    ensures var q, r := PlanOne(st, line, p), MergeStage(st, line);
      && q.refused && q.log == p.log && q.status.Keys == p.status.Keys + {r.meta.name}
      && q.status[r.meta.name].uid == st.finger(r.meta, r.observed).uid
      && q.status[r.meta.name].nextUid == st.finger(r.meta, r.desired).uid
      && (q.status[r.meta.name].actions == if r.meta.name in p.status then p.status[r.meta.name].actions else map[])
      && forall n :: n in p.status && n != r.meta.name ==> q.status[n] == p.status[n]
  {
  }

  /** Every collected command is recorded as waiting when planning ends. */
  lemma {:induction false} CollectedWaits(st: Stages, lines: seq<Resource>, status: Status, c: Command)
    requires BaseHandlers(st) && c in PlanAll(st, lines, status).log
    ensures c.owner.Some? && Waits(PlanAll(st, lines, status).status, c.owner.value.name, c.action)
  {
    var p := PlanAll(st, lines[..|lines| - 1], status);
    if c in p.log {
      CollectedWaits(st, lines[..|lines| - 1], status, c);
      PlanOneEntry(st, lines[|lines| - 1], p, c.owner.value.name, c.action);
    } else {
      JustCollected(st, lines[|lines| - 1], p, c);
    }
  }

  ghost predicate NoneInProgress(status: Status) {
    forall n, a :: n in status && a in status[n].actions ==> status[n].actions[a].state != InProgress
  }

  /** The state a handler makes carries no actions, and its hash is never empty. */
  ghost predicate FreshFingers(st: Stages) {
    forall m, o :: var s := st.finger(m, o); s.actions == map[] && s.uid != NoUid && s.nextUid == NoUid
  }

  lemma {:induction false} PlanningStartsNothing(st: Stages, lines: seq<Resource>, status: Status)
    requires FreshFingers(st) && NoneInProgress(status)
    ensures NoneInProgress(PlanAll(st, lines, status).status)
  {
    if lines != [] {
      var p := PlanAll(st, lines[..|lines| - 1], status);
      PlanningStartsNothing(st, lines[..|lines| - 1], status);
      var q := PlanAll(st, lines, status);
      var r := MergeStage(st, lines[|lines| - 1]);
      var state := StateFinger(st, r, p.status);
      forall a { NoteAllEntry(state, AdoptAll(Collect(st, r, state).0, r.meta), a); }
    }
  }

  // ----- fingerprints -----

  ghost predicate DistinctNames(lines: seq<Resource>) {
    forall i, j :: 0 <= i < j < |lines| ==> lines[i].meta.name != lines[j].meta.name
  }

  lemma {:induction false} OtherResource(st: Stages, lines: seq<Resource>, status: Status, k: nat, n: Name)
    requires k <= |lines| && forall j :: k <= j < |lines| ==> lines[j].meta.name != n
    ensures var p, q := PlanAll(st, lines[..k], status), PlanAll(st, lines, status);
      (n in q.status <==> n in p.status) && (n in p.status ==> q.status[n] == p.status[n])
    decreases |lines|
  {
    if k < |lines| {
      assert lines[..|lines| - 1][..k] == lines[..k];
      OtherResource(st, lines[..|lines| - 1], status, k, n);
    } else {
      assert lines[..k] == lines;
    }
  }

  /** A changed resource is recorded with its observed fingerprint, the desired one to follow. */
  lemma ChangedIsRecorded(st: Stages, lines: seq<Resource>, status: Status, i: nat)
    requires i < |lines| && DistinctNames(lines) && FreshFingers(st) && !PlanAll(st, lines, status).refused
    requires Changed(st, MergeStage(st, lines[i]))
    ensures var r := MergeStage(st, lines[i]); var after := PlanAll(st, lines, status).status;
      && r.meta.name in after
      && after[r.meta.name].uid == st.finger(r.meta, r.observed).uid
      && after[r.meta.name].nextUid == st.finger(r.meta, r.desired).uid
      && (r.meta.name in status ==>
            && after[r.meta.name].state == status[r.meta.name].state
            && after[r.meta.name].details == status[r.meta.name].details + st.finger(r.meta, r.desired).details)
  {
    var r := MergeStage(st, lines[i]);
    var p := PlanAll(st, lines[..i], status);
    OtherResource(st, lines[..i], status, 0, r.meta.name);
    assert lines[..i][..0] == [];
    LogGrows(st, lines, status, i);
    OtherResource(st, lines, status, i + 1, r.meta.name);
    assert lines[..i + 1][..i] == lines[..i];
    ChangedStep(st, lines[i], p);
  }

  lemma ChangedStep(st: Stages, line: Resource, p: Planned)
    requires FreshFingers(st) && Changed(st, MergeStage(st, line))
    ensures var r := MergeStage(st, line); var after := PlanOne(st, line, p).status;
      && r.meta.name in after
      && after[r.meta.name].uid == st.finger(r.meta, r.observed).uid
      && after[r.meta.name].nextUid == st.finger(r.meta, r.desired).uid
      && (r.meta.name in p.status ==>
            && after[r.meta.name].state == p.status[r.meta.name].state
            && after[r.meta.name].details == p.status[r.meta.name].details + st.finger(r.meta, r.desired).details)
  {
    var r := MergeStage(st, line);
    var state := StateFinger(st, r, p.status);
    NoteAllEntry(state, AdoptAll(Collect(st, r, state).0, r.meta), Restart);
  }
}
