/** Convergence of whole runs: with fixed made resources, a quiet environment and API calls that succeed, the
    built-in handlers bring every resource to its desired fingerprint, unless one is stuck. */
module Convergence {
  import opened Types
  import opened Insertion
  import opened Planning
  import opened Execution
  import opened Rounds
  import opened Handlers

  // ----- the built-in stages -----

  /** An override merge: what the desired object sets wins, the rest of the observed one stays. */
  function Merge(o: Object, d: Object): Object {
    Object(d.kind, o.labels + d.labels, o.fields + d.fields, o.template + d.template,
      if d.selector.Some? then d.selector else o.selector,
      if d.claims != [] then d.claims else o.claims,
      if d.replicas != 0 then d.replicas else o.replicas)
  }

  /** The part of an object its handler puts into the fingerprint. */
  function FingerOf(kind: Kind, o: Option<Object>): Uid {
    if o.None? then OfNothing
    else
      var x := o.value;
      Of(match kind
        case StatefulSet => x.(labels := map[], kind := kind)
        case Service => Object(kind, x.labels, x.fields, map[], None, [], 0)
        case Job => Object(kind, x.labels, x.fields, map[], None, [], 0)
        case CronJob => Object(kind, x.labels, x.fields, map[], None, [], 0)
        case _ => Object(kind, map[], x.fields, map[], None, [], 0))
  }

  function FingerState(kind: Kind, o: Option<Object>): ComponentState {
    if o.None? then ComponentState(OfNothing, NoUid, map[], OtherState("Deleted"), map[], "Deleted")
    else ComponentState(FingerOf(kind, o), NoUid, map[], Success, map[], "ok")
  }

  /** The pre-apply of each built-in handler. */
  function Answer(kind: Kind, observed: Option<Object>, desired: Option<Object>): seq<Command> {
    match kind
    case ConfigMap => ConfigMapPreApply(observed, desired)
    case Service => ServicePreApply(observed, desired)
    case StatefulSet =>
      var act := BasePreApply(observed, desired);
      if act.action != Update then [act]
      else
        var u := UpdateSet(observed.value, desired.value);
        if u.None? then [] else u.value.0
    case _ => [BasePreApply(observed, desired)]
  }

  /** An unchanged StatefulSet is checked for a fail-over; other handlers do nothing. */
  function VisitBuiltin(r: Resource): seq<Command> {
    if r.meta.kind == StatefulSet && r.observed.Some? && r.desired.Some? then
      var d := r.desired.value;
      var category := LabelOf(d.labels, CATEGORY_LABEL);
      [Command(FailOver, category, None, "check fail over", r.desired,
        Pods(LabelOf(d.labels, INSTANCE_LABEL) + "-" + category, d.replicas))]
    else []
  }

  function Lookup(cluster: Cluster, n: Name): Option<Object> {
    if n in cluster then Some(cluster[n]) else None
  }

  function Builtin(cluster: Cluster): Stages {
    Stages(
      (m: Meta) => (Lookup(cluster, m.name), Lookup(cluster, m.name)),
      Merge,
      (m: Meta, o: Option<Object>) => FingerState(m.kind, o),
      (r: Resource) => (Answer(r.meta.kind, r.observed, r.desired), false),
      VisitBuiltin)
  }

  // ----- one resource -----

  function Desired(line: Resource, o: Option<Object>): Option<Object> {
    if o.Some? && line.desired.Some? then Some(Merge(o.value, line.desired.value)) else line.desired
  }

  predicate Differs(line: Resource, o: Option<Object>) {
    || o.None? != line.desired.None?
    || FingerOf(line.meta.kind, o) != FingerOf(line.meta.kind, Desired(line, o))
  }

  predicate Mutating(a: Action) {
    a == Create || a == Update || a == Delete || a == ReCreate
  }

  /** What a mutating command makes of its object. */
  function ApplyTo(server: Server, n: Name, c: Command, o: Option<Object>): Option<Object> {
    if c.action == Delete then None
    else if (c.action == Create && o.Some?) || c.target.None? then o
    else Some(Admit(server, n, c.target.value))
  }

  /** The handler of a changed StatefulSet indexes an empty list of claim templates. */
  predicate PanicsOn(line: Resource, o: Option<Object>) {
    Differs(line, o) && line.meta.kind == StatefulSet && o.Some? && line.desired.Some? &&
    var d := Desired(line, o);
    BasePreApply(o, d).action == Update && UpdateSet(o.value, d.value).None?
  }

  predicate Answers(line: Resource, o: Option<Object>) {
    !PanicsOn(line, o)
  }

  /** The spec keeps its leaf fields: the API server neither drops nor changes any that it sets. */
  predicate Kept(k: Keeping, w: Fields) {
    forall key :: key in w ==> key !in k.dropped && (key in k.imposed ==> k.imposed[key] == w[key])
  }

  predicate SpecKept(server: Server, line: Resource)
    requires line.desired.Some?
  {
    line.meta.name in server ==>
      && Kept(server[line.meta.name].fields, line.desired.value.fields)
      && (line.meta.kind == StatefulSet ==> Kept(server[line.meta.name].template, line.desired.value.template))
  }

  /** A first claim template, or another selector, for a StatefulSet without claim templates. */
  predicate OffersClaims(o: Object, w: Object) {
    o.claims == [] && (w.claims != [] || (w.selector.Some? && w.selector != o.selector))
  }

  /** A request to leave a cluster address that the API server does not impose itself. */
  predicate LeavesAddress(server: Server, n: Name, o: Object, w: Object) {
    && LabelOf(o.fields, CLUSTER_IP) != "" && CLUSTER_IP in w.fields && w.fields[CLUSTER_IP] != o.fields[CLUSTER_IP]
    && (n in server ==> CLUSTER_IP !in server[n].fields.imposed)
  }

  /** Resources that no reconcile can bring to their desired fingerprint: changed ones that are asked
      for and marked for deletion, that set a leaf the API server does not keep, services asked to
      leave their address, and StatefulSets on which the handler panics. */
  predicate Stuck(server: Server, line: Resource, o: Option<Object>) {
    Differs(line, o) && line.desired.Some? &&
    var w := line.desired.value;
    || ControlDelete(w)
    || !SpecKept(server, line)
    || (o.Some? && !ControlDelete(Merge(o.value, w)) &&
        ((line.meta.kind == Service && LeavesAddress(server, line.meta.name, o.value, w)) ||
         (line.meta.kind == StatefulSet && OffersClaims(o.value, w))))
  }

  /** The handler of a changed StatefulSet panics exactly when it is to be updated and the spec offers
      it a first claim template or another selector. */
  lemma PanicsIff(line: Resource, o: Object)
    requires line.meta.kind == StatefulSet && line.desired.Some? && Differs(line, Some(o))
    ensures PanicsOn(line, Some(o)) <==>
      !ControlDelete(Merge(o, line.desired.value)) && OffersClaims(o, line.desired.value)
  {
    var d := Merge(o, line.desired.value);
    RecreatePanicsIff(o, d.(replicas := OrderedCount(o.replicas, d.replicas)));
  }

  /** So a resource on which its handler panics is stuck. */
  lemma PanicIsStuck(server: Server, line: Resource, o: Option<Object>)
    requires PanicsOn(line, o)
    ensures Stuck(server, line, o)
  {
    PanicsIff(line, o.value);
  }

  /** One for a changed resource, one for an observed deletion mark, and the replicas to go. */
  function Weight(line: Resource, o: Option<Object>): nat {
    (if Differs(line, o) then 1 else 0) +
    (if o.Some? && line.desired.Some? && ControlDelete(o.value) then 1 else 0) +
    (if line.meta.kind == StatefulSet && o.Some? && line.desired.Some? then
       Distance(o.value.replicas, Desired(line, o).value.replicas) else 0)
  }

  /** What is merged and stored again comes back unchanged exactly when the spec is kept, whatever the
      defaults of the API server. */
  lemma KeptIff(k: Keeping, f: Fields, w: Fields)
    ensures Keep(k, f + w) + w == Keep(k, f + w) <==> Kept(k, w)
    ensures !Kept(k, w) ==> forall g :: Keep(k, g) + w != Keep(k, g)
  {
    if !Kept(k, w) {
      var key :| key in w && (key in k.dropped || (key in k.imposed && k.imposed[key] != w[key]));
      forall g ensures Keep(k, g) + w != Keep(k, g) {
        assert (Keep(k, g) + w)[key] == w[key];
      }
    }
  }

  /** Merging the spec into p once more changes nothing that is compared but the replica count. */
  predicate Settled(line: Resource, p: Object)
    requires line.desired.Some?
  {
    var m := Merge(p, line.desired.value);
    && m.labels == p.labels && m.fields == p.fields && m.selector == p.selector && m.claims == p.claims
    && (line.meta.kind == StatefulSet ==> m.template == p.template)
  }

  /** A merged object, with any replica count, is settled once stored, when the spec is kept. */
  lemma MergeSettles(server: Server, line: Resource, o: Object, count: int)
    requires line.desired.Some? && SpecKept(server, line)
    ensures Settled(line, Admit(server, line.meta.name, Merge(o, line.desired.value).(replicas := count)))
  {
    var n, w := line.meta.name, line.desired.value;
    assert (o.labels + w.labels) + w.labels == o.labels + w.labels;
    if n in server {
      KeptIff(server[n].fields, o.fields, w.fields);
      KeptIff(server[n].template, o.template, w.template);
    } else {
      assert (o.fields + w.fields) + w.fields == o.fields + w.fields;
      assert (o.template + w.template) + w.template == o.template + w.template;
    }
  }

  lemma MergeSelf(w: Object)
    ensures Merge(w, w) == w
  {
    assert w.labels + w.labels == w.labels && w.template + w.template == w.template && w.fields + w.fields == w.fields;
  }

  function FirstMutating(cs: seq<Command>): Option<Command> {
    if cs == [] then None else if Mutating(cs[0].action) then Some(cs[0]) else FirstMutating(cs[1..])
  }

  /** m is the only mutating command of cs. */
  ghost predicate OnlyMutator(cs: seq<Command>, m: Command) {
    m in cs && Mutating(m.action) && forall c :: c in cs && Mutating(c.action) ==> c == m
  }

  function Mutator(line: Resource, o: Option<Object>): Command
    requires Differs(line, o) && Answers(line, o)
  {
    var acts := Answer(line.meta.kind, o, Desired(line, o));
    HasMutator(line, o);
    FirstMutating(acts).value
  }

  lemma {:induction false} FirstMutatingOf(cs: seq<Command>)
    ensures FirstMutating(cs).Some? ==> FirstMutating(cs).value in cs && Mutating(FirstMutating(cs).value.action)
    ensures FirstMutating(cs).None? ==> forall c :: c in cs ==> !Mutating(c.action)
  {
    if cs != [] {
      FirstMutatingOf(cs[1..]);
      assert cs == [cs[0]] + cs[1..];
    }
  }

  lemma OnlyMutatorIsFirst(cs: seq<Command>, m: Command)
    requires OnlyMutator(cs, m)
    ensures FirstMutating(cs) == Some(m)
  {
    FirstMutatingOf(cs);
  }

  lemma HeadMutator(o: Object, d: Object) returns (m: Command)
    requires !RecreateCheck(o, d).Panics?
    ensures OnlyMutator(Head(RecreateCheck(o, d)), m) && (m.action == Update || m.action == ReCreate) && m.owner.None?
  {
    var head := Head(RecreateCheck(o, d));
    m := if |head| == 3 then head[1] else head[0];
  }

  lemma AimedMutator(head: seq<Command>, tail: seq<Command>, o: Object, m: Command)
    requires OnlyMutator(head, m) && (m.action == Update || m.action == ReCreate)
    requires forall c :: c in tail ==> !Mutating(c.action)
    ensures OnlyMutator(Aim(head + tail, o), m.(target := Some(o)))
  {
    var i :| 0 <= i < |head| && head[i] == m;
    assert (head + tail)[i] == m && Aim(head + tail, o)[i] == m.(target := Some(o));
    forall c | c in Aim(head + tail, o) && Mutating(c.action) ensures c == m.(target := Some(o)) {
      AimedAt(head + tail, o, c);
    }
  }

  /** A StatefulSet update carries exactly one mutating command, which pushes the final object. */
  lemma SetMutator(o: Object, d: Object) returns (m: Command)
    requires UpdateSet(o, d).Some?
    ensures OnlyMutator(UpdateSet(o, d).value.0, m)
    ensures (m.action == Update || m.action == ReCreate) && m.target == Some(UpdateSet(o, d).value.1) && m.owner.None?
  {
    var ordered := d.(replicas := OrderedCount(o.replicas, d.replicas));
    var pushed := UpdateSet(o, d).value.1;
    m := HeadMutator(o, ordered);
    AimedMutator(Head(RecreateCheck(o, ordered)), RestartCheck(o, pushed), pushed, m);
    m := m.(target := Some(pushed));
  }

  /** The answer to every changed resource carries exactly one mutating command. */
  lemma {:induction false} HasMutator(line: Resource, o: Option<Object>)
    requires Differs(line, o) && Answers(line, o)
    ensures var acts := Answer(line.meta.kind, o, Desired(line, o));
      FirstMutating(acts).Some? && OnlyMutator(acts, FirstMutating(acts).value) && FirstMutating(acts).value.owner.None?
  {
    var d := Desired(line, o);
    var acts := Answer(line.meta.kind, o, d);
    var act := BasePreApply(o, d);
    if line.meta.kind == StatefulSet && act.action == Update {
      var m := SetMutator(o.value, d.value);
      OnlyMutatorIsFirst(acts, m);
    } else {
      OnlyMutatorIsFirst(acts, acts[0]);
    }
  }

  /** A settled object is not stuck; when its count is the wanted one, the resource matches. */
  lemma SettledIsFree(server: Server, line: Resource, p: Object)
    requires line.desired.Some? && !ControlDelete(line.desired.value) && SpecKept(server, line) && Settled(line, p)
    ensures !Stuck(server, line, Some(p))
    ensures Merge(p, line.desired.value).replicas == p.replicas ==> !Differs(line, Some(p))
  {
  }

  /** Applying the mutating command of a changed resource that is not stuck lowers its weight and
      does not get it stuck. */
  lemma {:induction false} Progress(server: Server, line: Resource, o: Option<Object>)
    requires Differs(line, o) && Answers(line, o) && !Stuck(server, line, o)
    ensures var p := ApplyTo(server, line.meta.name, Mutator(line, o), o);
      Weight(line, p) < Weight(line, o) && !Stuck(server, line, p)
  {
    HasMutator(line, o);
    if o.None? {
      CreateProgress(server, line);
    } else if line.desired.Some? && BasePreApply(o, Desired(line, o)).action == Update {
      if line.meta.kind == StatefulSet {
        SetProgress(server, line, o.value);
      } else {
        UpdateProgress(server, line, o.value);
      }
    }
  }

  lemma CreateProgress(server: Server, line: Resource)
    requires Differs(line, None) && Answers(line, None) && !Stuck(server, line, None)
    ensures var p := ApplyTo(server, line.meta.name, Mutator(line, None), None);
      Weight(line, p) < Weight(line, None) && !Stuck(server, line, p)
  {
    var w := line.desired.value;
    HasMutator(line, None);
    MergeSelf(w);
    MergeSettles(server, line, w, w.replicas);
    SettledIsFree(server, line, Admit(server, line.meta.name, w));
  }

  lemma UpdateProgress(server: Server, line: Resource, o: Object)
    requires line.desired.Some? && line.meta.kind != StatefulSet
    requires Differs(line, Some(o)) && !Stuck(server, line, Some(o))
    requires BasePreApply(Some(o), Desired(line, Some(o))).action == Update && Answers(line, Some(o))
    ensures var p := ApplyTo(server, line.meta.name, Mutator(line, Some(o)), Some(o));
      Weight(line, p) < Weight(line, Some(o)) && !Stuck(server, line, p)
  {
    var merged := Merge(o, line.desired.value);
    PushesMerged(server, line, o);
    MergeSettles(server, line, o, merged.replicas);
    SettledIsFree(server, line, Admit(server, line.meta.name, merged));
  }

  /** Outside StatefulSets what is stored is the merged object. */
  lemma PushesMerged(server: Server, line: Resource, o: Object)
    requires line.desired.Some? && line.meta.kind != StatefulSet
    requires Differs(line, Some(o)) && !Stuck(server, line, Some(o))
    requires BasePreApply(Some(o), Desired(line, Some(o))).action == Update
    ensures Answers(line, Some(o)) && Mutator(line, Some(o)).action == Update && Mutator(line, Some(o)).target.Some?
    ensures Admit(server, line.meta.name, Mutator(line, Some(o)).target.value) ==
      Admit(server, line.meta.name, Merge(o, line.desired.value))
  {
    var d := Merge(o, line.desired.value);
    HasMutator(line, Some(o));
    if line.meta.kind == Service && LabelOf(o.fields, CLUSTER_IP) != "" {
      AddressImposed(server, line.meta.name, o, line.desired.value);
    }
  }

  /** The address of a service that is not asked to leave it is kept or imposed either way. */
  lemma AddressImposed(server: Server, n: Name, o: Object, w: Object)
    requires CLUSTER_IP in o.fields && LabelOf(o.fields, CLUSTER_IP) != "" && !LeavesAddress(server, n, o, w)
    ensures var d := Merge(o, w);
      Admit(server, n, d.(fields := d.fields[CLUSTER_IP := o.fields[CLUSTER_IP]])) == Admit(server, n, d)
  {
    var d := Merge(o, w);
    if CLUSTER_IP in w.fields && w.fields[CLUSTER_IP] != o.fields[CLUSTER_IP] {
      var k := server[n].fields;
      assert Keep(k, d.fields[CLUSTER_IP := o.fields[CLUSTER_IP]]) == Keep(k, d.fields);
    } else {
      assert d.fields[CLUSTER_IP := o.fields[CLUSTER_IP]] == d.fields;
    }
  }

  /** The pushed count is closer to the target, or both are the current one. */
  lemma PushedCloser(o: Object, d: Object)
    requires UpdateSet(o, d).Some?
    ensures var q := UpdateSet(o, d).value.1;
      && q == d.(replicas := q.replicas)
      && (o.replicas == d.replicas ==> q.replicas == d.replicas)
      && (o.replicas != d.replicas ==> Distance(q.replicas, d.replicas) < Distance(o.replicas, d.replicas))
  {
  }

  /** A StatefulSet moves one pod closer, or is done. */
  lemma SetProgress(server: Server, line: Resource, o: Object)
    requires line.desired.Some? && line.meta.kind == StatefulSet && Differs(line, Some(o)) && Answers(line, Some(o))
    requires BasePreApply(Some(o), Desired(line, Some(o))).action == Update && !Stuck(server, line, Some(o))
    ensures var p := ApplyTo(server, line.meta.name, Mutator(line, Some(o)), Some(o));
      Weight(line, p) < Weight(line, Some(o)) && !Stuck(server, line, p)
  {
    var w, d := line.desired.value, Desired(line, Some(o)).value;
    HasMutator(line, Some(o));
    var m := SetMutator(o, d);
    OnlyMutatorIsFirst(Answer(StatefulSet, Some(o), Some(d)), m);
    PushedCloser(o, d);
    var pushed := UpdateSet(o, d).value.1;
    MergeSettles(server, line, o, pushed.replicas);
    SettledIsFree(server, line, Admit(server, line.meta.name, pushed));
  }

  /** A stuck resource stays stuck when its command is applied. */
  lemma StuckStays(server: Server, line: Resource, o: Option<Object>)
    requires Differs(line, o) && Answers(line, o) && Stuck(server, line, o)
    ensures Stuck(server, line, ApplyTo(server, line.meta.name, Mutator(line, o), o))
  {
    HasMutator(line, o);
    var w := line.desired.value;
    if ControlDelete(w) {
      assert BasePreApply(o, Desired(line, o)).action == Delete;
    } else if !SpecKept(server, line) {
      UnkeptDiffers(server, line, o);
    } else {
      if line.meta.kind == StatefulSet {
        PanicsIff(line, o.value);
      }
      ServiceStuckStays(server, line, o.value);
    }
  }

  lemma ServiceStuckStays(server: Server, line: Resource, o: Object)
    requires line.meta.kind == Service && line.desired.Some? && Differs(line, Some(o)) && SpecKept(server, line)
    requires !ControlDelete(line.desired.value) && !ControlDelete(Merge(o, line.desired.value))
    requires LeavesAddress(server, line.meta.name, o, line.desired.value)
    ensures Stuck(server, line, ApplyTo(server, line.meta.name, Mutator(line, Some(o)), Some(o)))
  {
    var w := line.desired.value;
    AddressStays(server, line.meta.name, o, w);
    var merged := Merge(o, w);
    var stored := Admit(server, line.meta.name, merged.(fields := merged.fields[CLUSTER_IP := o.fields[CLUSTER_IP]]));
    assert ApplyTo(server, line.meta.name, Mutator(line, Some(o)), Some(o)) == Some(stored);
    assert Merge(stored, w).fields[CLUSTER_IP] != stored.fields[CLUSTER_IP];
  }

  /** Once stored, an object never makes its handler panic. */
  lemma {:induction false} AnswersStay(server: Server, line: Resource, o: Option<Object>)
    requires Differs(line, o) && Answers(line, o)
    ensures Answers(line, ApplyTo(server, line.meta.name, Mutator(line, o), o))
  {
    HasMutator(line, o);
    var n, p := line.meta.name, ApplyTo(server, line.meta.name, Mutator(line, o), o);
    if line.meta.kind == StatefulSet && line.desired.Some? && p.Some? {
      if o.Some? {
        var m := SetMutator(o.value, Desired(line, o).value);
        OnlyMutatorIsFirst(Answer(StatefulSet, o, Desired(line, o)), m);
      }
      assert !OffersClaims(p.value, line.desired.value);
      if Differs(line, p) {
        PanicsIff(line, p.value);
      }
    }
  }

  /** Whatever is stored, the next merge brings back the leaf that the API server does not keep. */
  lemma UnkeptDiffers(server: Server, line: Resource, o: Option<Object>)
    requires Differs(line, o) && Answers(line, o) && line.desired.Some? && !ControlDelete(line.desired.value)
    requires !SpecKept(server, line)
    ensures Differs(line, ApplyTo(server, line.meta.name, Mutator(line, o), o))
  {
    HasMutator(line, o);
    var n, w, m := line.meta.name, line.desired.value, Mutator(line, o);
    if m.action != Delete && m.target.Some? {
      UnkeptStored(server, line, m.target.value);
    }
  }

  lemma UnkeptStored(server: Server, line: Resource, g: Object)
    requires line.desired.Some? && !SpecKept(server, line)
    ensures Differs(line, Some(Admit(server, line.meta.name, g)))
  {
    var n, w := line.meta.name, line.desired.value;
    var p := Admit(server, n, g);
    if !Kept(server[n].fields, w.fields) {
      KeptIff(server[n].fields, g.fields, w.fields);
      FieldsDiffer(line, p);
    } else {
      KeptIff(server[n].template, g.template, w.template);
      assert p.template + w.template != p.template;
    }
  }

  /** Leaf fields are compared whatever the kind. */
  lemma FieldsDiffer(line: Resource, p: Object)
    requires line.desired.Some? && p.fields + line.desired.value.fields != p.fields
    ensures Differs(line, Some(p))
  {
    assert Merge(p, line.desired.value).fields != p.fields;
  }

  /** A service that is asked to leave its address keeps it, and the request stays. */
  lemma AddressStays(server: Server, n: Name, o: Object, w: Object)
    requires LeavesAddress(server, n, o, w) && (n in server ==> Kept(server[n].fields, w.fields))
    ensures var merged := Merge(o, w);
      var stored := Admit(server, n, merged.(fields := merged.fields[CLUSTER_IP := o.fields[CLUSTER_IP]]));
      LeavesAddress(server, n, stored, w) && Merge(stored, w).labels == merged.labels
  {
    assert (o.labels + w.labels) + w.labels == o.labels + w.labels;
  }

  // ----- one reconcile of all resources -----

  /** Names are distinct and no handler panics. */
  ghost predicate WellFormed(lines: seq<Resource>, cluster: Cluster) {
    DistinctNames(lines) && forall i :: 0 <= i < |lines| ==> Answers(lines[i], Lookup(cluster, lines[i].meta.name))
  }

  /** The mutating command of a changed resource as it is collected. */
  function Move(line: Resource, o: Option<Object>): Command
    requires Differs(line, o) && Answers(line, o)
  {
    Adopt(Mutator(line, o), line.meta)
  }

  lemma MoveOf(line: Resource, cluster: Cluster, status: Status)
    requires Answers(line, Lookup(cluster, line.meta.name))
    ensures var st, o := Builtin(cluster), Lookup(cluster, line.meta.name); var r := MergeStage(st, line);
      && (Changed(st, r) <==> Differs(line, o))
      && !Collect(st, r, StateFinger(st, r, status)).1
      && var cs := AdoptAll(Collect(st, r, StateFinger(st, r, status)).0, line.meta);
        if Differs(line, o) then OnlyMutator(cs, Move(line, o)) && OwnerName(Move(line, o)) == line.meta.name
        else forall c :: c in cs ==> !Mutating(c.action)
  {
    var st, o := Builtin(cluster), Lookup(cluster, line.meta.name);
    var r := MergeStage(st, line);
    var acts := Collect(st, r, StateFinger(st, r, status)).0;
    if Differs(line, o) {
      HasMutator(line, o);
      AdoptedMutator(acts, Mutator(line, o), line.meta);
    }
  }

  lemma AdoptedMutator(acts: seq<Command>, m: Command, meta: Meta)
    requires OnlyMutator(acts, m)
    ensures OnlyMutator(AdoptAll(acts, meta), Adopt(m, meta))
  {
    var i :| 0 <= i < |acts| && acts[i] == m;
    assert AdoptAll(acts, meta)[i] == Adopt(m, meta);
    forall c | c in AdoptAll(acts, meta) && Mutating(c.action) ensures c == Adopt(m, meta) {
      var j :| 0 <= j < |acts| && AdoptAll(acts, meta)[j] == c;
      assert acts[j] in acts;
    }
  }

  function ObjectOf(line: Resource, cluster: Cluster): Option<Object> {
    Lookup(cluster, line.meta.name)
  }

  /** The move of a changed resource is in the log. */
  ghost predicate Moved(line: Resource, cluster: Cluster, log: seq<Command>) {
    Differs(line, ObjectOf(line, cluster)) ==>
      Answers(line, ObjectOf(line, cluster)) && Move(line, ObjectOf(line, cluster)) in log
  }

  /** The mutating commands of a log are exactly the moves of the changed resources. */
  ghost predicate MovesLogged(lines: seq<Resource>, cluster: Cluster, log: seq<Command>) {
    && (forall i :: 0 <= i < |lines| ==> Moved(lines[i], cluster, log))
    && (forall c :: c in log && Mutating(c.action) ==> MoveOfSome(lines, cluster, c))
  }

  /** Planning with the built-in handlers is never refused; the mutating commands it collects are
      exactly the moves of the changed resources. */
  lemma {:induction false} CollectedMoves(lines: seq<Resource>, cluster: Cluster, status: Status)
    requires WellFormed(lines, cluster)
    ensures !PlanAll(Builtin(cluster), lines, status).refused
    ensures MovesLogged(lines, cluster, PlanAll(Builtin(cluster), lines, status).log)
  {
    if lines != [] {
      var n, st := |lines| - 1, Builtin(cluster);
      var before := PlanAll(st, lines[..n], status);
      CollectedMoves(lines[..n], cluster, status);
      MoveOf(lines[n], cluster, before.status);
      var r := MergeStage(st, lines[n]);
      var cs := AdoptAll(Collect(st, r, StateFinger(st, r, before.status)).0, r.meta);
      assert PlanAll(st, lines, status).log == before.log + cs;
      MovesStep(lines, cluster, before.log, cs);
    }
  }

  lemma MovesStep(lines: seq<Resource>, cluster: Cluster, log: seq<Command>, cs: seq<Command>)
    requires lines != [] && MovesLogged(lines[..|lines| - 1], cluster, log)
    requires var line := lines[|lines| - 1]; var o := ObjectOf(line, cluster);
      if Differs(line, o) then Answers(line, o) && OnlyMutator(cs, Move(line, o))
      else forall c :: c in cs ==> !Mutating(c.action)
    ensures MovesLogged(lines, cluster, log + cs)
  {
    var n := |lines| - 1;
    forall i | 0 <= i < |lines| ensures Moved(lines[i], cluster, log + cs) {
      if i < n {
        assert lines[..n][i] == lines[i];
        MovedMore(lines[i], cluster, log, cs);
      }
    }
    forall c | c in log + cs && Mutating(c.action) ensures MoveOfSome(lines, cluster, c) {
      if c in log {
        MoveOfMore(lines, cluster, c);
      } else {
        assert IsMove(lines[n], cluster, c);
      }
    }
  }

  lemma MovedMore(line: Resource, cluster: Cluster, log: seq<Command>, cs: seq<Command>)
    requires Moved(line, cluster, log)
    ensures Moved(line, cluster, log + cs)
  {
  }

  ghost predicate MoveOfSome(lines: seq<Resource>, cluster: Cluster, c: Command) {
    exists i :: 0 <= i < |lines| && IsMove(lines[i], cluster, c)
  }

  ghost predicate IsMove(line: Resource, cluster: Cluster, c: Command) {
    var o := ObjectOf(line, cluster);
    Differs(line, o) && Answers(line, o) && c == Move(line, o)
  }

  lemma MoveOfMore(lines: seq<Resource>, cluster: Cluster, c: Command)
    requires lines != [] && MoveOfSome(lines[..|lines| - 1], cluster, c)
    ensures MoveOfSome(lines, cluster, c)
  {
    var i :| 0 <= i < |lines| - 1 && IsMove(lines[..|lines| - 1][i], cluster, c);
    assert IsMove(lines[i], cluster, c);
  }

  /** When m is the only mutating command a plan has for resource n, running the plan applies it
      once, if it is there, and otherwise leaves the object alone. */
  lemma {:induction false} RunEffect(server: Server, cs: seq<Command>, cluster: Cluster, k: nat, n: Name, m: Command)
    requires k <= |cs| && OwnerName(m) == n && Mutating(m.action)
    requires forall c :: c in cs && Mutating(c.action) && OwnerName(c) == n ==> c == m
    ensures Lookup(ExecCluster(server, cs, [], cluster, k), n) ==
      if m in cs[..k] then ApplyTo(server, n, m, Lookup(cluster, n)) else Lookup(cluster, n)
  {
    if k > 0 {
      RunEffect(server, cs, cluster, k - 1, n, m);
      assert cs[..k] == cs[..k - 1] + [cs[k - 1]];
      EffectOf(server, ExecCluster(server, cs, [], cluster, k - 1), cs[k - 1], n);
    }
  }

  lemma EffectOf(server: Server, cluster: Cluster, c: Command, n: Name)
    ensures Lookup(Effect(server, cluster, c), n) ==
      if OwnerName(c) == n && Mutating(c.action) then ApplyTo(server, n, c, Lookup(cluster, n)) else Lookup(cluster, n)
  {
  }

  lemma {:induction false} RunSpares(server: Server, cs: seq<Command>, cluster: Cluster, k: nat, n: Name)
    requires k <= |cs|
    requires forall c :: c in cs && Mutating(c.action) ==> OwnerName(c) != n
    ensures Lookup(ExecCluster(server, cs, [], cluster, k), n) == Lookup(cluster, n)
  {
    if k > 0 {
      RunSpares(server, cs, cluster, k - 1, n);
      EffectOf(server, ExecCluster(server, cs, [], cluster, k - 1), cs[k - 1], n);
    }
  }

  /** A reconcile in a quiet environment: the cluster is read as it is and every call succeeds. */
  function QuietTurn(lines: seq<Resource>, server: Server, cluster: Cluster, order: seq<Category>, n: nat): Turn {
    Turn(Builtin(cluster), server, lines, [], [], order, n)
  }

  /** The object of resource i after a quiet reconcile whose plan is plan. */
  function After(lines: seq<Resource>, server: Server, cluster: Cluster, plan: seq<Command>, i: nat): Option<Object>
    requires i < |lines|
  {
    var line, o := lines[i], ObjectOf(lines[i], cluster);
    if Differs(line, o) && Answers(line, o) && Move(line, o) in plan then
      ApplyTo(server, line.meta.name, Mutator(line, o), o)
    else o
  }

  /** The mutating commands of a plan that act on resource i are its own move. */
  lemma OwnMove(lines: seq<Resource>, cluster: Cluster, status: Status, i: nat, c: Command)
    requires WellFormed(lines, cluster) && i < |lines| && OwnerName(c) == lines[i].meta.name
    requires MoveOfSome(lines, cluster, c)
    ensures IsMove(lines[i], cluster, c)
  {
    var j :| 0 <= j < |lines| && IsMove(lines[j], cluster, c);
    MoveOf(lines[j], cluster, status);
    assert j == i;
  }

  /** Each object ends as its own move makes it, or is left alone when the move was evicted. */
  lemma {:induction false} QuietEffect(lines: seq<Resource>, server: Server, w: World, order: seq<Category>,
                                       n: nat, i: nat)
    requires WellFormed(lines, w.cluster) && Legal(QuietTurn(lines, server, w.cluster, order, n), w) && i < |lines|
    ensures var t := QuietTurn(lines, server, w.cluster, order, n);
      && !PlanAll(t.st, t.lines, w.status).refused
      && ObjectOf(lines[i], Reconcile(t, w).cluster) == After(lines, server, w.cluster, PlanOf(t, w), i)
  {
    var t := QuietTurn(lines, server, w.cluster, order, n);
    CollectedMoves(lines, w.cluster, w.status);
    var p := PlanAll(t.st, t.lines, w.status);
    PlanShape(p.log, order);
    QuietCluster(t, w);
    PlanEffect(lines, server, w.cluster, w.status, PlanOf(t, w), i);
  }

  /** When every call succeeds the whole plan runs. */
  lemma QuietCluster(t: Turn, w: World)
    requires Legal(t, w) && t.outs == [] && t.again == [] && !PlanAll(t.st, t.lines, w.status).refused
    ensures Reconcile(t, w).cluster == ExecCluster(t.server, PlanOf(t, w), [], w.cluster, |PlanOf(t, w)|)
  {
    ReconcileCluster(t, w);
    QuietStops(|PlanOf(t, w)|, t.applied);
  }

  lemma QuietStops(total: nat, n: nat)
    requires Stops([], [], total, n)
    ensures n == total
  {
  }

  lemma PlanEffect(lines: seq<Resource>, server: Server, cluster: Cluster, status: Status, plan: seq<Command>, i: nat)
    requires WellFormed(lines, cluster) && i < |lines|
    requires forall c :: c in plan && Mutating(c.action) ==> MoveOfSome(lines, cluster, c)
    ensures ObjectOf(lines[i], ExecCluster(server, plan, [], cluster, |plan|)) == After(lines, server, cluster, plan, i)
  {
    var name, o := lines[i].meta.name, ObjectOf(lines[i], cluster);
    assert plan[..|plan|] == plan;
    forall c | c in plan && Mutating(c.action) && OwnerName(c) == name ensures IsMove(lines[i], cluster, c) {
      OwnMove(lines, cluster, status, i, c);
    }
    if Differs(lines[i], o) {
      MoveOf(lines[i], cluster, status);
      RunEffect(server, plan, cluster, |plan|, name, Move(lines[i], o));
    } else {
      RunSpares(server, plan, cluster, |plan|, name);
    }
  }

  // ----- what is compared -----

  /** w asks for something that o does not have. */
  ghost predicate Sets(w: Fields, o: Fields) {
    exists key :: key in w && (key !in o || o[key] != w[key])
  }

  lemma SetsIff(w: Fields, o: Fields)
    ensures o + w != o <==> Sets(w, o)
  {
    if !Sets(w, o) {
      assert o + w == o;
    } else {
      var key :| key in w && (key !in o || o[key] != w[key]);
      assert (o + w)[key] == w[key];
    }
  }

  /** When a stored resource counts as changed: its spec sets a leaf that the object lacks or has
      otherwise; or a label, for services, jobs and cron jobs; or, for a StatefulSet, a leaf of the
      pod template, another selector, other claim templates or another count. */
  lemma DiffersIff(line: Resource, o: Object)
    requires line.desired.Some?
    ensures var w, kind := line.desired.value, line.meta.kind;
      Differs(line, Some(o)) <==>
        || Sets(w.fields, o.fields)
        || (kind in {Service, Job, CronJob} && Sets(w.labels, o.labels))
        || (kind == StatefulSet &&
            (Sets(w.template, o.template) || (w.selector.Some? && w.selector != o.selector) ||
             (w.claims != [] && w.claims != o.claims) || (w.replicas != 0 && w.replicas != o.replicas)))
  {
    var w := line.desired.value;
    SetsIff(w.fields, o.fields);
    SetsIff(w.labels, o.labels);
    SetsIff(w.template, o.template);
  }

  /** An unchanged StatefulSet is checked for a fail-over of all its pods, and no other resource is. */
  lemma VisitIff(line: Resource, cluster: Cluster, status: Status, instance: string, category: string)
    requires !Differs(line, ObjectOf(line, cluster)) && line.desired.Some?
    requires var d := Desired(line, ObjectOf(line, cluster)).value;
      Labelled(d, INSTANCE_LABEL, instance) && Labelled(d, CATEGORY_LABEL, category)
    ensures var st := Builtin(cluster); var r := MergeStage(st, line);
      var acts := Collect(st, r, StateFinger(st, r, status)).0;
      if line.meta.kind == StatefulSet then
        && acts != [] && acts[0].action == FailOver && acts[0].category == category && acts[0].target == r.desired
        && acts[0].pods == Pods(instance + "-" + category, r.desired.value.replicas)
        && forall i :: 0 < i < |acts| ==> acts[i].action == Restart
      else forall i :: 0 <= i < |acts| ==> acts[i].action == Restart
  {
  }

  /** The built-in handlers leave the owner of a command open, and their states carry no actions; what
      is absent counts as deleted.  So the theorems on such stages hold of them. */
  lemma BuiltinIsBase(cluster: Cluster)
    ensures BaseHandlers(Builtin(cluster)) && FreshFingers(Builtin(cluster))
    ensures forall m: Meta, o: Option<Object> :: var s := Builtin(cluster).finger(m, o);
      if o.None? then s.state == OtherState("Deleted") && s.message == "Deleted"
      else s.state == Success && s.message == "ok"
  {
    forall r: Resource, c | c in Builtin(cluster).preApply(r).0 ensures c.owner.None? {
      AnswerIsOpen(r.meta.kind, r.observed, r.desired, c);
    }
  }

  lemma AnswerIsOpen(kind: Kind, o: Option<Object>, d: Option<Object>, c: Command)
    requires c in Answer(kind, o, d)
    ensures c.owner.None?
  {
    if kind == StatefulSet && BasePreApply(o, d).action == Update {
      SetIsOpen(o.value, d.value, c);
    }
  }

  lemma SetIsOpen(o: Object, d: Object, c: Command)
    requires UpdateSet(o, d).Some? && c in UpdateSet(o, d).value.0
    ensures c.owner.None?
  {
    var ordered := d.(replicas := OrderedCount(o.replicas, d.replicas));
    var pushed := UpdateSet(o, d).value.1;
    HeadIsOpen(o, ordered);
    AimedAt(Head(RecreateCheck(o, ordered)) + RestartCheck(o, pushed), pushed, c);
  }

  lemma HeadIsOpen(o: Object, d: Object)
    ensures forall c :: c in Head(RecreateCheck(o, d)) ==> c.owner.None?
  {
  }

  // ----- groups of resources -----

  /** A group of resource lines, by position. */
  type Group = set<nat>

  ghost function Everything(lines: seq<Resource>): (r: Group)
    ensures forall i: nat :: i in r <==> i < |lines|
  {
    if lines == [] then {} else Everything(lines[..|lines| - 1]) + {|lines| - 1}
  }

  /** The categories the move of a line can carry. */
  predicate Carried(line: Resource, c: Category) {
    || c == line.meta.category
    || (line.meta.kind == StatefulSet && line.desired.Some? &&
        (CATEGORY_LABEL in line.desired.value.labels ==> c == line.desired.value.labels[CATEGORY_LABEL]))
  }

  /** No line outside the group shares a category with one inside. */
  ghost predicate Separate(lines: seq<Resource>, group: Group) {
    forall i, j, c {:trigger Carried(lines[i], c), Carried(lines[j], c)} ::
      0 <= i < |lines| && 0 <= j < |lines| && i in group && Carried(lines[i], c) && Carried(lines[j], c) ==> j in group
  }

  lemma MoveCarries(line: Resource, o: Option<Object>)
    requires Differs(line, o) && Answers(line, o)
    ensures Carried(line, Move(line, o).category)
  {
    HasMutator(line, o);
    var d := Desired(line, o);
    FirstMutatingOf(Answer(line.meta.kind, o, d));
    if line.meta.kind == StatefulSet && BasePreApply(o, d).action == Update {
      SetCategory(o.value, d.value, Mutator(line, o));
    }
  }

  /** Commands of a StatefulSet update leave their category open or take it from its label. */
  lemma SetCategory(o: Object, d: Object, m: Command)
    requires UpdateSet(o, d).Some? && m in UpdateSet(o, d).value.0 && Mutating(m.action)
    ensures m.category == "" || m.category == LabelOf(d.labels, CATEGORY_LABEL)
  {
    var ordered := d.(replicas := OrderedCount(o.replicas, d.replicas));
    var pushed := UpdateSet(o, d).value.1;
    var raw := Head(RecreateCheck(o, ordered)) + RestartCheck(o, pushed);
    AimedAt(raw, pushed, m);
    var c :| c in raw && m == if c.action == Update || c.action == ReCreate then c.(target := Some(pushed)) else c;
    if c in Head(RecreateCheck(o, ordered)) {
      HeadCategory(o, ordered, c);
    }
  }

  lemma HeadCategory(o: Object, d: Object, c: Command)
    requires c in Head(RecreateCheck(o, d)) && Mutating(c.action)
    ensures c.category == "" || c.category == LabelOf(d.labels, CATEGORY_LABEL)
  {
  }

  ghost predicate GroupMatches(lines: seq<Resource>, group: Group, cluster: Cluster) {
    forall i :: 0 <= i < |lines| && i in group ==> !Differs(lines[i], ObjectOf(lines[i], cluster))
  }

  ghost predicate GroupFree(server: Server, lines: seq<Resource>, group: Group, cluster: Cluster) {
    forall i :: 0 <= i < |lines| && i in group ==> !Stuck(server, lines[i], ObjectOf(lines[i], cluster))
  }

  ghost predicate AllMatch(lines: seq<Resource>, cluster: Cluster) {
    forall i :: 0 <= i < |lines| ==> !Differs(lines[i], ObjectOf(lines[i], cluster))
  }

  ghost predicate NoneStuck(server: Server, lines: seq<Resource>, cluster: Cluster) {
    forall i :: 0 <= i < |lines| ==> !Stuck(server, lines[i], ObjectOf(lines[i], cluster))
  }

  // ----- the measure -----

  /** The number of changed resources, of observed deletion marks, and of replicas to go, in a group. */
  function Measure(lines: seq<Resource>, group: Group, cluster: Cluster): nat {
    if lines == [] then 0
    else
      var n := |lines| - 1;
      Measure(lines[..n], group, cluster) + if n in group then Weight(lines[n], ObjectOf(lines[n], cluster)) else 0
  }

  lemma {:induction false} MeasureDrops(lines: seq<Resource>, group: Group, before: Cluster, after: Cluster, k: int)
    requires forall i :: 0 <= i < |lines| && i in group ==>
      Weight(lines[i], ObjectOf(lines[i], after)) <= Weight(lines[i], ObjectOf(lines[i], before))
    requires 0 <= k < |lines| ==>
      k in group && Weight(lines[k], ObjectOf(lines[k], after)) < Weight(lines[k], ObjectOf(lines[k], before))
    ensures Measure(lines, group, after) <= Measure(lines, group, before)
    ensures 0 <= k < |lines| ==> Measure(lines, group, after) < Measure(lines, group, before)
  {
    if lines != [] {
      var n := |lines| - 1;
      assert forall i :: 0 <= i < n ==> lines[..n][i] == lines[i];
      MeasureDrops(lines[..n], group, before, after, k);
    }
  }

  lemma {:induction false} ZeroMatches(lines: seq<Resource>, group: Group, cluster: Cluster)
    requires Measure(lines, group, cluster) == 0
    ensures GroupMatches(lines, group, cluster)
  {
    if lines != [] {
      var n := |lines| - 1;
      ZeroMatches(lines[..n], group, cluster);
      forall i | 0 <= i < |lines| && i in group ensures !Differs(lines[i], ObjectOf(lines[i], cluster)) {
        if i < n {
          assert lines[..n][i] == lines[i];
        }
      }
    }
  }

  /** Eviction never starves a whole separate group: when some resource of it differs, the move of
      some resource of it is in the plan. */
  lemma {:induction false} SomeMoveRuns(lines: seq<Resource>, server: Server, group: Group, w: World,
                                        order: seq<Category>, n: nat, i: nat)
    returns (k: nat)
    requires WellFormed(lines, w.cluster) && Legal(QuietTurn(lines, server, w.cluster, order, n), w)
    requires Separate(lines, group) && i in group && i < |lines| && Differs(lines[i], ObjectOf(lines[i], w.cluster))
    ensures !PlanAll(Builtin(w.cluster), lines, w.status).refused && k < |lines| && k in group
    ensures var t := QuietTurn(lines, server, w.cluster, order, n);
      var o := ObjectOf(lines[k], w.cluster); Differs(lines[k], o) && Move(lines[k], o) in PlanOf(t, w)
  {
    var t := QuietTurn(lines, server, w.cluster, order, n);
    CollectedMoves(lines, w.cluster, w.status);
    var p := PlanAll(t.st, t.lines, w.status);
    PlanShape(p.log, order);
    var m := Move(lines[i], ObjectOf(lines[i], w.cluster));
    MoveOf(lines[i], w.cluster, w.status);
    assert Moved(lines[i], w.cluster, p.log);
    assert KeyOf(m) in KeysOf(PlanOf(t, w));
    var c :| c in PlanOf(t, w) && KeyOf(c) == KeyOf(m);
    assert Mutating(c.action);
    k :| 0 <= k < |lines| && IsMove(lines[k], w.cluster, c);
    MoveCarries(lines[i], ObjectOf(lines[i], w.cluster));
    MoveCarries(lines[k], ObjectOf(lines[k], w.cluster));
  }

  /** One quiet reconcile without a panic: no handler panics afterwards; and when no resource of a
      separate group is stuck, none gets stuck, and unless the group matches its measure drops. */
  lemma {:induction false} QuietRound(lines: seq<Resource>, server: Server, group: Group, w: World,
                                      order: seq<Category>, n: nat)
    requires WellFormed(lines, w.cluster) && Separate(lines, group) && GroupFree(server, lines, group, w.cluster)
    requires Legal(QuietTurn(lines, server, w.cluster, order, n), w)
    ensures var after := Reconcile(QuietTurn(lines, server, w.cluster, order, n), w).cluster;
      && WellFormed(lines, after) && GroupFree(server, lines, group, after)
      && (GroupMatches(lines, group, w.cluster) ==> GroupMatches(lines, group, after))
      && (!GroupMatches(lines, group, w.cluster) ==>
            Measure(lines, group, after) < Measure(lines, group, w.cluster))
  {
    var after := Reconcile(QuietTurn(lines, server, w.cluster, order, n), w).cluster;
    StaysWellFormed(lines, server, w, order, n);
    forall i | 0 <= i < |lines| && i in group
      ensures !Stuck(server, lines[i], ObjectOf(lines[i], after)) && NoHeavier(lines[i], w.cluster, after)
    {
      QuietLine(lines, server, w, order, n, i);
    }
    if i :| 0 <= i < |lines| && i in group && Differs(lines[i], ObjectOf(lines[i], w.cluster)) {
      var k := SomeMoveRuns(lines, server, group, w, order, n, i);
      QuietLine(lines, server, w, order, n, k);
      MeasureDrops(lines, group, w.cluster, after, k);
    }
  }

  lemma StaysWellFormed(lines: seq<Resource>, server: Server, w: World, order: seq<Category>, n: nat)
    requires WellFormed(lines, w.cluster) && Legal(QuietTurn(lines, server, w.cluster, order, n), w)
    ensures WellFormed(lines, Reconcile(QuietTurn(lines, server, w.cluster, order, n), w).cluster)
  {
    var after := Reconcile(QuietTurn(lines, server, w.cluster, order, n), w).cluster;
    forall i | 0 <= i < |lines| ensures Answers(lines[i], ObjectOf(lines[i], after)) {
      QuietEffect(lines, server, w, order, n, i);
      if Differs(lines[i], ObjectOf(lines[i], w.cluster)) {
        AnswersStay(server, lines[i], ObjectOf(lines[i], w.cluster));
      }
    }
  }

  /** The weight of a resource does not grow, and a matching resource is left alone. */
  ghost predicate NoHeavier(line: Resource, before: Cluster, after: Cluster) {
    && Weight(line, ObjectOf(line, after)) <= Weight(line, ObjectOf(line, before))
    && (!Differs(line, ObjectOf(line, before)) ==> ObjectOf(line, after) == ObjectOf(line, before))
  }

  /** What a quiet reconcile does to one resource that is not stuck. */
  lemma QuietLine(lines: seq<Resource>, server: Server, w: World, order: seq<Category>, n: nat, i: nat)
    requires WellFormed(lines, w.cluster) && i < |lines| && !Stuck(server, lines[i], ObjectOf(lines[i], w.cluster))
    requires Legal(QuietTurn(lines, server, w.cluster, order, n), w)
    ensures var t := QuietTurn(lines, server, w.cluster, order, n);
      var o, after := ObjectOf(lines[i], w.cluster), Reconcile(t, w).cluster;
      && !PlanAll(t.st, t.lines, w.status).refused
      && !Stuck(server, lines[i], ObjectOf(lines[i], after)) && NoHeavier(lines[i], w.cluster, after)
      && (Differs(lines[i], o) && Move(lines[i], o) in PlanOf(t, w) ==>
            Weight(lines[i], ObjectOf(lines[i], after)) < Weight(lines[i], o))
  {
    QuietEffect(lines, server, w, order, n, i);
    if Differs(lines[i], ObjectOf(lines[i], w.cluster)) {
      Progress(server, lines[i], ObjectOf(lines[i], w.cluster));
    }
  }

  /** A matching cluster stays as it is: nothing is created, updated, deleted or recreated. */
  lemma {:induction false} MatchedIsQuiet(lines: seq<Resource>, server: Server, w: World, order: seq<Category>, n: nat)
    requires WellFormed(lines, w.cluster) && AllMatch(lines, w.cluster)
    requires Legal(QuietTurn(lines, server, w.cluster, order, n), w)
    ensures !PlanAll(Builtin(w.cluster), lines, w.status).refused
    ensures forall c :: c in PlanOf(QuietTurn(lines, server, w.cluster, order, n), w) ==> !Mutating(c.action)
  {
    var t := QuietTurn(lines, server, w.cluster, order, n);
    CollectedMoves(lines, w.cluster, w.status);
    PlanShape(PlanAll(t.st, t.lines, w.status).log, order);
  }

  // ----- whole runs -----

  /** A quiet reconcile of these made lines.  When a handler panics planning is abandoned, and nothing
      is applied or persisted. */
  ghost predicate QuietStep(lines: seq<Resource>, server: Server, t: Turn, w: World, next: World) {
    && t.lines == lines
    && if WellFormed(lines, w.cluster) then
         t == QuietTurn(lines, server, w.cluster, t.order, t.applied) && Legal(t, w) && next == Reconcile(t, w)
       else next == w
  }

  /** A run of quiet reconciles that all make the same lines, with any status and any order of the
      restart map. */
  ghost predicate QuietRun(lines: seq<Resource>, server: Server, ts: seq<Turn>, ws: seq<World>) {
    && DistinctNames(lines) && |ws| == |ts| + 1
    && forall i :: 0 <= i < |ts| ==> QuietStep(lines, server, ts[i], ws[i], ws[i + 1])
  }

  /** A stuck resource stays stuck in every later state, whatever becomes of the others. */
  lemma {:induction false} StaysStuck(lines: seq<Resource>, server: Server, ts: seq<Turn>, ws: seq<World>,
                                      i: nat, k: nat)
    requires QuietRun(lines, server, ts, ws) && k < |ws| && i < |lines|
    requires Stuck(server, lines[i], ObjectOf(lines[i], ws[0].cluster))
    ensures Stuck(server, lines[i], ObjectOf(lines[i], ws[k].cluster))
  {
    if k > 0 {
      StaysStuck(lines, server, ts, ws, i, k - 1);
      assert QuietStep(lines, server, ts[k - 1], ws[k - 1], ws[k - 1 + 1]);
      var w := ws[k - 1];
      if WellFormed(lines, w.cluster) {
        QuietEffect(lines, server, w, ts[k - 1].order, ts[k - 1].applied, i);
        StuckStays(server, lines[i], ObjectOf(lines[i], w.cluster));
      }
    }
  }

  /** A cluster on which a handler panics is never touched again, whatever else has changed. */
  lemma {:induction false} PanicFreezes(lines: seq<Resource>, server: Server, ts: seq<Turn>, ws: seq<World>, k: nat)
    requires QuietRun(lines, server, ts, ws) && k < |ws| && !WellFormed(lines, ws[0].cluster)
    ensures ws[k] == ws[0]
  {
    if k > 0 {
      PanicFreezes(lines, server, ts, ws, k - 1);
      assert QuietStep(lines, server, ts[k - 1], ws[k - 1], ws[k - 1 + 1]);
    }
  }

  /** Without a panic at the start there never is one; and while no resource of a separate group is
      stuck, every reconcile lowers the measure of the group until it matches. */
  lemma {:induction false} RunDrops(lines: seq<Resource>, server: Server, group: Group, ts: seq<Turn>, ws: seq<World>,
                                    k: nat)
    requires QuietRun(lines, server, ts, ws) && k < |ws| && WellFormed(lines, ws[0].cluster)
    requires Separate(lines, group) && GroupFree(server, lines, group, ws[0].cluster)
    ensures WellFormed(lines, ws[k].cluster) && GroupFree(server, lines, group, ws[k].cluster)
    ensures GroupMatches(lines, group, ws[k].cluster) ||
      Measure(lines, group, ws[k].cluster) + k <= Measure(lines, group, ws[0].cluster)
  {
    if k > 0 {
      RunDrops(lines, server, group, ts, ws, k - 1);
      assert QuietStep(lines, server, ts[k - 1], ws[k - 1], ws[k - 1 + 1]);
      QuietRound(lines, server, group, ws[k - 1], ts[k - 1].order, ts[k - 1].applied);
    }
  }

  /** Quiet runs of every length exist, from every world. */
  lemma {:induction false} QuietRunExists(lines: seq<Resource>, server: Server, w: World, n: nat)
    returns (ts: seq<Turn>, ws: seq<World>)
    requires DistinctNames(lines)
    ensures QuietRun(lines, server, ts, ws) && |ts| == n && ws[0] == w
  {
    if n == 0 {
      ts, ws := [], [w];
    } else {
      ts, ws := QuietRunExists(lines, server, w, n - 1);
      var t, next := QuietStepExists(lines, server, ws[n - 1]);
      RunExtends(lines, server, ts, ws, t, next);
      ts, ws := ts + [t], ws + [next];
    }
  }

  lemma RunExtends(lines: seq<Resource>, server: Server, ts: seq<Turn>, ws: seq<World>, t: Turn, next: World)
    requires QuietRun(lines, server, ts, ws) && QuietStep(lines, server, t, ws[|ts|], next)
    ensures QuietRun(lines, server, ts + [t], ws + [next])
  {
    forall i | 0 <= i < |ts| + 1
      ensures QuietStep(lines, server, (ts + [t])[i], (ws + [next])[i], (ws + [next])[i + 1])
    {
      if i < |ts| {
        assert QuietStep(lines, server, ts[i], ws[i], ws[i + 1]);
      }
    }
  }

  lemma QuietStepExists(lines: seq<Resource>, server: Server, w: World) returns (t: Turn, next: World)
    ensures QuietStep(lines, server, t, w, next)
  {
    if WellFormed(lines, w.cluster) {
      var p := PlanAll(Builtin(w.cluster), lines, w.status);
      CollectedMoves(lines, w.cluster, w.status);
      var order := OrderExists(Restarts(p.log).Keys - Skips(p.log));
      t := QuietTurn(lines, server, w.cluster, order, |FinalPlan(p.log, order)|);
      next := Reconcile(t, w);
    } else {
      t, next := QuietTurn(lines, server, w.cluster, [], 0), w;
    }
  }

  lemma NoneStuckIsWellFormed(server: Server, lines: seq<Resource>, cluster: Cluster)
    requires DistinctNames(lines) && NoneStuck(server, lines, cluster)
    ensures WellFormed(lines, cluster)
  {
    forall i | 0 <= i < |lines| ensures Answers(lines[i], Lookup(cluster, lines[i].meta.name)) {
      if !Answers(lines[i], ObjectOf(lines[i], cluster)) {
        PanicIsStuck(server, lines[i], ObjectOf(lines[i], cluster));
      }
    }
  }

  /** Convergence of a group: when no line outside shares a category with one inside, every quiet run,
      however commands evict each other, has the group at its desired fingerprints from reconcile
      Measure on exactly when no resource of the group is stuck at the start, whether or not others
      are.  While a handler panics nothing changes. */
  lemma {:induction false} GroupConverges(lines: seq<Resource>, server: Server, group: Group, ts: seq<Turn>,
                                          ws: seq<World>, k: nat)
    requires QuietRun(lines, server, ts, ws) && Separate(lines, group)
    requires Measure(lines, group, ws[0].cluster) <= k < |ws|
    ensures GroupMatches(lines, group, ws[k].cluster) <==>
      if WellFormed(lines, ws[0].cluster) then GroupFree(server, lines, group, ws[0].cluster)
      else GroupMatches(lines, group, ws[0].cluster)
  {
    if !WellFormed(lines, ws[0].cluster) {
      PanicFreezes(lines, server, ts, ws, k);
    } else if GroupFree(server, lines, group, ws[0].cluster) {
      RunDrops(lines, server, group, ts, ws, k);
      if Measure(lines, group, ws[k].cluster) == 0 {
        ZeroMatches(lines, group, ws[k].cluster);
      }
    } else {
      var i :| 0 <= i < |lines| && i in group && Stuck(server, lines[i], ObjectOf(lines[i], ws[0].cluster));
      StaysStuck(lines, server, ts, ws, i, k);
    }
  }

  /** Convergence: every quiet run, however commands evict each other, has every resource at its
      desired fingerprint from reconcile Measure on, exactly when no resource is stuck at the start. */
  lemma {:induction false} Converges(lines: seq<Resource>, server: Server, ts: seq<Turn>, ws: seq<World>, k: nat)
    requires QuietRun(lines, server, ts, ws) && Measure(lines, Everything(lines), ws[0].cluster) <= k < |ws|
    ensures AllMatch(lines, ws[k].cluster) <==> NoneStuck(server, lines, ws[0].cluster)
  {
    if NoneStuck(server, lines, ws[0].cluster) {
      NoneStuckIsWellFormed(server, lines, ws[0].cluster);
      GroupConverges(lines, server, Everything(lines), ts, ws, k);
    } else {
      var i :| 0 <= i < |lines| && Stuck(server, lines[i], ObjectOf(lines[i], ws[0].cluster));
      StaysStuck(lines, server, ts, ws, i, k);
    }
  }

  // ----- resources that never match -----

  /** Whatever else is made beside it and held by the cluster, a line whose object is o at the start
      matches in no state of any quiet run. */
  ghost predicate NeverMatches(server: Server, line: Resource, o: Option<Object>) {
    forall lines: seq<Resource>, ts: seq<Turn>, ws: seq<World>, i: int, k: int ::
      QuietRun(lines, server, ts, ws) && 0 <= i < |lines| && lines[i] == line &&
      ObjectOf(line, ws[0].cluster) == o && 0 <= k < |ws| ==>
        Differs(line, ObjectOf(line, ws[k].cluster))
  }

  lemma StuckNeverMatches(server: Server, line: Resource, o: Option<Object>)
    requires Stuck(server, line, o)
    ensures NeverMatches(server, line, o)
  {
    forall lines: seq<Resource>, ts: seq<Turn>, ws: seq<World>, i: int, k: int |
      QuietRun(lines, server, ts, ws) && 0 <= i < |lines| && lines[i] == line &&
      ObjectOf(line, ws[0].cluster) == o && 0 <= k < |ws|
      ensures Differs(line, ObjectOf(line, ws[k].cluster))
    {
      StaysStuck(lines, server, ts, ws, i, k);
    }
  }

  /** A resource that is asked for and marked for deletion, and does not exist. */
  lemma MarkedNeverMatches(server: Server, line: Resource)
    requires line.desired.Some? && ControlDelete(line.desired.value)
    ensures NeverMatches(server, line, None)
  {
    StuckNeverMatches(server, line, None);
  }

  /** A service that has an address and is asked to leave it. */
  lemma AddressNeverMatches(server: Server, line: Resource, o: Object)
    requires line.meta.kind == Service && line.desired.Some? && !ControlDelete(Merge(o, line.desired.value))
    requires LeavesAddress(server, line.meta.name, o, line.desired.value)
    ensures NeverMatches(server, line, Some(o))
  {
    assert Merge(o, line.desired.value).fields[CLUSTER_IP] != o.fields[CLUSTER_IP];
    StuckNeverMatches(server, line, Some(o));
  }

  /** A StatefulSet without claim templates that is offered one, or another selector. */
  lemma PanicNeverMatches(server: Server, line: Resource, o: Object)
    requires line.meta.kind == StatefulSet && line.desired.Some? && !ControlDelete(Merge(o, line.desired.value))
    requires OffersClaims(o, line.desired.value)
    ensures NeverMatches(server, line, Some(o))
  {
    StuckNeverMatches(server, line, Some(o));
  }

  /** The API server keeps the text data of a secret to itself. */
  ghost predicate WriteOnlyData(server: Server, line: Resource)
    requires line.desired.Some?
  {
    line.meta.name in server && line.desired.value.fields.Keys <= server[line.meta.name].fields.dropped
  }

  /** A secret with data never matches once it is missing or stored: what is read back lacks the data,
      and every reconcile updates it again. */
  lemma SecretNeverMatches(server: Server, line: Resource, o: Option<Object>, g: Object)
    requires line.meta.kind == Secret && line.desired.Some? && WriteOnlyData(server, line)
    requires line.desired.value.fields != map[] && (o.None? || o == Some(Admit(server, line.meta.name, g)))
    ensures NeverMatches(server, line, o)
  {
    var key :| key in line.desired.value.fields;
    assert !Kept(server[line.meta.name].fields, line.desired.value.fields);
    if o.Some? {
      UnkeptStored(server, line, g);
    }
    StuckNeverMatches(server, line, o);
  }
}
