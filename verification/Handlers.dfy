/** The built-in handlers: what a changed resource is answered with, and how a StatefulSet is scaled
    one pod at a time. */
module Handlers {
  import opened Types
  import opened Planning

  const CONTROL_LABEL := "app.kubernetes.io/control"
  const CLUSTER_IP := "ClusterIP"
  const INT32_MAX := 0x7fff_ffff

  function Plain(a: Action, category: Category, message: string, target: Option<Object>): Command {
    Command(a, category, None, message, target, NoPods)
  }

  predicate ControlDelete(o: Object) {
    LabelOf(o.labels, CONTROL_LABEL) == "Delete"
  }

  /** The base handler: create, update, delete or nothing. */
  function BasePreApply(observed: Option<Object>, desired: Option<Object>): Command {
    if (observed.Some? && desired.None?) || (desired.Some? && ControlDelete(desired.value)) then
      Plain(Delete, "", "", if observed.Some? then observed else desired)
    else if observed.None? && desired.Some? then Plain(Create, "", "", desired)
    else if observed.Some? && desired.Some? then Plain(Update, "", "", desired)
    else Plain(Non, "", "", None)
  }

  // ----- config maps and services -----

  function ConfigMapPreApply(observed: Option<Object>, desired: Option<Object>): seq<Command> {
    var act := BasePreApply(observed, desired);
    if act.action == Update then
      [act, GetRestartCommand(desired.value, LabelOf(desired.value.labels, REFERENCE_LABEL), 0, "config changed")]
    else [act]
  }

  /** An update keeps the cluster address the service already has. */
  function ServicePreApply(observed: Option<Object>, desired: Option<Object>): seq<Command> {
    var act := BasePreApply(observed, desired);
    if act.action == Update && LabelOf(observed.value.fields, CLUSTER_IP) != "" then
      var fields := desired.value.fields[CLUSTER_IP := observed.value.fields[CLUSTER_IP]];
      [act.(target := Some(desired.value.(fields := fields)))]
    else [act]
  }

  // ----- claims -----

  function Compare(a: int, b: int): int {
    if a < b then -1 else if a == b then 0 else 1
  }

  /** Whether the requested storage grows (1), stays (0) or may not be changed so (error). */
  function ValidateClaim(observed: Claim, desired: Claim): (int, bool) {
    if observed.request.None? then
      if desired.request.None? then (0, false) else (1, false)
    else if desired.request.None? then (-1, true)
    else
      var request := Compare(desired.request.value, observed.request.value);
      if request == -1 then (request, true)
      else if observed.limit.Some? && Compare(desired.request.value, observed.limit.value) == 1 then (request, true)
      else (request, false)
  }

  // ----- the stateful set -----

  /** The replica count OrderedReadyPodManagement leaves in the desired object. */
  function OrderedCount(replicas: int, size: int): int {
    if replicas == 0 || size == 0 || replicas == size then size
    else if replicas > size then replicas - 1
    else replicas + 1
  }

  /** The replica count RecreateCheck leaves in the desired object, and the number of pods its
      restart names. */
  function RecreateCount(replicas: int, size: int): (int, int) {
    if replicas > size then (replicas - 1, size)
    else if replicas < size then (replicas + 1, replicas)
    else (replicas, replicas)
  }

  /** What RecreateCheck compares: the selector text and the claim texts by position.  The claims of
      both sides go into the observed data. */
  datatype Cared = Cared(selector: Option<string>, claims: map<nat, Claim>)

  function ClaimMap(claims: seq<Claim>): map<nat, Claim> {
    map i: nat | i < |claims| :: claims[i]
  }

  predicate RecreateNeeded(observed: Object, desired: Object) {
    Cared(observed.selector, ClaimMap(observed.claims) + ClaimMap(desired.claims)) != Cared(desired.selector, map[])
  }

  /** Panics models the out-of-range index on an empty claim list. */
  datatype Recheck = Keeps | Recreates(acts: seq<Command>, replicas: int) | Panics

  function RecreateCheck(observed: Object, desired: Object): Recheck {
    if !RecreateNeeded(observed, desired) then Keeps
    else if observed.claims == [] || desired.claims == [] then Panics
    else
      var (scale, error) := ValidateClaim(observed.claims[0], desired.claims[0]);
      if error then Keeps
      else
        var category := LabelOf(desired.labels, CATEGORY_LABEL);
        var (step, effective) := RecreateCount(observed.replicas, desired.replicas);
        var recreate := Plain(ReCreate, category, "recreate", None);
        Recreates(
          if scale == 0 then [recreate]
          else [Plain(RollingUpdate, desired.claims[0].category, "", None), recreate,
                GetRestartCommand(desired, category, effective, "recreate")],
          step)
  }

  /** The restart of a changed pod template names the pods that exist before and after the step. */
  function RestartCheck(observed: Object, desired: Object): seq<Command> {
    if observed.template == desired.template then []
    else
      [GetRestartCommand(desired, LabelOf(desired.labels, CATEGORY_LABEL),
        if observed.replicas > desired.replicas then desired.replicas else observed.replicas, "template changed")]
  }

  /** Update and ReCreate hold a pointer to the desired object, so they push what it is in the end. */
  function Aim(cs: seq<Command>, o: Object): (r: seq<Command>)
    ensures |r| == |cs|
    ensures forall i :: 0 <= i < |cs| ==>
      r[i] == if cs[i].action == Update || cs[i].action == ReCreate then cs[i].(target := Some(o)) else cs[i]
  {
    seq(|cs|, i requires 0 <= i < |cs| =>
      if cs[i].action == Update || cs[i].action == ReCreate then cs[i].(target := Some(o)) else cs[i])
  }

  /** The ordered update, or the recreation that replaces it. */
  function Head(check: Recheck): seq<Command> {
    if check.Recreates? then check.acts else [Plain(Update, "", "", None)]
  }

  /** The commands for a StatefulSet that is to be updated, and the desired object they push; None
      when the code panics. */
  function UpdateSet(observed: Object, desired: Object): Option<(seq<Command>, Object)> {
    var ordered := desired.(replicas := OrderedCount(observed.replicas, desired.replicas));
    var check := RecreateCheck(observed, ordered);
    if check.Panics? then None
    else
      var pushed := if check.Recreates? then ordered.(replicas := check.replicas) else ordered;
      Some((Aim(Head(check) + RestartCheck(observed, pushed), pushed), pushed))
  }

  // ----- the in-place handler -----

  /** A StatefulSet object; the handler overwrites its replica count. */
  class StatefulSetObject {
    const made: Object
    var replicas: int

    constructor (made: Object)
      ensures this.made == made && Value() == made
    {
      this.made := made;
      this.replicas := made.replicas;
    }

    function Value(): Object
      reads this
    {
      made.(replicas := replicas)
    }
  }

  method OrderedReadyPodManagement(observed: StatefulSetObject, desired: StatefulSetObject)
    returns (cmd: Option<Command>)
    requires observed != desired
    modifies desired`replicas
    ensures desired.replicas == OrderedCount(observed.replicas, old(desired.replicas))
    ensures cmd == if observed.replicas == 0 || old(desired.replicas) == 0 || observed.replicas == old(desired.replicas)
                   then None else Some(Plain(Update, "", "", None))
  {
    var replicas, size := observed.replicas, desired.replicas;
    if replicas == 0 || size == 0 || replicas == size {
      return None;
    }
    var count := replicas;
    if replicas > size {
      count := replicas - 1;
    } else if replicas < size {
      count := replicas + 1;
    }
    desired.replicas := count;
    return Some(Plain(Update, "", "", None));
  }

  /** Reads the count OrderedReadyPodManagement left behind and overwrites it again. */
  method RecheckInPlace(observed: StatefulSetObject, desired: StatefulSetObject) returns (check: Recheck)
    requires observed != desired
    modifies desired`replicas
    ensures check == RecreateCheck(observed.Value(), old(desired.Value()))
    ensures desired.replicas == if check.Recreates? then check.replicas else old(desired.replicas)
  {
    var o, d := observed.Value(), desired.Value();
    if !RecreateNeeded(o, d) {
      return Keeps;
    }
    if o.claims == [] || d.claims == [] {
      return Panics;
    }
    var (scale, error) := ValidateClaim(o.claims[0], d.claims[0]);
    if error {
      return Keeps;
    }
    var replicas, size := observed.replicas, desired.replicas;
    var step, effective := replicas, replicas;
    if replicas > size {
      step, effective := replicas - 1, size;
    } else if replicas < size {
      step := replicas + 1;
    }
    desired.replicas := step;
    var category := LabelOf(d.labels, CATEGORY_LABEL);
    var acts := [Plain(ReCreate, category, "recreate", None)];
    if scale != 0 {
      acts := [Plain(RollingUpdate, d.claims[0].category, "", None)] + acts +
              [GetRestartCommand(d, category, effective, "recreate")];
    }
    return Recreates(acts, step);
  }

  /** The update branch of the handler: three steps that overwrite the same replica count. */
  method PreApplyUpdate(observed: StatefulSetObject, desired: StatefulSetObject) returns (acts: Option<seq<Command>>)
    requires observed != desired
    modifies desired`replicas
    ensures var u := UpdateSet(observed.Value(), old(desired.Value()));
      if u.None? then acts.None? else acts == Some(u.value.0) && desired.Value() == u.value.1
  {
    var act := [Plain(Update, "", "", None)];
    var cmd := OrderedReadyPodManagement(observed, desired);
    if cmd.Some? {
      act := [cmd.value];
    }
    var check := RecheckInPlace(observed, desired);
    if check.Panics? {
      return None;
    }
    if check.Recreates? {
      act := check.acts;
    }
    act := act + RestartCheck(observed.Value(), desired.Value());
    return Some(Aim(act, desired.Value()));
  }

  // ----- step scaling -----

  /** The recreate check asks for a recreation exactly when the selectors differ or either side has
      a claim template: the desired templates never reach the desired side of the comparison. */
  lemma RecreateNeededIff(observed: Object, desired: Object)
    ensures RecreateNeeded(observed, desired) <==>
      observed.selector != desired.selector || observed.claims != [] || desired.claims != []
  {
    var m := ClaimMap(observed.claims) + ClaimMap(desired.claims);
    if observed.claims != [] {
      assert 0 in m;
    }
    if desired.claims != [] {
      assert 0 in m;
    }
  }

  /** The recreate check indexes an empty list exactly when one side has no claim template and a
      recreation is asked for nevertheless: the other side has one, or the selectors differ. */
  lemma RecreatePanicsIff(observed: Object, desired: Object)
    ensures RecreateCheck(observed, desired).Panics? <==>
      && (observed.claims == [] || desired.claims == [])
      && (observed.selector != desired.selector || observed.claims != [] || desired.claims != [])
  {
    RecreateNeededIff(observed, desired);
  }

  /** Two inputs on which it does: a first claim template, and other selectors without any.  The
      built-in make always sets one template, so the second needs an extension that removes it. */
  lemma RecreatePanics(o: Object, claim: Claim, selector: string)
    requires o.claims == [] && o.selector != Some(selector)
    ensures RecreateCheck(o, o.(claims := [claim])).Panics?
    ensures RecreateCheck(o, o.(selector := Some(selector))).Panics?
  {
    RecreatePanicsIff(o, o.(claims := [claim]));
    RecreatePanicsIff(o, o.(selector := Some(selector)));
  }

  /** A recreation never shrinks the storage of a claim nor exceeds its limit, and rolls the claims
      exactly when their size changes. */
  lemma RecreateNeverShrinks(observed: Object, desired: Object)
    requires RecreateCheck(observed, desired).Recreates?
    ensures var now, wanted := observed.claims[0], desired.claims[0];
      && (now.request.Some? ==> wanted.request.Some? && now.request.value <= wanted.request.value)
      && (now.request.Some? && now.limit.Some? ==> wanted.request.value <= now.limit.value)
      && ((exists c :: c in RecreateCheck(observed, desired).acts && c.action == RollingUpdate) <==>
            wanted.request != now.request)
  {
    var acts := RecreateCheck(observed, desired).acts;
    if desired.claims[0].request != observed.claims[0].request {
      assert acts[0] in acts && acts[0].action == RollingUpdate;
    }
  }

  /** The recreate step, which reads back the ordered step, arrives at the same count, and its
      restart names the pods that exist before and after. */
  lemma StepsAgree(replicas: int, size: int)
    requires 1 <= replicas && 1 <= size
    ensures var p := OrderedCount(replicas, size);
      && RecreateCount(replicas, p) == (p, Min(replicas, p))
      && 1 <= p && (replicas <= p <= size || size <= p <= replicas) && -1 <= p - replicas <= 1
      && (p == replicas <==> replicas == size)
  {
  }

  lemma AimedAt(raw: seq<Command>, o: Object, c: Command)
    requires c in Aim(raw, o)
    ensures exists d :: d in raw && c == if d.action == Update || d.action == ReCreate then d.(target := Some(o)) else d
  {
    var j :| 0 <= j < |raw| && Aim(raw, o)[j] == c;
    assert raw[j] in raw;
  }

  /** Observed at least one pod and wanting at least one: the pushed count moves towards the target
      by at most one pod, whether or not a recreation fires, and nothing else of the desired object
      changes. */
  lemma OnePodAtATime(observed: Object, desired: Object)
    requires 1 <= observed.replicas && 1 <= desired.replicas && UpdateSet(observed, desired).Some?
    ensures var r, size, p := observed.replicas, desired.replicas, UpdateSet(observed, desired).value.1.replicas;
      && 1 <= p && (r <= p <= size || size <= p <= r) && -1 <= p - r <= 1 && (p == r <==> r == size)
      && UpdateSet(observed, desired).value.1 == desired.(replicas := p)
  {
    StepsAgree(observed.replicas, desired.replicas);
  }

  lemma HeadCommands(observed: Object, ordered: Object, c: Command)
    requires c in Head(RecreateCheck(observed, ordered))
    ensures c.action in {Update, ReCreate, RollingUpdate, Restart}
    ensures c.action == Restart ==> c.pods.Pods? && c.pods.count == RecreateCount(observed.replicas, ordered.replicas).1
  {
  }

  /** Every attached restart names the pods that exist both before and after the step; every update
      or recreation pushes the final desired object. */
  lemma AttachedCommands(observed: Object, desired: Object, c: Command)
    requires 1 <= observed.replicas && 1 <= desired.replicas && UpdateSet(observed, desired).Some?
    requires c in UpdateSet(observed, desired).value.0
    ensures var pushed := UpdateSet(observed, desired).value.1;
      && (c.action == Restart ==> c.pods.Pods? && c.pods.count == Min(observed.replicas, pushed.replicas) >= 1)
      && (c.action == Update || c.action == ReCreate ==> c.target == Some(pushed))
      && c.action in {Update, ReCreate, RollingUpdate, Restart}
  {
    StepsAgree(observed.replicas, desired.replicas);
    var pushed := UpdateSet(observed, desired).value.1;
    var check := RecreateCheck(observed, desired.(replicas := OrderedCount(observed.replicas, desired.replicas)));
    AimedAt(Head(check) + RestartCheck(observed, pushed), pushed, c);
    var d :| d in Head(check) + RestartCheck(observed, pushed) &&
      c == if d.action == Update || d.action == ReCreate then d.(target := Some(pushed)) else d;
    if d in Head(check) {
      HeadCommands(observed, desired.(replicas := OrderedCount(observed.replicas, desired.replicas)), d);
    }
  }

  // ----- which commands the pre-applies answer with -----

  function Actions(cs: seq<Command>): (r: seq<Action>)
    ensures |r| == |cs| && forall i :: 0 <= i < |cs| ==> r[i] == cs[i].action
  {
    seq(|cs|, i requires 0 <= i < |cs| => cs[i].action)
  }

  /** The storage a claim asks for may be changed so: whatever was not asked for before, and otherwise
      no less, and no more than the observed limit. */
  predicate StorageMayChange(observed: Claim, desired: Claim) {
    observed.request.Some? ==>
      && desired.request.Some? && observed.request.value <= desired.request.value
      && (observed.limit.Some? ==> desired.request.value <= observed.limit.value)
  }

  /** A recreation fires: both sides have a claim template, and the first one may change so. */
  predicate Fires(observed: Object, desired: Object) {
    observed.claims != [] && desired.claims != [] && StorageMayChange(observed.claims[0], desired.claims[0])
  }

  predicate StorageChanges(observed: Object, desired: Object)
    requires observed.claims != [] && desired.claims != []
  {
    observed.claims[0].request != desired.claims[0].request
  }

  /** Which actions a StatefulSet update is answered with, in this order: an update, or a recreation
      where one fires, wrapped in an expansion of the claims and a restart when the storage changes;
      and last a restart when the pod templates differ. */
  lemma UpdateActions(observed: Object, desired: Object)
    requires UpdateSet(observed, desired).Some?
    ensures Actions(UpdateSet(observed, desired).value.0) ==
      (if !Fires(observed, desired) then [Update]
       else if !StorageChanges(observed, desired) then [ReCreate]
       else [RollingUpdate, ReCreate, Restart]) +
      (if observed.template != desired.template then [Restart] else [])
  {
    var ordered := desired.(replicas := OrderedCount(observed.replicas, desired.replicas));
    var pushed := UpdateSet(observed, desired).value.1;
    var head, tail := Head(RecreateCheck(observed, ordered)), RestartCheck(observed, pushed);
    HeadActions(observed, ordered);
    AimedActions(head, tail, pushed);
    assert Actions(tail) == if observed.template != desired.template then [Restart] else [];
  }

  lemma HeadActions(observed: Object, desired: Object)
    requires !RecreateCheck(observed, desired).Panics?
    ensures Actions(Head(RecreateCheck(observed, desired))) ==
      if !Fires(observed, desired) then [Update]
      else if !StorageChanges(observed, desired) then [ReCreate]
      else [RollingUpdate, ReCreate, Restart]
  {
    RecreateNeededIff(observed, desired);
  }

  lemma AimedActions(head: seq<Command>, tail: seq<Command>, o: Object)
    ensures Actions(Aim(head + tail, o)) == Actions(head) + Actions(tail)
  {
  }

  /** A restart is attached exactly when the pod templates differ or a recreation changes the storage. */
  lemma RestartAttachedIff(observed: Object, desired: Object)
    requires UpdateSet(observed, desired).Some?
    ensures (exists c :: c in UpdateSet(observed, desired).value.0 && c.action == Restart) <==>
      observed.template != desired.template || (Fires(observed, desired) && StorageChanges(observed, desired))
  {
    var cs := UpdateSet(observed, desired).value.0;
    UpdateActions(observed, desired);
    if observed.template != desired.template || (Fires(observed, desired) && StorageChanges(observed, desired)) {
      var i := |cs| - 1;
      assert Actions(cs)[i] == Restart && cs[i] in cs;
    }
    if c :| c in cs && c.action == Restart {
      var i :| 0 <= i < |cs| && cs[i] == c;
      assert Actions(cs)[i] == Restart;
    }
  }

  /** Every attached restart names the category of the set and the pods 0 .. min(r, p) - 1 of it, r
      observed and p pushed; a recreation carries the category, an expansion that of the claims. */
  lemma AttachedTargets(observed: Object, desired: Object, c: Command, category: string, instance: string)
    requires 1 <= observed.replicas && 1 <= desired.replicas && UpdateSet(observed, desired).Some?
    requires c in UpdateSet(observed, desired).value.0
    requires Labelled(desired, CATEGORY_LABEL, category) && Labelled(desired, INSTANCE_LABEL, instance)
    ensures c.action == Restart ==>
      && c.category == category
      && c.pods ==
           Pods(instance + "-" + category, Min(observed.replicas, UpdateSet(observed, desired).value.1.replicas))
    ensures c.action == ReCreate ==> c.category == category
    ensures c.action == RollingUpdate ==> c.category == desired.claims[0].category
  {
    StepsAgree(observed.replicas, desired.replicas);
    var ordered := desired.(replicas := OrderedCount(observed.replicas, desired.replicas));
    var pushed := UpdateSet(observed, desired).value.1;
    AimedAt(Head(RecreateCheck(observed, ordered)) + RestartCheck(observed, pushed), pushed, c);
    var d :| d in Head(RecreateCheck(observed, ordered)) + RestartCheck(observed, pushed) &&
      c == if d.action == Update || d.action == ReCreate then d.(target := Some(pushed)) else d;
    if d in Head(RecreateCheck(observed, ordered)) {
      HeadTargets(observed, ordered, d);
    }
  }

  lemma HeadTargets(observed: Object, ordered: Object, c: Command)
    requires c in Head(RecreateCheck(observed, ordered))
    ensures var category := LabelOf(ordered.labels, CATEGORY_LABEL);
      && (c.action == Restart || c.action == ReCreate ==> c.category == category)
      && (c.action == RollingUpdate ==> ordered.claims != [] && c.category == ordered.claims[0].category)
      && (c.action == Restart ==>
            c.pods == Pods(LabelOf(ordered.labels, INSTANCE_LABEL) + "-" + category,
                           RecreateCount(observed.replicas, ordered.replicas).1))
  {
  }

  /** From no pod, or to none, the set is scaled at once; but a recreation that fires overwrites that
      count, so then the set goes by one pod here too. */
  lemma FromOrToZero(observed: Object, desired: Object)
    requires UpdateSet(observed, desired).Some? && (observed.replicas == 0 || desired.replicas == 0)
    ensures UpdateSet(observed, desired).value.1.replicas ==
      if !Fires(observed, desired) || observed.replicas == desired.replicas then desired.replicas
      else if desired.replicas == 0 then
        (if observed.replicas > 0 then observed.replicas - 1 else observed.replicas + 1)
      else if desired.replicas > 0 then 1 else -1
  {
    RecreateNeededIff(observed, desired.(replicas := OrderedCount(observed.replicas, desired.replicas)));
  }

  /** The base answer: exactly one action, by presence and the deletion mark; each acts on the desired
      object, a deletion on the observed one if there is one. */
  lemma BaseAnswer(observed: Option<Object>, desired: Option<Object>)
    ensures var c := BasePreApply(observed, desired);
      var marked := desired.Some? && Labelled(desired.value, CONTROL_LABEL, "Delete");
      && (c.action == Delete <==> marked || (observed.Some? && desired.None?))
      && (c.action == Create <==> observed.None? && desired.Some? && !marked)
      && (c.action == Update <==> observed.Some? && desired.Some? && !marked)
      && (c.action == Non <==> observed.None? && desired.None?)
      && c.owner.None? && c.category == "" && c.pods == NoPods
      && c.target == if c.action == Delete && observed.Some? then observed else desired
  {
  }

  /** An update of a ConfigMap, and nothing else, is followed by a restart of the whole component it
      refers to: no pods are listed, so those of the spec are taken. */
  lemma ConfigMapAnswer(observed: Option<Object>, desired: Option<Object>, reference: string, instance: string)
    requires desired.Some? ==>
      Labelled(desired.value, REFERENCE_LABEL, reference) && Labelled(desired.value, INSTANCE_LABEL, instance)
    ensures var cs := ConfigMapPreApply(observed, desired);
      && cs[0] == BasePreApply(observed, desired)
      && if observed.Some? && desired.Some? && !Labelled(desired.value, CONTROL_LABEL, "Delete") then
           |cs| == 2 && cs[1].action == Restart && cs[1].category == reference
           && cs[1].pods == Pods(instance + "-" + reference, 0)
         else |cs| == 1
  {
  }

  /** The count after k reconciles that each push what the handler computes. */
  function Pushed(observed: Object, desired: Object, k: nat): (r: Option<int>)
    decreases k
  {
    if k == 0 then Some(observed.replicas)
    else
      var before := Pushed(observed, desired, k - 1);
      if before.None? then None
      else
        var u := UpdateSet(observed.(replicas := before.value), desired);
        if u.None? then None else Some(u.value.1.replicas)
  }

  function Distance(a: int, b: int): nat {
    if a <= b then b - a else a - b
  }

  /** Repeated reconciles reach the target size in exactly |size - r| steps and not before, never
      leaving the range between the two, hence never overflowing. */
  lemma {:induction false} ScalingConverges(observed: Object, desired: Object, k: nat)
    requires 1 <= observed.replicas <= INT32_MAX && 1 <= desired.replicas <= INT32_MAX
    requires !RecreateNeeded(observed, desired) || (observed.claims != [] && desired.claims != [])
    ensures var p := Pushed(observed, desired, k);
      && p.Some? && 1 <= p.value <= INT32_MAX
      && Distance(p.value, desired.replicas) ==
           var d := Distance(observed.replicas, desired.replicas); if k <= d then d - k else 0
  {
    if k > 0 {
      ScalingConverges(observed, desired, k - 1);
      var now := observed.(replicas := Pushed(observed, desired, k - 1).value);
      OnePodAtATime(now, desired);
    }
  }
}
