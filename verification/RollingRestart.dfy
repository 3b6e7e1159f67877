/** The rolling restart of kernel/util/buildin_resource_client.go (failOver = false, waitReady = true)
    as a protocol: steps of the operator interleaved with steps of the cluster. */
module RollingRestart {
  import opened Types

  /** A pod as the operator can tell: its UID, whether it counts as ready, and whether its deletion
      was requested.  Readiness does not look at the deletion request. */
  datatype Pod = Pod(uid: nat, ready: bool, terminating: bool)

  /** The pods of the templates, by template position, and a bound above all UIDs given out. */
  datatype Snapshot = Snapshot(pods: seq<Option<Pod>>, unused: nat)

  /** Why the templates are looked up: to validate them, or to see whether pod k is back. */
  datatype Why = Validate | Await(k: nat, seen: seq<Pod>)

  /** Where the operator is: looking templates up one by one, about to delete pod k, or done. */
  datatype Pc =
    | Looking(found: seq<Option<Pod>>, why: Why)
    | Deleting(k: nat, seen: seq<Pod>)
    | Done(error: bool, seen: seq<Pod>)

  /** issued says that some delete call was made. */
  datatype Moment = Moment(cluster: Snapshot, pc: Pc, issued: bool)

  predicate Good(p: Option<Pod>) {
    p.Some? && p.value.ready && !p.value.terminating
  }

  // ----- steps of the cluster -----

  /** A good pod is left alone.  Any other may vanish, change readiness, or be replaced by a new pod
      with a fresh UID; a requested deletion is neither taken back nor newly requested. */
  predicate PodMoves(p: Option<Pod>, q: Option<Pod>, low: nat, high: nat) {
    p == q || (!Good(p) && (q.None? ||
      if p.Some? && q.value.uid == p.value.uid then q.value.terminating == p.value.terminating
      else low <= q.value.uid < high && !q.value.terminating))
  }

  predicate ClusterMoves(a: Snapshot, b: Snapshot) {
    |a.pods| == |b.pods| && a.unused <= b.unused &&
    forall i :: 0 <= i < |a.pods| ==> PodMoves(a.pods[i], b.pods[i], a.unused, b.unused)
  }

  // ----- steps of the operator -----

  predicate AllNone(found: seq<Option<Pod>>) {
    forall i :: 0 <= i < |found| ==> found[i].None?
  }

  predicate AllReady(found: seq<Option<Pod>>) {
    forall i :: 0 <= i < |found| ==> found[i].Some? && found[i].value.ready
  }

  function Values(found: seq<Option<Pod>>): (r: seq<Pod>)
    requires AllReady(found)
    ensures |r| == |found| && forall i :: 0 <= i < |found| ==> r[i] == found[i].value
  {
    seq(|found|, i requires 0 <= i < |found| => found[i].value)
  }

  /** After a complete first look: nothing to do, an error, or all pods were found and ready. */
  function Validated(found: seq<Option<Pod>>): Pc {
    if AllNone(found) then Done(false, [])
    else if AllReady(found) then Deleting(0, Values(found))
    else Done(true, [])
  }

  /** Whether the wait for pod k is over: everything is gone, or k is back with a new UID and ready. */
  predicate Returned(found: seq<Option<Pod>>, k: nat, seen: seq<Pod>)
    requires k < |found| == |seen|
  {
    AllNone(found) || (found[k].Some? && found[k].value.uid != seen[k].uid && found[k].value.ready)
  }

  function Requested(pods: seq<Option<Pod>>, k: nat): (r: seq<Option<Pod>>)
    requires k < |pods|
  {
    if pods[k].None? then pods else pods[k := Some(pods[k].value.(terminating := true))]
  }

  /** A wait goes on with a new look, or times out. */
  predicate Retries(pc: Pc, k: nat, seen: seq<Pod>) {
    pc == Looking([], Await(k, seen)) || pc == Done(true, seen)
  }

  /** One look-up or one evaluation of a complete look. */
  predicate Looks(pods: seq<Option<Pod>>, found: seq<Option<Pod>>, why: Why, next: Pc) {
    if |found| < |pods| then
      || next == Looking(found + [pods[|found|]], why)
      || (match why case Validate => next == Done(true, []) case Await(k, seen) => Retries(next, k, seen))
    else
      match why
      case Validate => next == Validated(found)
      case Await(k, seen) =>
        && k < |found| == |seen|
        && if Returned(found, k, seen) then next == Deleting(k + 1, seen) else Retries(next, k, seen)
  }

  /** The deletion of pod k: it succeeds, or fails with or without effect. */
  predicate Deletes(pods: seq<Option<Pod>>, k: nat, seen: seq<Pod>, after: seq<Option<Pod>>, next: Pc) {
    k < |pods| && (
      || (after == Requested(pods, k) && next == Looking([], Await(k, seen)))
      || ((after == pods || after == Requested(pods, k)) && next == Done(true, seen)))
  }

  predicate OperatorMoves(s: Moment, t: Moment) {
    t.cluster.unused == s.cluster.unused &&
    match s.pc
    case Looking(found, why) =>
      t.cluster == s.cluster && t.issued == s.issued && Looks(s.cluster.pods, found, why, t.pc)
    case Deleting(k, seen) =>
      if k >= |s.cluster.pods| then t == s.(pc := Done(false, seen))
      else t.issued && Deletes(s.cluster.pods, k, seen, t.cluster.pods, t.pc)
    case Done(_, _) => false
  }

  predicate Step(s: Moment, t: Moment) {
    || OperatorMoves(s, t)
    || (t.pc == s.pc && t.issued == s.issued && ClusterMoves(s.cluster, t.cluster))
  }

  /** The first state; an empty template list is an error. */
  function Begin(c: Snapshot): Moment {
    Moment(c, if c.pods == [] then Done(true, []) else Looking([], Validate), false)
  }

  ghost predicate IsHistory(run: seq<Moment>) {
    run != [] && forall i :: 0 <= i < |run| - 1 ==> Step(run[i], run[i + 1])
  }

  ghost predicate UidsInUse(c: Snapshot) {
    forall i :: 0 <= i < |c.pods| && c.pods[i].Some? ==> c.pods[i].value.uid < c.unused
  }

  ghost predicate NoneTerminating(c: Snapshot) {
    forall i :: 0 <= i < |c.pods| && c.pods[i].Some? ==> !c.pods[i].value.terminating
  }

  /** At most one pod is absent, on its way out or not ready. */
  ghost predicate AtMostOneDown(c: Snapshot) {
    forall i, j :: 0 <= i < j < |c.pods| ==> Good(c.pods[i]) || Good(c.pods[j])
  }

  // ----- the invariant -----

  ghost predicate AllGoodBut(c: Snapshot, k: int) {
    forall i :: 0 <= i < |c.pods| && i != k ==> Good(c.pods[i])
  }

  /** Pods before k are back with new UIDs, pods from k on are still the ones that were seen. */
  ghost predicate Advanced(c: Snapshot, k: nat, seen: seq<Pod>) {
    && |seen| == |c.pods| && k <= |seen|
    && (forall i :: 0 <= i < k && c.pods[i].Some? ==> c.pods[i].value.uid != seen[i].uid)
    && (forall i :: k <= i < |seen| ==> c.pods[i] == Some(seen[i]))
  }

  ghost predicate SeenGood(c: Snapshot, found: seq<Option<Pod>>) {
    |found| <= |c.pods| && forall i :: 0 <= i < |found| && found[i].Some? && found[i].value.ready ==>
      Good(found[i]) && c.pods[i] == found[i]
  }

  /** While pod k is awaited: the others are good; k is the pod that was seen, on its way out, or
      absent, or a new one that nobody asked to go. */
  ghost predicate Awaited(c: Snapshot, k: nat, seen: seq<Pod>, found: seq<Option<Pod>>) {
    && k < |seen| == |c.pods| && |found| <= |seen| && seen[k].uid < c.unused
    && AllGoodBut(c, k)
    && (forall i :: 0 <= i < k ==> c.pods[i].value.uid != seen[i].uid)
    && (forall i :: k < i < |seen| ==> c.pods[i] == Some(seen[i]))
    && (c.pods[k].Some? && c.pods[k].value.uid != seen[k].uid ==> !c.pods[k].value.terminating)
    && (forall i :: 0 <= i < |found| && i != k ==> found[i].Some?)
    && (k < |found| && found[k].Some? && found[k].value.uid != seen[k].uid && found[k].value.ready ==>
          Good(found[k]) && c.pods[k] == found[k])
  }

  ghost predicate Inv(s: Moment) {
    && UidsInUse(s.cluster)
    && match s.pc
       case Looking(found, Validate) => !s.issued && NoneTerminating(s.cluster) && SeenGood(s.cluster, found)
       case Looking(found, Await(k, seen)) => Awaited(s.cluster, k, seen, found)
       case Deleting(k, seen) => AllGoodBut(s.cluster, -1) && Advanced(s.cluster, k, seen)
       case Done(error, seen) =>
         && (s.issued ==> exists k: int :: AllGoodBut(s.cluster, k))
         && (!error ==>
               if seen == [] then !s.issued else AllGoodBut(s.cluster, -1) && Advanced(s.cluster, |seen|, seen))
  }

  lemma ClusterKeepsInv(s: Moment, c: Snapshot)
    requires Inv(s) && ClusterMoves(s.cluster, c)
    ensures Inv(s.(cluster := c))
  {
    if s.pc.Done? && s.issued {
      var k: int :| AllGoodBut(s.cluster, k);
      assert AllGoodBut(c, k);
    }
  }

  lemma LookKeepsInv(s: Moment, t: Moment)
    requires Inv(s) && |s.cluster.pods| >= 2 && OperatorMoves(s, t) && s.pc.Looking?
    ensures Inv(t)
  {
    match s.pc.why
    case Validate =>
    case Await(k, seen) =>
      var other := if k == 0 then 1 else 0;
      assert AllGoodBut(s.cluster, k);
      assert other < |s.pc.found| ==> s.pc.found[other].Some?;
      if t.pc.Deleting? {
        assert Good(s.cluster.pods[k]);
      }
  }

  lemma DeleteKeepsInv(s: Moment, t: Moment)
    requires Inv(s) && |s.cluster.pods| >= 2 && OperatorMoves(s, t) && s.pc.Deleting?
    ensures Inv(t)
  {
    if s.pc.k < |s.cluster.pods| {
      assert AllGoodBut(t.cluster, s.pc.k);
    } else {
      assert AllGoodBut(t.cluster, -1);
    }
  }

  lemma StepKeepsInv(s: Moment, t: Moment)
    requires Inv(s) && |s.cluster.pods| >= 2 && Step(s, t)
    ensures Inv(t) && |t.cluster.pods| == |s.cluster.pods|
  {
    if OperatorMoves(s, t) {
      if s.pc.Looking? {
        LookKeepsInv(s, t);
      } else {
        DeleteKeepsInv(s, t);
      }
    } else {
      ClusterKeepsInv(s, t.cluster);
    }
  }

  // ----- safety of every run -----

  /** From a cluster where no deletion is under way: at every step of every run, errors and time-outs
      included, either no delete was issued yet and every pod that was good still is, or at most one
      pod is absent, on its way out or not ready. */
  lemma {:induction false} RunIsSafe(run: seq<Moment>, k: nat)
    requires IsHistory(run) && k < |run| && run[0] == Begin(run[0].cluster)
    requires UidsInUse(run[0].cluster) && NoneTerminating(run[0].cluster) && |run[0].cluster.pods| >= 2
    ensures Inv(run[k]) && |run[k].cluster.pods| == |run[0].cluster.pods|
    ensures if run[k].issued then AtMostOneDown(run[k].cluster)
            else forall i :: 0 <= i < |run[0].cluster.pods| && Good(run[0].cluster.pods[i]) ==>
                   Good(run[k].cluster.pods[i])
  {
    if k > 0 {
      RunIsSafe(run, k - 1);
      StepKeepsInv(run[k - 1], run[k]);
      if run[k].issued {
        var gone: int :| AllGoodBut(run[k].cluster, gone);
      }
    }
  }

  /** The first delete is issued only when every pod is good. */
  lemma FirstDelete(s: Moment, t: Moment)
    requires Inv(s) && |s.cluster.pods| >= 2 && Step(s, t) && !s.issued && t.issued
    ensures forall i :: 0 <= i < |s.cluster.pods| ==> Good(s.cluster.pods[i])
  {
    assert s.pc.Deleting?;
    assert AllGoodBut(s.cluster, -1);
  }

  /** A run that ends without error either found no pod at all and deleted nothing, or every pod it
      had seen is replaced by a good one with another UID. */
  lemma RunSucceeds(run: seq<Moment>, k: nat)
    requires IsHistory(run) && k < |run| && run[0] == Begin(run[0].cluster)
    requires UidsInUse(run[0].cluster) && NoneTerminating(run[0].cluster) && |run[0].cluster.pods| >= 2
    requires run[k].pc.Done? && !run[k].pc.error
    ensures var seen, pods := run[k].pc.seen, run[k].cluster.pods;
      if seen == [] then !run[k].issued
      else |seen| == |pods| && forall i :: 0 <= i < |pods| ==> Good(pods[i]) && pods[i].value.uid != seen[i].uid
  {
    RunIsSafe(run, k);
  }

  // ----- and where it ends: a deletion already under way -----

  ghost predicate SafeFrom(c: Snapshot) {
    forall run: seq<Moment>, k: int ::
      IsHistory(run) && run[0] == Begin(c) && 0 <= k < |run| && run[k].issued ==> AtMostOneDown(run[k].cluster)
  }

  lemma Extend(run: seq<Moment>, t: Moment)
    requires IsHistory(run) && Step(run[|run| - 1], t)
    ensures IsHistory(run + [t])
  {
    var longer := run + [t];
    forall i | 0 <= i < |longer| - 1 ensures Step(longer[i], longer[i + 1]) {
      if i == |run| - 1 {
        assert longer[i] == run[i] && longer[i + 1] == t;
      } else {
        assert longer[i] == run[i] && longer[i + 1] == run[i + 1];
      }
    }
  }

  /** A look at a cluster that does not move sees exactly what is there. */
  lemma {:induction false} LookThrough(run: seq<Moment>, i: nat, why: Why) returns (longer: seq<Moment>)
    requires IsHistory(run) && i <= |run[|run| - 1].cluster.pods|
    requires run[|run| - 1].pc == Looking(run[|run| - 1].cluster.pods[..i], why)
    ensures IsHistory(longer) && longer[0] == run[0]
    ensures longer[|longer| - 1] == run[|run| - 1].(pc := Looking(run[|run| - 1].cluster.pods, why))
    decreases |run[|run| - 1].cluster.pods| - i
  {
    var s := run[|run| - 1];
    var pods := s.cluster.pods;
    if i == |pods| {
      assert pods[..i] == pods;
      longer := run;
    } else {
      var t := s.(pc := Looking(pods[..i] + [pods[i]], why));
      assert pods[..i + 1] == pods[..i] + [pods[i]];
      assert OperatorMoves(s, t);
      Extend(run, t);
      longer := LookThrough(run + [t], i + 1, why);
    }
  }

  /** The cluster brings every pod up, except that requested deletions stay under way. */
  function Settled(c: Snapshot): (d: Snapshot)
    ensures |d.pods| == |c.pods|
    ensures forall i :: 0 <= i < |c.pods| ==>
      d.pods[i] ==
        if c.pods[i].Some? then Some(c.pods[i].value.(ready := true)) else Some(Pod(c.unused + i, true, false))
  {
    Snapshot(
      seq(|c.pods|, i requires 0 <= i < |c.pods| =>
        if c.pods[i].Some? then Some(c.pods[i].value.(ready := true)) else Some(Pod(c.unused + i, true, false))),
      c.unused + |c.pods|)
  }

  /** The operator finds everything ready and is about to delete the first pod. */
  lemma ReachDelete(c: Snapshot) returns (run: seq<Moment>)
    requires c.pods != []
    ensures IsHistory(run) && run[0] == Begin(c)
    ensures AllReady(Settled(c).pods)
    ensures run[|run| - 1] == Moment(Settled(c), Deleting(0, Values(Settled(c).pods)), false)
  {
    var d := Settled(c);
    var s1 := Begin(c).(cluster := d);
    assert ClusterMoves(c, d);
    Extend([Begin(c)], s1);
    assert d.pods[..0] == [];
    run := LookThrough([Begin(c), s1], 0, Validate);
    var s2 := run[|run| - 1];
    var s3 := s2.(pc := Deleting(0, Values(d.pods)));
    assert Validated(d.pods) == s3.pc by {
      assert d.pods[0].Some?;
    }
    assert OperatorMoves(s2, s3);
    Extend(run, s3);
    run := run + [s3];
  }

  /** A pod other than the first is on its way out: deleting the first takes a second one down. */
  lemma SecondDown(c: Snapshot, j: nat)
    requires 0 < j < |c.pods| && c.pods[j].Some? && c.pods[j].value.terminating
    ensures !SafeFrom(c)
  {
    var run := ReachDelete(c);
    var s := run[|run| - 1];
    var t := Moment(s.cluster.(pods := Requested(s.cluster.pods, 0)), Looking([], Await(0, s.pc.seen)), true);
    assert OperatorMoves(s, t);
    Extend(run, t);
    assert !Good(t.cluster.pods[0]) && !Good(t.cluster.pods[j]);
    assert !AtMostOneDown((run + [t])[|run|].cluster);
  }

  /** Runs to the deletion of the first pod, after the pod seen there was replaced by another. */
  lemma ReachReplaced(c: Snapshot) returns (run: seq<Moment>, seen: seq<Pod>)
    requires c.pods != [] && UidsInUse(c) && c.pods[0].Some? && c.pods[0].value.terminating
    ensures IsHistory(run) && run[0] == Begin(c)
    ensures var s := run[|run| - 1];
      && s.pc == Looking([], Await(0, seen)) && s.issued && |seen| == |s.cluster.pods| == |c.pods|
      && s.cluster.pods[0].Some? && var p := s.cluster.pods[0].value; p.ready && p.terminating && seen[0].uid < p.uid
  {
    run := ReachDelete(c);
    var s := run[|run| - 1];
    var d := s.cluster;
    seen := s.pc.seen;
    var s1 := s.(cluster := Snapshot(d.pods[0 := Some(Pod(d.unused, true, false))], d.unused + 1));
    assert ClusterMoves(d, s1.cluster);
    Extend(run, s1);
    run := run + [s1];
    var s2 := Moment(s1.cluster.(pods := Requested(s1.cluster.pods, 0)), Looking([], Await(0, seen)), true);
    assert OperatorMoves(s1, s2);
    Extend(run, s2);
    run := run + [s2];
  }

  /** The first pod is on its way out: it is replaced behind the operator's back, the new one is
      deleted and, still ready under another UID, taken for the restarted pod; the second follows. */
  lemma MistakenReturn(c: Snapshot)
    requires |c.pods| >= 2 && UidsInUse(c) && c.pods[0].Some? && c.pods[0].value.terminating
    ensures !SafeFrom(c)
  {
    var run, seen := ReachReplaced(c);
    var pods := run[|run| - 1].cluster.pods;
    assert pods[..0] == [];
    run := LookThrough(run, 0, Await(0, seen));
    var s3 := run[|run| - 1];
    var s4 := s3.(pc := Deleting(1, seen));
    assert Returned(pods, 0, seen);
    assert OperatorMoves(s3, s4);
    Extend(run, s4);
    run := run + [s4];
    var s5 := s4.(cluster := s4.cluster.(pods := Requested(pods, 1)), pc := Looking([], Await(1, seen)));
    assert OperatorMoves(s4, s5);
    Extend(run, s5);
    assert !Good(s5.cluster.pods[0]) && !Good(s5.cluster.pods[1]);
    assert !AtMostOneDown((run + [s5])[|run|].cluster);
  }

  /** A restart of two or more pods keeps all but one of them up in every run exactly when no pod is
      already being deleted when it starts. */
  lemma SafeIff(c: Snapshot)
    requires UidsInUse(c) && |c.pods| >= 2
    ensures SafeFrom(c) <==> NoneTerminating(c)
  {
    if NoneTerminating(c) {
      forall run: seq<Moment>, k: int | IsHistory(run) && run[0] == Begin(c) && 0 <= k < |run| && run[k].issued
        ensures AtMostOneDown(run[k].cluster)
      {
        RunIsSafe(run, k);
      }
    } else {
      var j :| 0 <= j < |c.pods| && c.pods[j].Some? && c.pods[j].value.terminating;
      if j == 0 {
        MistakenReturn(c);
      } else {
        SecondDown(c, j);
      }
    }
  }

  // ----- how a restart ends -----

  /** What a look at a cluster that does not move leads to: an error without templates, or when some
      pod is missing or not ready; nothing to do when there is no pod at all; otherwise the first
      deletion. */
  lemma StillCluster(c: Snapshot) returns (run: seq<Moment>)
    ensures IsHistory(run) && run[0] == Begin(c) && run[|run| - 1].cluster == c && !run[|run| - 1].issued
    ensures var pc := run[|run| - 1].pc;
      if c.pods == [] then pc == Done(true, [])
      else if forall i :: 0 <= i < |c.pods| ==> c.pods[i].None? then pc == Done(false, [])
      else if exists i :: 0 <= i < |c.pods| && (c.pods[i].None? || !c.pods[i].value.ready) then pc == Done(true, [])
      else pc.Deleting? && pc.k == 0
  {
    run := [Begin(c)];
    if c.pods != [] {
      assert c.pods[..0] == [];
      run := LookThrough(run, 0, Validate);
      var s := run[|run| - 1];
      var t := s.(pc := Validated(c.pods));
      assert OperatorMoves(s, t);
      Extend(run, t);
      run := run + [t];
    }
  }

  /** One pod is deleted, replaced and found again. */
  lemma ReplaceNext(run: seq<Moment>, k: nat, seen: seq<Pod>) returns (longer: seq<Moment>)
    requires IsHistory(run) && run[|run| - 1].pc == Deleting(k, seen)
    requires var c := run[|run| - 1].cluster;
      UidsInUse(c) && k < |c.pods| == |seen| && c.pods[k].Some? && seen[k].uid < c.unused
    ensures IsHistory(longer) && longer[0] == run[0]
    ensures var c := run[|run| - 1].cluster;
      longer[|longer| - 1] ==
        Moment(Snapshot(c.pods[k := Some(Pod(c.unused, true, false))], c.unused + 1), Deleting(k + 1, seen), true)
  {
    var s := run[|run| - 1];
    var c := s.cluster;
    var t := Moment(c.(pods := Requested(c.pods, k)), Looking([], Await(k, seen)), true);
    assert OperatorMoves(s, t);
    Extend(run, t);
    var d := Snapshot(c.pods[k := Some(Pod(c.unused, true, false))], c.unused + 1);
    assert ClusterMoves(t.cluster, d);
    var u := t.(cluster := d);
    Extend(run + [t], u);
    assert d.pods[..0] == [];
    longer := LookThrough(run + [t] + [u], 0, Await(k, seen));
    var v := longer[|longer| - 1];
    var next := v.(pc := Deleting(k + 1, seen));
    assert OperatorMoves(v, next);
    Extend(longer, next);
    longer := longer + [next];
  }

  lemma {:induction false} ReplaceRest(run: seq<Moment>, k: nat, seen: seq<Pod>) returns (longer: seq<Moment>)
    requires IsHistory(run) && run[|run| - 1].pc == Deleting(k, seen)
    requires var c := run[|run| - 1].cluster;
      && UidsInUse(c) && k <= |c.pods| == |seen| && AllGoodBut(c, -1)
      && (forall i :: 0 <= i < |seen| ==> seen[i].uid < c.unused)
      && (forall i :: 0 <= i < k ==> c.pods[i].value.uid != seen[i].uid)
    ensures IsHistory(longer) && longer[0] == run[0]
    ensures k < |seen| || run[|run| - 1].issued ==> longer[|longer| - 1].issued
    ensures var s := longer[|longer| - 1];
      && s.pc == Done(false, seen) && |s.cluster.pods| == |seen|
      && forall i :: 0 <= i < |seen| ==> Good(s.cluster.pods[i]) && s.cluster.pods[i].value.uid != seen[i].uid
    decreases |seen| - k
  {
    if k == |seen| {
      var s := run[|run| - 1];
      assert OperatorMoves(s, s.(pc := Done(false, seen)));
      Extend(run, s.(pc := Done(false, seen)));
      longer := run + [s.(pc := Done(false, seen))];
    } else {
      longer := ReplaceNext(run, k, seen);
      longer := ReplaceRest(longer, k + 1, seen);
    }
  }

  /** From any cluster without a deletion under way some run restarts every pod. */
  lemma CanSucceed(c: Snapshot) returns (run: seq<Moment>)
    requires c.pods != [] && UidsInUse(c) && NoneTerminating(c)
    ensures IsHistory(run) && run[0] == Begin(c)
    ensures var s := run[|run| - 1];
      && s.issued && s.pc.Done? && !s.pc.error && |s.pc.seen| == |s.cluster.pods| == |c.pods|
      && forall i :: 0 <= i < |c.pods| ==> Good(s.cluster.pods[i]) && s.cluster.pods[i].value.uid != s.pc.seen[i].uid
  {
    run := ReachDelete(c);
    run := ReplaceRest(run, 0, Values(Settled(c).pods));
  }

  /** A lone pod: once it is removed, the poll finds nothing at all and takes the restart for done. */
  lemma LonePodLost(c: Snapshot) returns (run: seq<Moment>)
    requires |c.pods| == 1
    ensures IsHistory(run) && run[0] == Begin(c)
    ensures var s := run[|run| - 1]; s.issued && s.pc.Done? && !s.pc.error && s.cluster.pods == [None]
  {
    run := ReachDelete(c);
    var s := run[|run| - 1];
    var seen := s.pc.seen;
    var t := Moment(s.cluster.(pods := Requested(s.cluster.pods, 0)), Looking([], Await(0, seen)), true);
    assert OperatorMoves(s, t);
    Extend(run, t);
    var u := t.(cluster := t.cluster.(pods := [None]));
    assert ClusterMoves(t.cluster, u.cluster);
    Extend(run + [t], u);
    assert u.cluster.pods[..0] == [];
    run := LookThrough(run + [t] + [u], 0, Await(0, seen));
    var v := run[|run| - 1];
    var back := v.(pc := Deleting(1, seen));
    assert OperatorMoves(v, back);
    Extend(run, back);
    assert OperatorMoves(back, back.(pc := Done(false, seen)));
    Extend(run + [back], back.(pc := Done(false, seen)));
    run := run + [back] + [back.(pc := Done(false, seen))];
  }

  /** Whenever a run that deleted something ends without error, every pod is good. */
  ghost predicate EndsGood(c: Snapshot) {
    forall run: seq<Moment>, k: int ::
      IsHistory(run) && run[0] == Begin(c) && 0 <= k < |run| && run[k].issued && run[k].pc.Done? && !run[k].pc.error ==>
        forall i :: 0 <= i < |run[k].cluster.pods| ==> Good(run[k].cluster.pods[i])
  }

  /** A clean end means good pods exactly when there are at least two of them. */
  lemma EndsGoodIff(c: Snapshot)
    requires c.pods != [] && UidsInUse(c) && NoneTerminating(c)
    ensures EndsGood(c) <==> |c.pods| >= 2
  {
    if |c.pods| >= 2 {
      forall run: seq<Moment>, k: int |
        IsHistory(run) && run[0] == Begin(c) && 0 <= k < |run| && run[k].issued && run[k].pc.Done? && !run[k].pc.error
        ensures forall i :: 0 <= i < |run[k].cluster.pods| ==> Good(run[k].cluster.pods[i])
      {
        RunSucceeds(run, k);
      }
    } else {
      var run := LonePodLost(c);
      assert !Good(run[|run| - 1].cluster.pods[0]);
    }
  }
}
