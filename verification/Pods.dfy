/** Pod readiness, crash detection and the restart order of kernel/util/pod_util.go. */
module Pods {
  import opened Types

  datatype Phase = Running | Pending | PhaseFailed | Completed | Terminated | Error | OtherPhase

  datatype ContainerStatus = ContainerStatus(ready: bool, waiting: bool, terminated: bool)

  datatype Condition = Condition(kind: string, status: string)

  /** A pod as read from the cluster; times are in seconds, claims are those of its volumes. */
  datatype PodInfo = PodInfo(
    name: Name, phase: Phase, containers: seq<ContainerStatus>, conditions: seq<Condition>,
    started: Option<int>, created: int, claims: seq<Name>)

  predicate Ready(p: PodInfo) {
    && p.phase == Running
    && (forall c :: c in p.containers ==> c.ready && !c.waiting && !c.terminated)
    && (forall c :: c in p.conditions && c.kind in ["Ready", "ContainersReady", "PodScheduled"] ==> c.status == "True")
  }

  /** The clock of one call: the current time and the restart timeout. */
  datatype Clock = Clock(now: int, timeout: int)

  /** Not healthy for longer than the timeout. */
  predicate Crashed(p: PodInfo, clock: Clock) {
    var since := if p.started.Some? then p.started.value else p.created;
    (p.phase in [PhaseFailed, Completed, Terminated, Error, Pending] || !Ready(p)) && clock.now > since + clock.timeout
  }

  ghost predicate Since(p: PodInfo, t: int) {
    (p.started == Some(t)) || (p.started == None && p.created == t)
  }

  /** A pod counts as crashed exactly when it is not ready and the timeout has passed since it was
      started, or since it was created when it was not started. */
  lemma CrashedIff(p: PodInfo, clock: Clock)
    ensures Crashed(p, clock) <==> !Ready(p) && exists t :: Since(p, t) && clock.now > t + clock.timeout
  {
    var t := if p.started.Some? then p.started.value else p.created;
    assert Since(p, t);
  }

  /** What keeps a pod from being ready: its phase, a container that is not ready, waits or has
      terminated, or one of three conditions that is not true. */
  lemma NotReadyIff(p: PodInfo)
    ensures !Ready(p) <==>
      || p.phase != Running
      || (exists c :: c in p.containers && (!c.ready || c.waiting || c.terminated))
      || (exists c :: c in p.conditions && c.status != "True" &&
            (c.kind == "Ready" || c.kind == "ContainersReady" || c.kind == "PodScheduled"))
  {
    if forall c :: c in p.conditions && c.status != "True" ==>
      c.kind != "Ready" && c.kind != "ContainersReady" && c.kind != "PodScheduled"
    {
      forall c | c in p.conditions && c.kind in ["Ready", "ContainersReady", "PodScheduled"]
        ensures c.status == "True"
      {}
    }
  }

  /** A crashed pod is not ready, so the three groups below do not overlap. */
  lemma CrashedIsNotReady(p: PodInfo, clock: Clock)
    requires Crashed(p, clock)
    ensures !Ready(p)
  {
  }

  method IsPodReady(pods: seq<PodInfo>) returns (ready: bool)
    ensures ready <==> forall p :: p in pods ==> Ready(p)
  {
    for i := 0 to |pods|
      invariant forall j :: 0 <= j < i ==> Ready(pods[j])
    {
      var p := pods[i];
      if p.phase != Running {
        assert p in pods;
        return false;
      }
      for k := 0 to |p.containers|
        invariant forall j :: 0 <= j < k ==>
          p.containers[j].ready && !p.containers[j].waiting && !p.containers[j].terminated
      {
        var c := p.containers[k];
        if !c.ready || c.waiting || c.terminated {
          assert c in p.containers && p in pods;
          return false;
        }
      }
      for k := 0 to |p.conditions|
        invariant forall j :: 0 <= j < k && p.conditions[j].kind in ["Ready", "ContainersReady", "PodScheduled"] ==>
          p.conditions[j].status == "True"
      {
        var c := p.conditions[k];
        if (c.kind == "Ready" && c.status != "True") || (c.kind == "ContainersReady" && c.status != "True") ||
           (c.kind == "PodScheduled" && c.status != "True") {
          assert c in p.conditions && p in pods;
          return false;
        }
      }
    }
    return true;
  }

  // ----- the order in which pods are restarted -----

  ghost predicate Aged(pods: seq<PodInfo>) {
    forall i, j :: 0 <= i < j < |pods| ==> pods[i].created <= pods[j].created
  }

  method Place(sorted: seq<PodInfo>, p: PodInfo) returns (longer: seq<PodInfo>)
    requires Aged(sorted)
    ensures multiset(longer) == multiset(sorted) + multiset{p} && Aged(longer)
  {
    var k := |sorted|;
    while k > 0 && sorted[k - 1].created > p.created
      invariant 0 <= k <= |sorted|
      invariant k < |sorted| ==> p.created <= sorted[k].created
    {
      k := k - 1;
    }
    longer := sorted[..k] + [p] + sorted[k..];
    PlacedAged(sorted, k, p);
    PlacedOnce(sorted, k, p);
  }

  lemma PlacedOnce<T>(s: seq<T>, k: nat, p: T)
    requires k <= |s|
    ensures multiset(s[..k] + [p] + s[k..]) == multiset(s) + multiset{p}
  {
    assert s == s[..k] + s[k..];
  }

  lemma PlacedAged(sorted: seq<PodInfo>, k: nat, p: PodInfo)
    requires Aged(sorted) && k <= |sorted| && (k > 0 ==> sorted[k - 1].created <= p.created)
    requires k < |sorted| ==> p.created <= sorted[k].created
    ensures Aged(sorted[..k] + [p] + sorted[k..])
  {
    var longer := sorted[..k] + [p] + sorted[k..];
    forall i, j | 0 <= i < j < |longer| ensures longer[i].created <= longer[j].created {
      assert i < k ==> longer[i] == sorted[i] && (i < k - 1 ==> sorted[i].created <= sorted[k - 1].created);
      assert j > k ==> longer[j] == sorted[j - 1] && (j - 1 > k ==> sorted[k].created <= sorted[j - 1].created);
    }
  }

  /** Sorts by creation time; nothing is promised about pods of the same age. */
  method Sort(pods: seq<PodInfo>) returns (sorted: seq<PodInfo>)
    ensures multiset(sorted) == multiset(pods) && Aged(sorted)
  {
    sorted := [];
    for i := 0 to |pods|
      invariant multiset(sorted) == multiset(pods[..i]) && Aged(sorted)
    {
      assert pods[..i + 1] == pods[..i] + [pods[i]];
      sorted := Place(sorted, pods[i]);
    }
    assert pods[..|pods|] == pods;
  }

  datatype Group = Crash | Late | Fine

  function GroupOf(p: PodInfo, clock: Clock): Group {
    if Crashed(p, clock) then Crash else if Ready(p) then Fine else Late
  }

  /** The pods of one group, in input order. */
  function Only(pods: seq<PodInfo>, clock: Clock, g: Group): seq<PodInfo> {
    if pods == [] then []
    else
      var rest := Only(pods[..|pods| - 1], clock, g);
      if GroupOf(pods[|pods| - 1], clock) == g then rest + [pods[|pods| - 1]] else rest
  }

  /** The first crash pods of out are the crashed ones by age, the next late ones the other pods that
      are not ready by age, and the rest are the ready ones in input order. */
  ghost predicate IsOrdered(pods: seq<PodInfo>, clock: Clock, out: seq<PodInfo>) {
    var a, b := |Only(pods, clock, Crash)|, |Only(pods, clock, Late)|;
    && a + b <= |out|
    && Aged(out[..a]) && multiset(out[..a]) == multiset(Only(pods, clock, Crash))
    && Aged(out[a..a + b]) && multiset(out[a..a + b]) == multiset(Only(pods, clock, Late))
    && out[a + b..] == Only(pods, clock, Fine)
  }

  method Ordered(pods: seq<PodInfo>, clock: Clock) returns (out: seq<PodInfo>)
    ensures IsOrdered(pods, clock, out)
  {
    var failOvers, notReady, ready := [], [], [];
    for i := 0 to |pods|
      invariant failOvers == Only(pods[..i], clock, Crash)
      invariant notReady == Only(pods[..i], clock, Late)
      invariant ready == Only(pods[..i], clock, Fine)
    {
      assert pods[..i + 1][..i] == pods[..i];
      if Crashed(pods[i], clock) {
        failOvers := failOvers + [pods[i]];
        continue;
      }
      var ok := IsPodReady([pods[i]]);
      assert ok <==> Ready(pods[i]) by {
        assert pods[i] in [pods[i]];
      }
      if !ok {
        notReady := notReady + [pods[i]];
        continue;
      }
      ready := ready + [pods[i]];
    }
    assert pods[..|pods|] == pods;
    failOvers := Sort(failOvers);
    notReady := Sort(notReady);
    assert |failOvers| == |multiset(failOvers)| && |notReady| == |multiset(notReady)|;
    out := failOvers + notReady + ready;
    assert |Only(pods, clock, Crash)| == |multiset(Only(pods, clock, Crash))|;
    assert |Only(pods, clock, Late)| == |multiset(Only(pods, clock, Late))|;
    var a, b := |failOvers|, |notReady|;
    assert out[..a] == failOvers && out[a..a + b] == notReady && out[a + b..] == ready;
  }

  /** No pod is lost or duplicated. */
  lemma OrderedIsPermutation(pods: seq<PodInfo>, clock: Clock, out: seq<PodInfo>)
    requires IsOrdered(pods, clock, out)
    ensures multiset(out) == multiset(pods)
  {
    var a, b := |Only(pods, clock, Crash)|, |Only(pods, clock, Late)|;
    assert out == out[..a] + out[a..a + b] + out[a + b..];
    GroupsPartition(pods, clock);
  }

  lemma {:induction false} GroupsPartition(pods: seq<PodInfo>, clock: Clock)
    ensures multiset(pods) ==
      multiset(Only(pods, clock, Crash)) + multiset(Only(pods, clock, Late)) + multiset(Only(pods, clock, Fine))
  {
    if pods != [] {
      var rest, p := pods[..|pods| - 1], pods[|pods| - 1];
      GroupsPartition(rest, clock);
      assert pods == rest + [p];
      OneMore(pods, clock, Crash);
      OneMore(pods, clock, Late);
      OneMore(pods, clock, Fine);
    }
  }

  /** The last pod joins its own group and no other. */
  lemma OneMore(pods: seq<PodInfo>, clock: Clock, g: Group)
    requires pods != []
    ensures var rest, p := pods[..|pods| - 1], pods[|pods| - 1];
      if GroupOf(p, clock) == g then multiset(Only(pods, clock, g)) == multiset(Only(rest, clock, g)) + multiset{p}
      else Only(pods, clock, g) == Only(rest, clock, g)
  {
  }

  lemma {:induction false} OnlyMember(pods: seq<PodInfo>, clock: Clock, g: Group, p: PodInfo)
    ensures p in Only(pods, clock, g) <==> p in pods && GroupOf(p, clock) == g
  {
    if pods != [] {
      OnlyMember(pods[..|pods| - 1], clock, g, p);
      assert pods == pods[..|pods| - 1] + [pods[|pods| - 1]];
    }
  }

  /** Bad pods go first: a ready pod is never restarted before one that is not ready, nor a late one
      before a crashed one. */
  lemma BadPodsFirst(pods: seq<PodInfo>, clock: Clock, out: seq<PodInfo>, i: nat, j: nat)
    requires IsOrdered(pods, clock, out) && i < j < |out|
    ensures Crashed(out[j], clock) ==> Crashed(out[i], clock)
    ensures !Ready(out[j]) ==> !Ready(out[i])
  {
    GroupAt(pods, clock, out, i);
    GroupAt(pods, clock, out, j);
    if Crashed(out[i], clock) {
      CrashedIsNotReady(out[i], clock);
    }
  }

  /** Crashed pods, and late ones, are restarted oldest first. */
  lemma OldestFirst(pods: seq<PodInfo>, clock: Clock, out: seq<PodInfo>, i: nat, j: nat)
    requires IsOrdered(pods, clock, out) && i < j < |out|
    requires GroupOf(out[i], clock) == GroupOf(out[j], clock) && !GroupOf(out[i], clock).Fine?
    ensures out[i].created <= out[j].created
  {
    GroupAt(pods, clock, out, i);
    GroupAt(pods, clock, out, j);
    var a, b := |Only(pods, clock, Crash)|, |Only(pods, clock, Late)|;
    if j < a {
      assert out[..a][i] == out[i] && out[..a][j] == out[j];
    } else if a <= i && j < a + b {
      assert out[a..a + b][i - a] == out[i] && out[a..a + b][j - a] == out[j];
    }
  }

  lemma GroupAt(pods: seq<PodInfo>, clock: Clock, out: seq<PodInfo>, i: nat)
    requires IsOrdered(pods, clock, out) && i < |out|
    ensures var a, b := |Only(pods, clock, Crash)|, |Only(pods, clock, Late)|;
      GroupOf(out[i], clock) == if i < a then Crash else if i < a + b then Late else Fine
  {
    var a, b := |Only(pods, clock, Crash)|, |Only(pods, clock, Late)|;
    if i < a {
      assert out[i] in multiset(out[..a]);
      OnlyMember(pods, clock, Crash, out[i]);
    } else if i < a + b {
      assert out[i] == out[a..a + b][i - a];
      assert out[i] in multiset(out[a..a + b]);
      OnlyMember(pods, clock, Late, out[i]);
    } else {
      assert out[i] == out[a + b..][i - a - b];
      OnlyMember(pods, clock, Fine, out[i]);
    }
  }

  /** When all pods are ready the order is the input order. */
  lemma ReadyStayInOrder(pods: seq<PodInfo>, clock: Clock, out: seq<PodInfo>)
    requires IsOrdered(pods, clock, out) && forall p :: p in pods ==> Ready(p)
    ensures out == pods
  {
    AllFine(pods, clock);
  }

  lemma {:induction false} AllFine(pods: seq<PodInfo>, clock: Clock)
    requires forall p :: p in pods ==> Ready(p)
    ensures Only(pods, clock, Fine) == pods && Only(pods, clock, Crash) == [] && Only(pods, clock, Late) == []
  {
    if pods != [] {
      var p := pods[|pods| - 1];
      AllFine(pods[..|pods| - 1], clock);
      assert pods == pods[..|pods| - 1] + [p];
      assert p in pods && GroupOf(p, clock) == Fine;
    }
  }
}
