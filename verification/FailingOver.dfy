/** Fail-over of crashed pods: kernel/util/buildin_resource_client.go, with the disruption budget of
    kernel/handler/category_pdb_handler.go. */
module FailingOver {
  import opened Types
  import opened Pods
  import opened Environment

  const RECOVERY_MODE := "RECOVERY_MODE"
  const RECOVERING := EnvVar(RECOVERY_MODE, "true", "")
  const RECOVERED := EnvVar(RECOVERY_MODE, "", "")

  /** What the look-up of one template gave, and the clock when the pod was examined. */
  datatype Look = Look(pod: Option<PodInfo>, clock: Clock)

  predicate Down(look: Look) {
    look.pod.Some? && Crashed(look.pod.value, look.clock)
  }

  function CrashedOf(looks: seq<Look>): (r: seq<PodInfo>)
    ensures |r| <= |looks|
  {
    if looks == [] then []
    else
      var n := |looks| - 1;
      var rest := CrashedOf(looks[..n]);
      if Down(looks[n]) then rest + [looks[n].pod.value] else rest
  }

  /** The crashed pods among those found; none unless every template was found. */
  function FailOvers(looks: seq<Look>): seq<PodInfo> {
    if forall l :: l in looks ==> l.pod.Some? then CrashedOf(looks) else []
  }

  /** More than zero and not a majority. */
  predicate Acts(crashed: nat, templates: nat) {
    0 < crashed < templates / 2 + 1
  }

  function NamesOf(pods: seq<PodInfo>): set<Name> {
    set p | p in pods :: p.name
  }

  function ClaimsOf(pods: seq<PodInfo>): set<Name> {
    set p, c | p in pods && c in p.claims :: c
  }

  lemma SamePods(pods: seq<PodInfo>, order: seq<PodInfo>)
    requires multiset(order) == multiset(pods)
    ensures NamesOf(order) == NamesOf(pods) && ClaimsOf(order) == ClaimsOf(pods)
  {
    forall p ensures p in order <==> p in pods {
      assert p in multiset(order) <==> p in multiset(pods);
    }
  }

  lemma OnePodMore(pods: seq<PodInfo>, i: nat)
    requires i < |pods|
    ensures NamesOf(pods[..i + 1]) == NamesOf(pods[..i]) + {pods[i].name}
    ensures ClaimsOf(pods[..i + 1]) == ClaimsOf(pods[..i]) + set c | c in pods[i].claims
    ensures NamesOf(pods[..i]) + {pods[i].name} <= NamesOf(pods)
    ensures ClaimsOf(pods[..i]) + (set c | c in pods[i].claims) <= ClaimsOf(pods)
  {
    assert pods[..i + 1] == pods[..i] + [pods[i]];
  }

  /** again is what a second look-up of the same pods gives. */
  ghost predicate ReadAgain(pods: seq<PodInfo>, again: seq<PodInfo>) {
    |again| == |pods| && forall i :: 0 <= i < |pods| ==> again[i].name == pods[i].name
  }

  lemma SameNames(pods: seq<PodInfo>, again: seq<PodInfo>)
    requires ReadAgain(pods, again)
    ensures NamesOf(again) == NamesOf(pods)
  {
    forall n | n in NamesOf(pods) ensures n in NamesOf(again) {
      var i :| 0 <= i < |pods| && pods[i].name == n;
      assert again[i] in again;
    }
    forall n | n in NamesOf(again) ensures n in NamesOf(pods) {
      var i :| 0 <= i < |again| && again[i].name == n;
      assert pods[i] in pods;
    }
  }

  /** The first done pods and the one behind them. */
  function Next(order: seq<PodInfo>, done: nat): seq<PodInfo>
    requires done <= |order|
  {
    if done < |order| then order[..done + 1] else order[..done]
  }

  lemma Within(pods: seq<PodInfo>, again: seq<PodInfo>, order: seq<PodInfo>, done: nat)
    requires done <= |order| && NamesOf(order) <= NamesOf(pods) && ClaimsOf(order) <= ClaimsOf(again)
    ensures NamesOf(Next(order, done)) <= NamesOf(pods) && ClaimsOf(Next(order, done)) <= ClaimsOf(again)
  {
    assert forall p :: p in Next(order, done) ==> p in order;
  }

  /** How the restart of the crashed pods went: it was not called, it failed on the way, every pod had
      vanished meanwhile, or all of them were deleted. */
  datatype Restarted = NotCalled | Broken | Vanished | AllDeleted

  /** The StatefulSet being failed over: the local object, what the API server has, and the pods and
      claims that the operator asked to be deleted. */
  class SetClient {
    const envs: array<Env>
    var stored: seq<Env>
    ghost var deleted: set<Name>
    ghost var deletedClaims: set<Name>

    ghost predicate Valid()
      reads this
    {
      |stored| == envs.Length
    }

    constructor (stored: seq<Env>)
      ensures Valid() && this.stored == stored && envs[..] == stored && fresh(envs)
      ensures deleted == {} && deletedClaims == {}
    {
      envs := new Env[|stored|](i requires 0 <= i < |stored| => stored[i]);
      this.stored := stored;
      deleted, deletedClaims := {}, {};
    }

    method Update() returns (failed: bool)
      requires Valid()
      modifies this`stored
      ensures Valid() && stored == if failed then old(stored) else envs[..]
    {
      failed := *;
      if !failed {
        stored := envs[..];
      }
    }

    /** Refreshes the local object; nobody else edits the stored one. */
    method Get() returns (failed: bool)
      requires Valid()
      modifies envs
      ensures envs[..] == if failed then old(envs[..]) else stored
    {
      failed := *;
      if !failed {
        forall i | 0 <= i < envs.Length {
          envs[i] := stored[i];
        }
      }
    }

    /** Looks the pods up again and deletes them one after the other, bad ones first, until a step
        fails.  again is what the second look gives; gone counts those that vanished meanwhile.  done
        pods of order were dealt with completely, and at most the next one was asked to go. */
    method RestartCrashed(pods: seq<PodInfo>, again: seq<PodInfo>, clock: Clock)
      returns (failed: bool, ghost how: Restarted, ghost order: seq<PodInfo>, ghost done: nat)
      requires pods != [] && ReadAgain(pods, again)
      modifies this`deleted, this`deletedClaims
      ensures !how.NotCalled? && (failed <==> how.Broken?)
      ensures (order == [] && done == 0) || IsOrdered(again, clock, order)
      ensures done <= |order| && (how.AllDeleted? <==> 0 < |order| == done && !failed)
      ensures old(deleted) + NamesOf(order[..done]) <= deleted <= old(deleted) + NamesOf(Next(order, done))
      ensures old(deletedClaims) + ClaimsOf(order[..done]) <= deletedClaims
      ensures deletedClaims <= old(deletedClaims) + ClaimsOf(Next(order, done))
      ensures NamesOf(order) <= NamesOf(pods) && ClaimsOf(order) <= ClaimsOf(again)
      ensures how.Vanished? ==> order == []
      ensures how.AllDeleted? ==>
        deleted == old(deleted) + NamesOf(pods) && deletedClaims == old(deletedClaims) + ClaimsOf(again)
    {
      failed, how, order, done := *, Broken, [], 0;
      if failed {
        return;
      }
      var gone: nat := *;
      if gone >= |pods| {
        return false, Vanished, [], 0;
      }
      if gone > 0 {
        return true, Broken, [], 0;
      }
      var sorted := Ordered(again, clock);
      OrderedIsPermutation(again, clock, sorted);
      SamePods(again, sorted);
      SameNames(pods, again);
      order := sorted;
      assert |sorted| == |multiset(sorted)| == |multiset(again)|;
      failed, done := DeleteAll(sorted);
      assert sorted[..|sorted|] == sorted;
      if !failed {
        how := AllDeleted;
      }
    }

    /** The same, without the order: which pods and claims were asked to go. */
    method RestartBounded(pods: seq<PodInfo>, again: seq<PodInfo>, clock: Clock)
      returns (failed: bool, ghost how: Restarted, ghost gone: set<Name>)
      requires pods != [] && ReadAgain(pods, again)
      modifies this`deleted, this`deletedClaims
      ensures !how.NotCalled? && deleted == old(deleted) + gone && gone <= NamesOf(pods)
      ensures old(deletedClaims) <= deletedClaims <= old(deletedClaims) + ClaimsOf(again)
      ensures how.Vanished? ==> gone == {} && deletedClaims == old(deletedClaims)
      ensures how.AllDeleted? ==> gone == NamesOf(pods) && deletedClaims == old(deletedClaims) + ClaimsOf(again)
    {
      ghost var order, done;
      failed, how, order, done := RestartCrashed(pods, again, clock);
      Within(pods, again, order, done);
      gone := if how.AllDeleted? then NamesOf(pods) else deleted - old(deleted);
    }

    /** The loop of the restart. */
    method DeleteAll(order: seq<PodInfo>) returns (failed: bool, ghost done: nat)
      modifies this`deleted, this`deletedClaims
      ensures done <= |order| && (!failed ==> done == |order|)
      ensures old(deleted) + NamesOf(order[..done]) <= deleted <= old(deleted) + NamesOf(Next(order, done))
      ensures old(deletedClaims) + ClaimsOf(order[..done]) <= deletedClaims
      ensures deletedClaims <= old(deletedClaims) + ClaimsOf(Next(order, done))
    {
      failed, done := false, 0;
      for i := 0 to |order|
        invariant !failed && done == i && deleted == old(deleted) + NamesOf(order[..i])
        invariant deletedClaims == old(deletedClaims) + ClaimsOf(order[..i])
      {
        OnePodMore(order, i);
        failed := DeleteWithClaims(order[i]);
        if failed {
          return;
        }
        done := i + 1;
      }
    }

    /** Asks for the deletion of one pod, deletes its claims, asks for the deletion again and waits.
        The outcome of the first request is ignored; every other step may fail. */
    method DeleteWithClaims(pod: PodInfo) returns (failed: bool)
      modifies this`deleted, this`deletedClaims
      ensures old(deleted) <= deleted <= old(deleted) + {pod.name}
      ensures old(deletedClaims) <= deletedClaims <= old(deletedClaims) + set c | c in pod.claims
      ensures !failed ==> deleted == old(deleted) + {pod.name}
      ensures !failed ==> deletedClaims == old(deletedClaims) + set c | c in pod.claims
    {
      var lost: bool := *;
      if !lost {
        deleted := deleted + {pod.name};
      }
      failed := *;
      if failed {
        return;
      }
      for i := 0 to |pod.claims|
        invariant old(deleted) <= deleted <= old(deleted) + {pod.name}
        invariant deletedClaims == old(deletedClaims) + set c | c in pod.claims[..i]
      {
        failed := *;
        if failed {
          return;
        }
        assert pod.claims[..i + 1] == pod.claims[..i] + [pod.claims[i]];
        deletedClaims := deletedClaims + {pod.claims[i]};
      }
      assert pod.claims[..|pod.claims|] == pod.claims;
      deleted := deleted + {pod.name};
      failed := *;
    }

    /** Looks all templates up, then examines the pods if all were found; any look-up may fail. */
    method Examine(looks: seq<Look>) returns (failed: bool, crashed: seq<PodInfo>)
      ensures !failed ==> crashed == FailOvers(looks)
    {
      var found := 0;
      crashed := [];
      for i := 0 to |looks|
        invariant 0 <= found <= i && (found == i <==> forall l :: l in looks[..i] ==> l.pod.Some?)
      {
        failed := *;
        if failed {
          return;
        }
        assert looks[..i + 1] == looks[..i] + [looks[i]];
        if looks[i].pod.Some? {
          found := found + 1;
        }
      }
      assert looks[..|looks|] == looks;
      failed := false;
      if found == |looks| {
        for i := 0 to |looks|
          invariant crashed == CrashedOf(looks[..i])
        {
          assert looks[..i + 1][..i] == looks[..i];
          if Crashed(looks[i].pod.value, looks[i].clock) {
            crashed := crashed + [looks[i].pod.value];
          }
        }
        assert looks[..|looks|] == looks;
      }
    }

    function Mode(): string
      reads this, envs
    {
      GetEnv(envs[..], RECOVERY_MODE)
    }

    /** Whether the recovery flag is set for this fail-over. */
    ghost predicate Recovers(looks: seq<Look>)
      reads this, envs
    {
      Acts(|FailOvers(looks)|, |looks|) && Mode() in ["", "false"]
    }

    /** Whether a recovery flag left behind is reset because a majority crashed. */
    ghost predicate GivesUp(looks: seq<Look>)
      reads this, envs
    {
      |looks| > 0 && |FailOvers(looks)| >= |looks| / 2 + 1 && Mode() == "true"
    }

    /** looks gives what each template's look-up returns, again what the second look at the crashed
        pods does.  gone are the pods it asked to be deleted. */
    method FailOver(looks: seq<Look>, again: seq<PodInfo>, clock: Clock)
      returns (error: bool, ghost gone: set<Name>, ghost how: Restarted)
      requires Valid() && ReadAgain(FailOvers(looks), again)
      modifies this, envs
      ensures Valid()
      ensures deleted == old(deleted) + gone && IsFailOver(looks, gone)
      ensures old(deletedClaims) <= deletedClaims <= old(deletedClaims) + ClaimsOf(again)
      ensures !how.NotCalled? ==> Acts(|FailOvers(looks)|, |looks|)
      ensures !error && Acts(|FailOvers(looks)|, |looks|) ==> !how.NotCalled?
      ensures how.NotCalled? || how.Vanished? ==> gone == {} && deletedClaims == old(deletedClaims)
      ensures how.AllDeleted? ==>
        gone == NamesOf(FailOvers(looks)) && deletedClaims == old(deletedClaims) + ClaimsOf(again)
      ensures !error && old(Recovers(looks)) && envs.Length > 0 ==> stored == SetAll(old(envs[..]), [RECOVERED])
      ensures !error && envs.Length > 0 && old(Recovers(looks) || GivesUp(looks)) ==> NoFlag(stored)
      ensures !error && old(GivesUp(looks)) ==>
        stored == SetAll(old(stored), [RECOVERED]) || stored == SetAll(old(envs[..]), [RECOVERED])
      ensures !old(Recovers(looks)) && !old(GivesUp(looks)) ==> stored == old(stored)
    {
      error, gone, how := false, {}, NotCalled;
      if |looks| == 0 {
        return;
      }
      var failed, crashed := Examine(looks);
      if failed {
        return true, gone, how;
      }
      var n := |looks|;
      var recovery := false;
      var envMode := Mode();
      if |crashed| > 0 && |crashed| < n / 2 + 1 {
        recovery := envMode == "" || envMode == "false";
        if recovery {
          error := Announce();
          if error {
            return;
          }
        }
        error, how, gone := RestartBounded(crashed, again, clock);
      }
      if recovery || |crashed| >= n / 2 + 1 {
        error := Reset(error);
      }
      if recovery && envs.Length > 0 {
        FlagIsReset(old(envs[..]));
      }
      FlagIsGone(old(envs[..]));
      FlagIsGone(old(stored));
    }

    /** Sets the recovery flag. */
    method Announce() returns (failed: bool)
      requires Valid()
      modifies envs, this`stored
      ensures Valid() && envs[..] == SetAll(old(envs[..]), [RECOVERING])
      ensures stored == if failed then old(stored) else envs[..]
    {
      ModifyEnv(envs, [RECOVERING]);
      failed := Update();
    }

    /** Takes the recovery flag back if it is set; the errors of the earlier steps are overwritten. */
    method Reset(before: bool) returns (error: bool)
      requires Valid()
      modifies envs, this`stored
      ensures Valid()
      ensures old(Mode()) != "true" ==> error == before && stored == old(stored)
      ensures old(Mode()) == "true" && !error ==>
        stored == SetAll(old(stored), [RECOVERED]) || stored == SetAll(old(envs[..]), [RECOVERED])
    {
      error := before;
      if Mode() == "true" {
        var _ := Get();
        ModifyEnv(envs, [RECOVERED]);
        error := Update();
      }
    }
  }

  /** Setting the flag makes it readable, and resetting it gives what resetting alone gives. */
  lemma FlagIsReset(envs: seq<Env>)
    requires envs != []
    ensures GetEnv(SetAll(envs, [RECOVERING]), RECOVERY_MODE) == "true"
    ensures SetAll(SetAll(envs, [RECOVERING]), [RECOVERED]) == SetAll(envs, [RECOVERED])
  {
    assert RECOVERING in [RECOVERING] && RECOVERED in [RECOVERED];
    assert Names([RECOVERING]) == {RECOVERY_MODE} == Names([RECOVERED]);
    assert [RECOVERING][..0] == [];
    assert Effectives([RECOVERING]) == [RECOVERING];
    SetThenGet(envs, [RECOVERING], RECOVERY_MODE);
    forall i | 0 <= i < |envs| {
      SetTwice(envs[i], [RECOVERING], [RECOVERED]);
    }
  }

  /** No container has the flag, with whatever value. */
  ghost predicate NoFlag(envs: seq<Env>) {
    forall i, j :: 0 <= i < |envs| && 0 <= j < |envs[i]| ==> envs[i][j].name != RECOVERY_MODE
  }

  /** A flag that is reset is removed, and reads as unset. */
  lemma FlagIsGone(envs: seq<Env>)
    ensures NoFlag(SetAll(envs, [RECOVERED])) && GetEnv(SetAll(envs, [RECOVERED]), RECOVERY_MODE) == ""
  {
    var after := SetAll(envs, [RECOVERED]);
    assert RECOVERED in [RECOVERED];
    forall i, e: EnvVar | 0 <= i < |after| && e in after[i] ensures e.name != RECOVERY_MODE {
      SetMembers(envs[i], [RECOVERED], e);
    }
    GetEnvNone(after, RECOVERY_MODE);
  }

  // ----- the bound -----

  /** What any fail-over, failing steps included, may ask to be deleted. */
  ghost predicate IsFailOver(looks: seq<Look>, gone: set<Name>) {
    gone <= NamesOf(FailOvers(looks)) && (!Acts(|FailOvers(looks)|, |looks|) ==> gone == {})
  }

  /** Pods are looked up by name. */
  ghost predicate ByName(templates: seq<Name>, looks: seq<Look>) {
    && |looks| == |templates|
    && forall i :: 0 <= i < |looks| && looks[i].pod.Some? ==> looks[i].pod.value.name == templates[i]
  }

  ghost predicate Outcome(templates: seq<Name>, looks: seq<Look>, gone: set<Name>) {
    ByName(templates, looks) && IsFailOver(looks, gone)
  }

  function All(templates: seq<Name>): set<Name> {
    set t | t in templates
  }

  /** AutoScaleMaxUnavailable; Go truncates the division, which shows for negative counts only. */
  function MaxUnavailable(replicas: Option<int>): int {
    if replicas.None? || replicas.value == 1 then 0 else replicas.value - (Half(replicas.value) + 1)
  }

  function Half(n: int): int {
    if n >= 0 then n / 2 else -((-n) / 2)
  }

  lemma {:induction false} CrashedNames(looks: seq<Look>, p: PodInfo)
    ensures p in CrashedOf(looks) <==> exists i :: 0 <= i < |looks| && Down(looks[i]) && looks[i].pod.value == p
  {
    if looks != [] {
      var n := |looks| - 1;
      CrashedNames(looks[..n], p);
      if i :| 0 <= i < |looks| && Down(looks[i]) && looks[i].pod.value == p {
        assert i < n ==> looks[..n][i] == looks[i];
      }
      if j :| 0 <= j < |looks[..n]| && Down(looks[..n][j]) && looks[..n][j].pod.value == p {
        assert looks[j] == looks[..n][j];
      }
    }
  }

  lemma {:induction false} NamesBound(pods: seq<PodInfo>)
    ensures |NamesOf(pods)| <= |pods|
  {
    if pods != [] {
      var n := |pods| - 1;
      NamesBound(pods[..n]);
      OnePodMore(pods, n);
      assert pods[..n + 1] == pods;
    }
  }

  lemma {:induction false} AllSize(templates: seq<Name>)
    requires Distinct(templates)
    ensures |All(templates)| == |templates|
  {
    if templates != [] {
      var n := |templates| - 1;
      AllSize(templates[..n]);
      assert templates == templates[..n] + [templates[n]];
      assert All(templates) == All(templates[..n]) + {templates[n]};
    }
  }

  lemma GoneWasDown(templates: seq<Name>, looks: seq<Look>, gone: set<Name>, name: Name) returns (i: nat)
    requires Outcome(templates, looks, gone) && name in gone
    ensures i < |looks| && templates[i] == name && Down(looks[i])
    ensures forall j :: 0 <= j < |looks| ==> looks[j].pod.Some?
  {
    var p :| p in FailOvers(looks) && p.name == name;
    CrashedNames(looks, p);
    i :| 0 <= i < |looks| && Down(looks[i]) && looks[i].pod.value == p;
    forall j | 0 <= j < |looks| ensures looks[j].pod.Some? {
      assert looks[j] in looks;
    }
  }

  /** The look found its pod not ready, and the timeout had passed since the pod was started, or since
      it was created when it was not started. */
  predicate LongNotReady(look: Look) {
    look.pod.Some? && !Ready(look.pod.value) &&
    look.clock.now >
      (match look.pod.value.started case Some(t) => t case None => look.pod.value.created) + look.clock.timeout
  }

  /** A fail-over deletes only pods of its templates, and only when all of them exist; each of them
      was not ready for longer than the timeout when examined; and they are at most half of all. */
  lemma FailOverBound(templates: seq<Name>, looks: seq<Look>, gone: set<Name>)
    requires Distinct(templates) && Outcome(templates, looks, gone)
    ensures gone <= All(templates) && |gone| <= |templates| / 2
    ensures forall name :: name in gone ==> exists i ::
      0 <= i < |looks| && templates[i] == name && Down(looks[i]) && LongNotReady(looks[i])
    ensures forall i :: 0 <= i < |looks| && !LongNotReady(looks[i]) ==> templates[i] !in gone
    ensures gone != {} ==> forall i :: 0 <= i < |looks| ==> looks[i].pod.Some?
  {
    forall name | name in gone ensures name in All(templates) && exists i ::
      0 <= i < |looks| && templates[i] == name && Down(looks[i]) && LongNotReady(looks[i])
    {
      var i := GoneWasDown(templates, looks, gone, name);
      CrashedIsNotReady(looks[i].pod.value, looks[i].clock);
    }
    forall i | 0 <= i < |looks| && !LongNotReady(looks[i]) ensures templates[i] !in gone {
      if templates[i] in gone {
        var j := GoneWasDown(templates, looks, gone, templates[i]);
        CrashedIsNotReady(looks[j].pod.value, looks[j].clock);
      }
    }
    NamesBound(FailOvers(looks));
    SubsetSize(gone, NamesOf(FailOvers(looks)));
    if name :| name in gone {
      var i := GoneWasDown(templates, looks, gone, name);
    }
  }

  /** The pods to fail over are exactly those not ready for longer than the timeout, in the order of
      the templates, provided that every template was found. */
  lemma FailOversIff(looks: seq<Look>, p: PodInfo)
    ensures p in FailOvers(looks) <==>
      && (forall i :: 0 <= i < |looks| ==> looks[i].pod.Some?)
      && exists i :: 0 <= i < |looks| && looks[i].pod == Some(p) && LongNotReady(looks[i])
  {
    CrashedNames(looks, p);
    forall i ensures 0 <= i < |looks| ==> (Down(looks[i]) <==> LongNotReady(looks[i])) {}
    if forall i :: 0 <= i < |looks| ==> looks[i].pod.Some? {
      forall l ensures l in looks ==> l.pod.Some? {}
      if i :| 0 <= i < |looks| && looks[i].pod == Some(p) && LongNotReady(looks[i]) {
        assert Down(looks[i]) && looks[i].pod.value == p;
      }
    } else {
      var i :| 0 <= i < |looks| && looks[i].pod.None?;
      assert looks[i] in looks;
    }
  }

  /** A fail-over acts on at least one and at most half of the pods. */
  lemma ActsIff(crashed: nat, templates: nat)
    ensures Acts(crashed, templates) <==> 1 <= crashed && 2 * crashed <= templates
  {
  }

  /** The budget of a set of odd size, of three or more, is what its largest fail-over takes. */
  lemma BudgetIsReached(templates: seq<Name>) returns (looks: seq<Look>, gone: set<Name>)
    requires Distinct(templates) && |templates| % 2 == 1 && |templates| >= 3
    ensures Outcome(templates, looks, gone) && |gone| == MaxUnavailable(Some(|templates|))
  {
    var h := |templates| / 2;
    looks := HalfFailsOver(templates, 0, h);
    gone := All(templates[0..h]);
    AllSize(templates[0..h]);
  }

  /** The budget without a count, and of no, one and two pods: none may go, and of no pod fewer. */
  lemma SmallBudgets()
    ensures MaxUnavailable(None) == 0 && MaxUnavailable(Some(1)) == 0 && MaxUnavailable(Some(2)) == 0
    ensures MaxUnavailable(Some(0)) == -1
  {
  }

  lemma SubsetSize(a: set<Name>, b: set<Name>)
    requires a <= b
    ensures |a| <= |b| && |b - a| == |b| - |a|
  {
    assert b == a + (b - a);
  }

  // ----- quorum -----

  /** Whatever two fail-overs of the same pods delete, some pod survives both. */
  ghost predicate KeepsQuorum(templates: seq<Name>) {
    forall looks, gone, others, lost :: Outcome(templates, looks, gone) && Outcome(templates, others, lost) ==>
      (All(templates) - gone) * (All(templates) - lost) != {}
  }

  ghost predicate KeepsMajority(templates: seq<Name>) {
    forall looks, gone :: Outcome(templates, looks, gone) ==> 2 * |All(templates) - gone| > |templates|
  }

  ghost predicate KeepsBudget(templates: seq<Name>) {
    forall looks, gone :: Outcome(templates, looks, gone) ==> |gone| <= MaxUnavailable(Some(|templates|))
  }

  /** Survivors are always a strict majority, and always meet, and the deleted pods always fit the
      disruption budget, exactly when the number of pods is odd. */
  lemma QuorumIffOdd(templates: seq<Name>)
    requires Distinct(templates) && templates != []
    ensures KeepsMajority(templates) <==> |templates| % 2 == 1
    ensures KeepsQuorum(templates) <==> |templates| % 2 == 1
    ensures KeepsBudget(templates) <==> |templates| % 2 == 1
  {
    if |templates| % 2 == 1 {
      OddKeepsMajority(templates);
      OddKeepsQuorum(templates);
    } else {
      EvenSplits(templates);
    }
  }

  lemma OddKeepsMajority(templates: seq<Name>)
    requires Distinct(templates) && |templates| % 2 == 1
    ensures KeepsMajority(templates) && KeepsBudget(templates)
  {
    AllSize(templates);
    forall looks, gone | Outcome(templates, looks, gone)
      ensures 2 * |All(templates) - gone| > |templates| && |gone| <= MaxUnavailable(Some(|templates|))
    {
      FailOverBound(templates, looks, gone);
      SubsetSize(gone, All(templates));
    }
  }

  lemma OddKeepsQuorum(templates: seq<Name>)
    requires Distinct(templates) && |templates| % 2 == 1
    ensures KeepsQuorum(templates)
  {
    AllSize(templates);
    forall looks, gone, others, lost | Outcome(templates, looks, gone) && Outcome(templates, others, lost)
      ensures (All(templates) - gone) * (All(templates) - lost) != {}
    {
      FailOverBound(templates, looks, gone);
      FailOverBound(templates, others, lost);
      MinoritiesLeaveOne(All(templates), gone, lost);
    }
  }

  lemma MinoritiesLeaveOne(all: set<Name>, a: set<Name>, b: set<Name>)
    requires a <= all && b <= all && 2 * |a| < |all| && 2 * |b| < |all|
    ensures (all - a) * (all - b) != {}
  {
    assert |a + b| == |a| + |b| - |a * b|;
    SubsetSize(a + b, all);
    var x :| x in all - (a + b);
    assert x in (all - a) * (all - b);
  }

  /** The looks in which exactly the pods from position a to b - 1 are crashed. */
  function DownBetween(templates: seq<Name>, a: nat, b: nat): (looks: seq<Look>)
    ensures ByName(templates, looks)
    ensures forall i :: 0 <= i < |looks| ==> looks[i].pod.Some? && (Down(looks[i]) <==> a <= i < b)
  {
    seq(|templates|, i requires 0 <= i < |templates| =>
      var phase := if a <= i < b then PhaseFailed else Running;
      Look(Some(PodInfo(templates[i], phase, [], [], Some(0), 0, [])), Clock(1, 0)))
  }

  lemma {:induction false} DownCount(looks: seq<Look>, a: nat, b: nat)
    requires a <= b && forall i :: 0 <= i < |looks| && Down(looks[i]) ==> a <= i < b
    ensures |CrashedOf(looks)| <= b - a
  {
    if looks != [] {
      var n := |looks| - 1;
      DownCount(looks[..n], a, if Down(looks[n]) then n else b);
    }
  }

  /** Half of an even number of pods can be failed over at once, the first half or the second. */
  lemma HalfFailsOver(templates: seq<Name>, a: nat, b: nat) returns (looks: seq<Look>)
    requires a < b <= |templates| && b - a <= |templates| / 2
    ensures Outcome(templates, looks, All(templates[a..b]))
  {
    looks := DownBetween(templates, a, b);
    DownCount(looks, a, b);
    forall l ensures l in looks ==> l.pod.Some? {}
    forall name | name in All(templates[a..b]) ensures name in NamesOf(FailOvers(looks)) {
      var i :| 0 <= i < b - a && templates[a..b][i] == name;
      CrashedNames(looks, looks[a + i].pod.value);
    }
    assert templates[a] in All(templates[a..b]) by {
      assert templates[a..b][0] == templates[a];
    }
    assert FailOvers(looks) != [];
  }

  /** The names before and from position h on. */
  lemma Halves(templates: seq<Name>, h: nat)
    requires Distinct(templates) && h <= |templates|
    ensures All(templates) == All(templates[..h]) + All(templates[h..])
    ensures |All(templates)| == |templates| && |All(templates[..h])| == h
    ensures |All(templates) - All(templates[..h])| == |templates| - h
  {
    assert templates == templates[..h] + templates[h..];
    AllSize(templates);
    AllSize(templates[..h]);
    SubsetSize(All(templates[..h]), All(templates));
  }

  /** The fail-overs of both halves of an even number of pods. */
  lemma HalvesFailOver(templates: seq<Name>)
    returns (looks: seq<Look>, gone: set<Name>, others: seq<Look>, lost: set<Name>)
    requires Distinct(templates) && templates != [] && |templates| % 2 == 0
    ensures Outcome(templates, looks, gone) && Outcome(templates, others, lost) && All(templates) == gone + lost
    ensures 2 * |All(templates) - gone| == |templates| == 2 * |gone|
  {
    var n, h := |templates|, |templates| / 2;
    assert templates[0..h] == templates[..h] && templates[h..n] == templates[h..];
    gone, lost := All(templates[0..h]), All(templates[h..n]);
    Halves(templates, h);
    looks := HalfFailsOver(templates, 0, h);
    others := HalfFailsOver(templates, h, n);
  }

  /** For every even number of pods the fail-over of one half leaves no majority and exceeds the
      budget, and the fail-overs of both halves leave no common survivor. */
  lemma EvenSplits(templates: seq<Name>)
    requires Distinct(templates) && templates != [] && |templates| % 2 == 0
    ensures !KeepsMajority(templates) && !KeepsQuorum(templates) && !KeepsBudget(templates)
  {
    var looks, gone, others, lost := HalvesFailOver(templates);
    NotKept(templates, looks, gone);
    NotMet(templates, looks, gone, others, lost);
  }

  lemma NotKept(templates: seq<Name>, looks: seq<Look>, gone: set<Name>)
    requires Outcome(templates, looks, gone) && |templates| > 1
    requires 2 * |All(templates) - gone| == |templates| == 2 * |gone|
    ensures !KeepsMajority(templates) && !KeepsBudget(templates)
  {
  }

  lemma NotMet(templates: seq<Name>, looks: seq<Look>, gone: set<Name>, others: seq<Look>, lost: set<Name>)
    requires Outcome(templates, looks, gone) && Outcome(templates, others, lost) && All(templates) == gone + lost
    ensures !KeepsQuorum(templates)
  {
    assert (All(templates) - gone) * (All(templates) - lost) == {};
  }
}
