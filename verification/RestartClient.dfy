/** The code of the rolling restart, step by step, against a cluster that moves on its own between
    any two calls.  Every execution is a run of the protocol in RollingRestart. */
module RestartClient {
  import opened Types
  import opened RollingRestart

  class PodClient {
    var cluster: Snapshot
    ghost var pc: Pc
    ghost var issued: bool
    ghost var trace: seq<Moment>

    ghost function Now(): Moment
      reads this
    {
      Moment(cluster, pc, issued)
    }

    /** trace records every step so far, the operator's and the cluster's. */
    ghost predicate Valid()
      reads this
    {
      IsHistory(trace) && trace[|trace| - 1] == Now()
    }

    constructor (cluster: Snapshot)
      ensures Valid() && trace == [Begin(cluster)] && this.cluster == cluster
    {
      this.cluster := cluster;
      this.pc := Begin(cluster).pc;
      this.issued := false;
      this.trace := [Begin(cluster)];
    }

    ghost predicate SameStart(before: seq<Moment>, size: nat)
      reads this
    {
      before != [] && trace != [] && trace[0] == before[0] && |cluster.pods| == size
    }

    /** One step of the operator that leaves the cluster alone. */
    ghost method Move(next: Pc)
      requires Valid() && OperatorMoves(Now(), Now().(pc := next))
      modifies this`pc, this`trace
      ensures Valid() && pc == next && trace[0] == old(trace[0])
    {
      Extend(trace, Now().(pc := next));
      pc := next;
      trace := trace + [Now()];
    }

    /** Anything the cluster may do before the next call. */
    method Interfere()
      requires Valid()
      modifies this`cluster, this`trace
      ensures Valid() && trace[0] == old(trace[0]) && |cluster.pods| == |old(cluster.pods)|
    {
      var next: Snapshot := *;
      if ClusterMoves(cluster, next) {
        Extend(trace, Now().(cluster := next));
        cluster := next;
        trace := trace + [Now()];
      }
    }

    /** Looks the templates up one by one; any look-up may fail. */
    method CheckIfExists(ghost why: Why) returns (found: seq<Option<Pod>>, failed: bool)
      requires Valid() && pc == Looking([], why)
      modifies this`cluster, this`pc, this`trace
      ensures Valid() && SameStart(old(trace), |old(cluster.pods)|)
      ensures pc == Looking(found, why) && |found| <= |cluster.pods| && (failed <==> |found| < |cluster.pods|)
    {
      found := [];
      while |found| < |cluster.pods|
        invariant Valid() && SameStart(old(trace), |old(cluster.pods)|)
        invariant pc == Looking(found, why) && |found| <= |cluster.pods|
        decreases |old(cluster.pods)| - |found|
      {
        Interfere();
        failed := *;
        if failed {
          return;
        }
        found := found + [cluster.pods[|found|]];
        Move(Looking(found, why));
      }
      failed := false;
    }

    /** One poll: whether the wait for pod k is over. */
    method TerminalWaitPodReady(k: nat, seen: seq<Pod>) returns (back: bool)
      requires Valid() && pc == Looking([], Await(k, seen)) && k < |seen| == |cluster.pods|
      modifies this`cluster, this`pc, this`trace
      ensures Valid() && SameStart(old(trace), |old(cluster.pods)|)
      ensures pc.Looking? && pc.why == Await(k, seen)
      ensures if back then |pc.found| == |seen| && Returned(pc.found, k, seen)
              else |pc.found| < |seen| || (|pc.found| == |seen| && !Returned(pc.found, k, seen))
    {
      var found, failed := CheckIfExists(Await(k, seen));
      if failed {
        return false;
      }
      if AllNone(found) {
        return true;
      }
      if found[k].None? || found[k].value.uid == seen[k].uid {
        return false;
      }
      return found[k].value.ready;
    }

    /** Deletes pod k by name; a failing call may still have had its effect. */
    method Delete(k: nat, ghost seen: seq<Pod>) returns (failed: bool)
      requires Valid() && pc == Deleting(k, seen) && k < |cluster.pods|
      modifies this
      ensures Valid() && SameStart(old(trace), |old(cluster.pods)|)
      ensures pc == if failed then Done(true, seen) else Looking([], Await(k, seen))
    {
      Interfere();
      failed := *;
      var lost: bool := *;
      ghost var before := Now();
      if !failed || !lost {
        cluster := Snapshot(Requested(cluster.pods, k), cluster.unused);
      }
      issued := true;
      pc := if failed then Done(true, seen) else Looking([], Await(k, seen));
      assert OperatorMoves(before, Now());
      Extend(trace, Now());
      trace := trace + [Now()];
    }

    /** Waits for pod k until it is back or the deadline, some number of polls away, has passed. */
    method AwaitPod(k: nat, seen: seq<Pod>) returns (late: bool)
      requires Valid() && pc == Looking([], Await(k, seen)) && k < |seen| == |cluster.pods|
      modifies this`cluster, this`pc, this`trace
      ensures Valid() && SameStart(old(trace), |old(cluster.pods)|)
      ensures pc == if late then Done(true, seen) else Deleting(k + 1, seen)
    {
      var polls: nat := *;
      var back := TerminalWaitPodReady(k, seen);
      while !back
        invariant Valid() && SameStart(old(trace), |old(cluster.pods)|)
        invariant pc.Looking? && pc.why == Await(k, seen)
        invariant if back then |pc.found| == |seen| && Returned(pc.found, k, seen)
                  else |pc.found| < |seen| || (|pc.found| == |seen| && !Returned(pc.found, k, seen))
        decreases polls, if back then 0 else 1
      {
        if polls == 0 {
          Move(Done(true, seen));
          return true;
        }
        polls := polls - 1;
        Move(Looking([], Await(k, seen)));
        back := TerminalWaitPodReady(k, seen);
      }
      Move(Deleting(k + 1, seen));
      return false;
    }

    /** The rolling restart.  What it did is a run of the protocol that ends with its answer. */
    method Restart() returns (error: bool)
      requires Valid() && trace == [Begin(cluster)]
      modifies this
      ensures IsHistory(trace) && trace[0] == Begin(old(cluster)) && trace[|trace| - 1].cluster == cluster
      ensures trace[|trace| - 1].pc.Done? && trace[|trace| - 1].pc.error == error
    {
      if |cluster.pods| == 0 {
        return true;
      }
      var found, failed := CheckIfExists(Validate);
      if failed {
        Move(Done(true, []));
        return true;
      }
      Move(Validated(found));
      if AllNone(found) {
        return false;
      }
      if !AllReady(found) {
        return true;
      }
      var seen := Values(found);
      for k := 0 to |seen|
        invariant Valid() && SameStart(old(trace), |old(cluster.pods)|)
        invariant pc == Deleting(k, seen)
      {
        failed := Delete(k, seen);
        if failed {
          return true;
        }
        var late := AwaitPod(k, seen);
        if late {
          return true;
        }
      }
      Move(Done(false, seen));
      return false;
    }
  }
}
