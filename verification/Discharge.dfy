/** How pending restarts are discharged once everything else matches: one per category and
    reconcile, although every one of them restarts the whole category. */
module Discharge {
  import opened Types
  import opened Insertion
  import opened Planning
  import opened Execution
  import opened Rounds
  import opened Convergence

  /** A restart recorded for a resource that is asked for. */
  ghost predicate Owes(line: Resource, status: Status) {
    line.desired.Some? && line.meta.name in status && RestartPending(status[line.meta.name])
  }

  /** The category such a restart is planned for. */
  function CategoryOf(line: Resource, cluster: Cluster): Category
    requires line.desired.Some?
  {
    PendingCategory(MergeStage(Builtin(cluster), line))
  }

  ghost predicate OwesFor(line: Resource, cluster: Cluster, status: Status, k: Category) {
    Owes(line, status) && CategoryOf(line, cluster) == k
  }

  /** The number of resources from position i on that owe a restart of category k. */
  ghost function Debt(lines: seq<Resource>, cluster: Cluster, status: Status, k: Category, i: nat): nat
    requires i <= |lines|
    decreases |lines| - i
  {
    if i == |lines| then 0
    else (if OwesFor(lines[i], cluster, status, k) then 1 else 0) + Debt(lines, cluster, status, k, i + 1)
  }

  /** The last resource that owes a restart of category k, -1 without one. */
  ghost function LastOwner(lines: seq<Resource>, cluster: Cluster, status: Status, k: Category): (i: int)
    ensures -1 <= i < |lines| && (i >= 0 ==> OwesFor(lines[i], cluster, status, k))
    ensures forall j :: i < j < |lines| ==> !OwesFor(lines[j], cluster, status, k)
  {
    if lines == [] then -1
    else if OwesFor(lines[|lines| - 1], cluster, status, k) then |lines| - 1
    else LastOwner(lines[..|lines| - 1], cluster, status, k)
  }

  // ----- what is collected -----

  /** The commands of a matching resource end in a restart exactly when it owes one. */
  lemma MatchedVisit(line: Resource, cluster: Cluster, status: Status)
    requires !Differs(line, ObjectOf(line, cluster))
    ensures var st := Builtin(cluster); var r := MergeStage(st, line); var state := StateFinger(st, r, status);
      var cs := AdoptAll(Visit(st, r, state), r.meta);
      && !Changed(st, r) && (line.desired.Some? ==> (RestartPending(state) <==> Owes(line, status)))
      && if Owes(line, status) then cs != [] && IsDebt(line, cluster, cs[|cs| - 1]) && NoneRestarts(cs[..|cs| - 1])
         else NoneRestarts(cs)
  {
  }

  /** c restarts the category of line on behalf of line. */
  ghost predicate IsDebt(line: Resource, cluster: Cluster, c: Command)
    requires line.desired.Some?
  {
    c.action == Restart && c.owner == Some(line.meta) && c.category == CategoryOf(line, cluster)
  }

  ghost predicate NoneRestarts(cs: seq<Command>) {
    forall i :: 0 <= i < |cs| ==> cs[i].action != Restart
  }

  /** A matching resource adds a restart exactly when it owes one. */
  lemma MatchedStep(line: Resource, cluster: Cluster, p: Planned) returns (c: Command)
    requires !Differs(line, ObjectOf(line, cluster)) && !p.refused
    ensures var q := PlanOne(Builtin(cluster), line, p);
      && !q.refused
      && if Owes(line, p.status) then
           IsDebt(line, cluster, c) && Restarts(q.log) == Restarts(p.log)[c.category := c]
         else Restarts(q.log) == Restarts(p.log)
  {
    var st := Builtin(cluster);
    var r := MergeStage(st, line);
    var cs := AdoptAll(Visit(st, r, StateFinger(st, r, p.status)), r.meta);
    MatchedVisit(line, cluster, p.status);
    MatchedLogStep(line, cluster, p);
    if Owes(line, p.status) {
      c := cs[|cs| - 1];
      OnlyRestart(p.log, cs, c);
    } else {
      NoRestart(p.log, cs);
      c := Command(Restart, "", None, "", None, NoPods);
    }
  }

  lemma MatchedLogStep(line: Resource, cluster: Cluster, p: Planned)
    requires !Differs(line, ObjectOf(line, cluster))
    ensures var st := Builtin(cluster); var r := MergeStage(st, line); var q := PlanOne(st, line, p);
      && !q.refused && q.log == p.log + AdoptAll(Visit(st, r, StateFinger(st, r, p.status)), r.meta)
  {
    MatchedVisit(line, cluster, p.status);
  }

  /** Planning a matching resource leaves its debt as it was. */
  lemma MatchedDebt(line: Resource, cluster: Cluster, p: Planned)
    requires !Differs(line, ObjectOf(line, cluster))
    ensures Owes(line, PlanOne(Builtin(cluster), line, p).status) <==> Owes(line, p.status)
  {
    var st := Builtin(cluster);
    var r := MergeStage(st, line);
    var state := StateFinger(st, r, p.status);
    var cs := AdoptAll(Visit(st, r, state), r.meta);
    MatchedVisit(line, cluster, p.status);
    MatchedEntry(line, cluster, p);
    NoteAllEntry(state, cs, Restart);
    if Owes(line, p.status) {
      assert cs[|cs| - 1] in cs;
    }
  }

  lemma MatchedEntry(line: Resource, cluster: Cluster, p: Planned)
    requires !Differs(line, ObjectOf(line, cluster))
    ensures var st := Builtin(cluster); var r := MergeStage(st, line); var state := StateFinger(st, r, p.status);
      var cs := AdoptAll(Visit(st, r, state), r.meta);
      PlanOne(st, line, p).status == if cs == [] then p.status else p.status[line.meta.name := NoteAll(state, cs)]
  {
    MatchedVisit(line, cluster, p.status);
  }

  /** A chain of commands that ends in its only restart. */
  lemma OnlyRestart(log: seq<Command>, cs: seq<Command>, c: Command)
    requires cs != [] && cs[|cs| - 1] == c && c.action == Restart && NoneRestarts(cs[..|cs| - 1])
    ensures Restarts(log + cs) == Restarts(log)[c.category := c]
  {
    var n := |cs| - 1;
    NoRestart(log, cs[..n]);
    RestartsStep(log + cs[..n], c);
    assert log + cs == (log + cs[..n]) + [c];
  }

  lemma RestartsStep(log: seq<Command>, c: Command)
    ensures Restarts(log + [c]) == if c.action == Restart then Restarts(log)[c.category := c] else Restarts(log)
  {
    assert (log + [c])[..|log|] == log;
  }

  lemma {:induction false} NoRestart(log: seq<Command>, cs: seq<Command>)
    requires NoneRestarts(cs)
    ensures Restarts(log + cs) == Restarts(log)
  {
    if cs == [] {
      assert log + cs == log;
    } else {
      var n := |cs| - 1;
      NoRestart(log, cs[..n]);
      RestartsStep(log + cs[..n], cs[n]);
      assert log + cs == (log + cs[..n]) + [cs[n]];
    }
  }

  /** The restart collected for a category is that of its last owner, and planning keeps all debts. */
  lemma {:induction false} MatchedLog(lines: seq<Resource>, cluster: Cluster, status: Status, k: Category)
    requires DistinctNames(lines) && AllMatch(lines, cluster)
    ensures var p := PlanAll(Builtin(cluster), lines, status); var last := LastOwner(lines, cluster, status, k);
      && !p.refused && (k in Restarts(p.log) <==> last >= 0)
      && (last >= 0 ==> Restarts(p.log)[k].owner == Some(lines[last].meta))
  {
    if lines != [] {
      var n := |lines| - 1;
      var before := PlanAll(Builtin(cluster), lines[..n], status);
      MatchPrefix(lines, cluster, n);
      MatchedLog(lines[..n], cluster, status, k);
      SameDebt(lines, cluster, status);
      var c := MatchedStep(lines[n], cluster, before);
      var last := LastOwner(lines[..n], cluster, status, k);
      assert last >= 0 ==> lines[..n][last] == lines[last];
    }
  }

  lemma MatchPrefix(lines: seq<Resource>, cluster: Cluster, n: nat)
    requires DistinctNames(lines) && AllMatch(lines, cluster) && n <= |lines|
    ensures DistinctNames(lines[..n]) && AllMatch(lines[..n], cluster)
  {
    forall i | 0 <= i < n ensures !Differs(lines[..n][i], ObjectOf(lines[..n][i], cluster)) {
      assert lines[..n][i] == lines[i];
    }
  }

  /** Planning the earlier resources does not touch the entry of the last one. */
  lemma SameDebt(lines: seq<Resource>, cluster: Cluster, status: Status)
    requires lines != [] && DistinctNames(lines)
    ensures var n := |lines| - 1;
      Owes(lines[n], PlanAll(Builtin(cluster), lines[..n], status).status) <==> Owes(lines[n], status)
  {
    var n := |lines| - 1;
    OtherResource(Builtin(cluster), lines[..n], status, 0, lines[n].meta.name);
    assert lines[..n][..0] == [];
  }

  lemma MatchedStatus(lines: seq<Resource>, cluster: Cluster, status: Status, i: nat)
    requires DistinctNames(lines) && AllMatch(lines, cluster) && i < |lines|
    ensures Owes(lines[i], PlanAll(Builtin(cluster), lines, status).status) <==> Owes(lines[i], status)
  {
    var st, done := Builtin(cluster), lines[..i + 1];
    assert done[..i] == lines[..i];
    MatchPrefix(lines, cluster, i);
    MatchedLog(lines[..i], cluster, status, "");
    SameDebt(done, cluster, status);
    MatchedDebt(lines[i], cluster, PlanAll(st, lines[..i], status));
    OtherResource(st, lines, status, i + 1, lines[i].meta.name);
  }

  // ----- what is executed -----

  /** The restarts of a plan are the collected ones of the walked categories. */
  lemma PlanRestarts(log: seq<Command>, order: seq<Category>, c: Command)
    requires RestartOrder(log, order)
    ensures c in FinalPlan(log, order) && c.action == Restart <==> exists k :: k in order && c == Restarts(log)[k]
  {
    PlanKeys(NonRestarts(log));
    NonRestartsIn(log, c);
    var tail := RestartsIn(log, order);
    if k :| k in order && c == Restarts(log)[k] {
      var i :| 0 <= i < |order| && order[i] == k;
      assert tail[i] in tail;
      var m := RestartsAreLast(log, k);
    }
    if c in tail {
      var i :| 0 <= i < |tail| && tail[i] == c;
      assert order[i] in order;
    }
  }

  /** When everything matches, the plan restarts exactly the categories that owe a restart. */
  lemma MatchedPlan(lines: seq<Resource>, cluster: Cluster, status: Status, order: seq<Category>, k: Category)
    requires WellFormed(lines, cluster) && AllMatch(lines, cluster)
    requires RestartOrder(PlanAll(Builtin(cluster), lines, status).log, order)
    ensures k in order <==> LastOwner(lines, cluster, status, k) >= 0
  {
    var log := PlanAll(Builtin(cluster), lines, status).log;
    CollectedMoves(lines, cluster, status);
    MatchedLog(lines, cluster, status, k);
    assert Skips(log) == {};
  }

  ghost predicate Restarted(plan: seq<Command>, n: Name) {
    exists c :: c in plan && Runs(c, n, Restart)
  }

  /** A restart of the plan belongs to the last owner of its category. */
  lemma OwnerOfRestart(lines: seq<Resource>, cluster: Cluster, status: Status, order: seq<Category>, c: Command)
    returns (k: Category)
    requires WellFormed(lines, cluster) && AllMatch(lines, cluster) && c.action == Restart
    requires var log := PlanAll(Builtin(cluster), lines, status).log;
      RestartOrder(log, order) && c in FinalPlan(log, order)
    ensures var last := LastOwner(lines, cluster, status, k); last >= 0 && c.owner == Some(lines[last].meta)
  {
    var log := PlanAll(Builtin(cluster), lines, status).log;
    PlanRestarts(log, order, c);
    k :| k in order && c == Restarts(log)[k];
    MatchedLog(lines, cluster, status, k);
  }

  /** The last owner of a category is restarted. */
  lemma OwnerIsRestarted(lines: seq<Resource>, cluster: Cluster, status: Status, order: seq<Category>, k: Category)
    requires WellFormed(lines, cluster) && AllMatch(lines, cluster) && LastOwner(lines, cluster, status, k) >= 0
    requires RestartOrder(PlanAll(Builtin(cluster), lines, status).log, order)
    ensures Restarted(FinalPlan(PlanAll(Builtin(cluster), lines, status).log, order),
              lines[LastOwner(lines, cluster, status, k)].meta.name)
  {
    var log := PlanAll(Builtin(cluster), lines, status).log;
    MatchedPlan(lines, cluster, status, order, k);
    MatchedLog(lines, cluster, status, k);
    PlanRestarts(log, order, Restarts(log)[k]);
    var m := RestartsAreLast(log, k);
    assert Runs(Restarts(log)[k], lines[LastOwner(lines, cluster, status, k)].meta.name, Restart);
  }

  /** Resource i is restarted exactly when it is the last that owes a restart of its category. */
  lemma RestartedIff(lines: seq<Resource>, cluster: Cluster, status: Status, order: seq<Category>, i: nat)
    requires WellFormed(lines, cluster) && AllMatch(lines, cluster) && i < |lines| && lines[i].desired.Some?
    requires RestartOrder(PlanAll(Builtin(cluster), lines, status).log, order)
    ensures Restarted(FinalPlan(PlanAll(Builtin(cluster), lines, status).log, order), lines[i].meta.name)
      <==> LastOwner(lines, cluster, status, CategoryOf(lines[i], cluster)) == i
  {
    var plan := FinalPlan(PlanAll(Builtin(cluster), lines, status).log, order);
    if LastOwner(lines, cluster, status, CategoryOf(lines[i], cluster)) == i {
      OwnerIsRestarted(lines, cluster, status, order, CategoryOf(lines[i], cluster));
    }
    if c :| c in plan && Runs(c, lines[i].meta.name, Restart) {
      var k := OwnerOfRestart(lines, cluster, status, order, c);
      var j: nat := LastOwner(lines, cluster, status, k);
      assert lines[j].meta.name == lines[i].meta.name;
      assert i == j;
    }
  }

  // ----- one reconcile -----

  lemma {:induction false} NothingMutated(server: Server, cs: seq<Command>, cluster: Cluster, k: nat)
    requires k <= |cs| && forall c :: c in cs ==> !Mutating(c.action)
    ensures ExecCluster(server, cs, [], cluster, k) == cluster
  {
    if k > 0 {
      NothingMutated(server, cs, cluster, k - 1);
      assert cs[k - 1] in cs;
    }
  }

  /** What running a plan of restarts, all successful, leaves of a debt. */
  lemma DebtAfterRun(line: Resource, plan: seq<Command>, status: Status)
    ensures Owes(line, Persist(ExecStatus(plan, [], status, |plan|))) <==>
      Owes(line, status) && !Restarted(plan, line.meta.name)
  {
    var n := line.meta.name;
    ExecEntry(plan, [], status, |plan|, n, Restart);
    var i := LastRun(plan, |plan|, n, Restart);
    if i >= 0 {
      assert plan[i] in plan;
    }
    if n in status {
      ExecKeepsNames(plan, [], status, |plan|, n);
    }
  }

  /** A quiet reconcile of a matching cluster discharges a debt exactly when it is the last one of its
      category; no debt is added and no object changes. */
  lemma {:induction false} DebtAfter(lines: seq<Resource>, server: Server, w: World, order: seq<Category>, n: nat,
                                     i: nat)
    requires WellFormed(lines, w.cluster) && AllMatch(lines, w.cluster) && i < |lines|
    requires Legal(QuietTurn(lines, server, w.cluster, order, n), w)
    ensures var after := Reconcile(QuietTurn(lines, server, w.cluster, order, n), w);
      && after.cluster == w.cluster
      && (Owes(lines[i], after.status) <==>
            Owes(lines[i], w.status) && LastOwner(lines, w.cluster, w.status, CategoryOf(lines[i], w.cluster)) != i)
  {
    var t := QuietTurn(lines, server, w.cluster, order, n);
    ClusterStays(lines, server, w, order, n);
    MatchedIsQuiet(lines, server, w, order, n);
    QuietStops(|PlanOf(t, w)|, n);
    if lines[i].desired.Some? {
      RestartedIff(lines, w.cluster, w.status, order, i);
      MatchedStatus(lines, w.cluster, w.status, i);
      DebtAfterRun(lines[i], PlanOf(t, w), PlanAll(t.st, t.lines, w.status).status);
    }
  }

  lemma {:induction false} NoDebtIff(lines: seq<Resource>, cluster: Cluster, status: Status, k: Category, i: nat)
    requires i <= |lines|
    ensures Debt(lines, cluster, status, k, i) == 0 <==> LastOwner(lines, cluster, status, k) < i
    decreases |lines| - i
  {
    if i < |lines| {
      NoDebtIff(lines, cluster, status, k, i + 1);
    }
  }

  function Less(debt: nat, rounds: nat): nat {
    if debt <= rounds then 0 else debt - rounds
  }

  /** One debt per category is discharged. */
  lemma {:induction false} DebtRound(lines: seq<Resource>, server: Server, w: World, order: seq<Category>, n: nat,
                                     k: Category, i: nat)
    requires WellFormed(lines, w.cluster) && AllMatch(lines, w.cluster) && i <= |lines|
    requires Legal(QuietTurn(lines, server, w.cluster, order, n), w)
    ensures var after := Reconcile(QuietTurn(lines, server, w.cluster, order, n), w);
      Debt(lines, w.cluster, after.status, k, i) == Less(Debt(lines, w.cluster, w.status, k, i), 1)
    decreases |lines| - i
  {
    if i < |lines| {
      DebtRound(lines, server, w, order, n, k, i + 1);
      OwesAfter(lines, server, w, order, n, k, i);
    }
  }

  /** A debt stays exactly while there is another behind it. */
  lemma OwesAfter(lines: seq<Resource>, server: Server, w: World, order: seq<Category>, n: nat, k: Category, i: nat)
    requires WellFormed(lines, w.cluster) && AllMatch(lines, w.cluster) && i < |lines|
    requires Legal(QuietTurn(lines, server, w.cluster, order, n), w)
    ensures var after := Reconcile(QuietTurn(lines, server, w.cluster, order, n), w);
      OwesFor(lines[i], w.cluster, after.status, k) <==>
        OwesFor(lines[i], w.cluster, w.status, k) && Debt(lines, w.cluster, w.status, k, i + 1) > 0
  {
    DebtAfter(lines, server, w, order, n, i);
    if OwesFor(lines[i], w.cluster, w.status, k) {
      LastDebtIff(lines, w.cluster, w.status, k, i);
    }
  }

  lemma LastDebtIff(lines: seq<Resource>, cluster: Cluster, status: Status, k: Category, i: nat)
    requires i < |lines| && OwesFor(lines[i], cluster, status, k)
    ensures LastOwner(lines, cluster, status, k) == i <==> Debt(lines, cluster, status, k, i + 1) == 0
  {
    NoDebtIff(lines, cluster, status, k, i + 1);
  }

  /** A category is restarted exactly when some resource owes a restart of it. */
  lemma RestartsWhileInDebt(lines: seq<Resource>, server: Server, w: World, order: seq<Category>, n: nat, k: Category)
    requires WellFormed(lines, w.cluster) && AllMatch(lines, w.cluster)
    requires Legal(QuietTurn(lines, server, w.cluster, order, n), w)
    ensures !PlanAll(Builtin(w.cluster), lines, w.status).refused
    ensures CollectedRestart(PlanOf(QuietTurn(lines, server, w.cluster, order, n), w), k) <==>
      Debt(lines, w.cluster, w.status, k, 0) > 0
  {
    MatchedIsQuiet(lines, server, w, order, n);
    MatchedPlan(lines, w.cluster, w.status, order, k);
    NoDebtIff(lines, w.cluster, w.status, k, 0);
    var log := PlanAll(Builtin(w.cluster), lines, w.status).log;
    PlanShape(log, order);
    var m := RestartsAreLast(log, k);
    CollectedMoves(lines, w.cluster, w.status);
    MatchedLog(lines, w.cluster, w.status, k);
    assert Skips(log) == {};
  }

  // ----- whole runs -----

  /** In a quiet run that starts with everything matching, each reconcile discharges exactly one debt
      of every category that has any, until none is left, and changes no object.  As it restarts the
      whole category for that, as many rolling restarts follow as resources owed one. */
  lemma {:induction false} OneDebtPerReconcile(lines: seq<Resource>, server: Server, ts: seq<Turn>, ws: seq<World>,
                                               r: nat, k: Category)
    requires QuietRun(lines, server, ts, ws) && r < |ws|
    requires WellFormed(lines, ws[0].cluster) && AllMatch(lines, ws[0].cluster)
    ensures ws[r].cluster == ws[0].cluster
    ensures Debt(lines, ws[r].cluster, ws[r].status, k, 0) == Less(Debt(lines, ws[0].cluster, ws[0].status, k, 0), r)
    ensures r < |ts| ==> !PlanAll(ts[r].st, ts[r].lines, ws[r].status).refused && Legal(ts[r], ws[r])
    ensures r < |ts| ==>
      (CollectedRestart(PlanOf(ts[r], ws[r]), k) <==> r < Debt(lines, ws[0].cluster, ws[0].status, k, 0))
  {
    if r > 0 {
      OneDebtPerReconcile(lines, server, ts, ws, r - 1, k);
      assert QuietStep(lines, server, ts[r - 1], ws[r - 1], ws[r - 1 + 1]);
      DebtRound(lines, server, ws[r - 1], ts[r - 1].order, ts[r - 1].applied, k, 0);
      ClusterStays(lines, server, ws[r - 1], ts[r - 1].order, ts[r - 1].applied);
    }
    if r < |ts| {
      assert QuietStep(lines, server, ts[r], ws[r], ws[r + 1]);
      RestartsWhileInDebt(lines, server, ws[r], ts[r].order, ts[r].applied, k);
    }
  }

  lemma ClusterStays(lines: seq<Resource>, server: Server, w: World, order: seq<Category>, n: nat)
    requires WellFormed(lines, w.cluster) && AllMatch(lines, w.cluster)
    requires Legal(QuietTurn(lines, server, w.cluster, order, n), w)
    ensures Reconcile(QuietTurn(lines, server, w.cluster, order, n), w).cluster == w.cluster
  {
    var t := QuietTurn(lines, server, w.cluster, order, n);
    MatchedIsQuiet(lines, server, w, order, n);
    QuietCluster(t, w);
    NothingMutated(server, PlanOf(t, w), w.cluster, |PlanOf(t, w)|);
  }

  lemma Suffix(lines: seq<Resource>, server: Server, ts: seq<Turn>, ws: seq<World>, m: nat)
    requires QuietRun(lines, server, ts, ws) && m < |ws|
    ensures QuietRun(lines, server, ts[m..], ws[m..])
  {
    forall i | 0 <= i < |ts[m..]| ensures QuietStep(lines, server, ts[m..][i], ws[m..][i], ws[m..][i + 1]) {
      assert QuietStep(lines, server, ts[m + i], ws[m + i], ws[m + i + 1]);
    }
  }

  lemma {:induction false} DebtBound(lines: seq<Resource>, cluster: Cluster, status: Status, k: Category, i: nat)
    requires i <= |lines|
    ensures Debt(lines, cluster, status, k, i) <= |lines| - i
    decreases |lines| - i
  {
    if i < |lines| {
      DebtBound(lines, cluster, status, k, i + 1);
    }
  }

  lemma {:induction false} DebtOf(lines: seq<Resource>, cluster: Cluster, status: Status, k: Category, i: nat, j: nat)
    requires i <= j < |lines| && OwesFor(lines[j], cluster, status, k)
    ensures Debt(lines, cluster, status, k, i) > 0
    decreases j - i
  {
    if i < j {
      DebtOf(lines, cluster, status, k, i + 1, j);
    }
  }

  /** The debts of a matching cluster are gone after as many reconciles as there are resources. */
  lemma DebtsEnd(lines: seq<Resource>, server: Server, ts: seq<Turn>, ws: seq<World>, r: nat, j: nat)
    requires QuietRun(lines, server, ts, ws) && |lines| <= r < |ws| && j < |lines|
    requires WellFormed(lines, ws[0].cluster) && AllMatch(lines, ws[0].cluster)
    ensures !Owes(lines[j], ws[r].status)
  {
    if Owes(lines[j], ws[r].status) {
      var k := CategoryOf(lines[j], ws[r].cluster);
      OneDebtPerReconcile(lines, server, ts, ws, r, k);
      DebtBound(lines, ws[0].cluster, ws[0].status, k, 0);
      DebtOf(lines, ws[r].cluster, ws[r].status, k, 0, j);
    }
  }

  /** Every quiet run without a stuck resource discharges everything: from reconcile Measure plus the
      number of resources on, all resources match and none of them has a restart pending. */
  lemma {:induction false} TotalDischarge(lines: seq<Resource>, server: Server, ts: seq<Turn>, ws: seq<World>,
                                          r: nat, j: nat)
    requires QuietRun(lines, server, ts, ws) && NoneStuck(server, lines, ws[0].cluster)
    requires Measure(lines, Everything(lines), ws[0].cluster) + |lines| <= r < |ws| && j < |lines|
    ensures AllMatch(lines, ws[r].cluster) && !Owes(lines[j], ws[r].status)
  {
    var m := Measure(lines, Everything(lines), ws[0].cluster);
    MatchesAfter(lines, server, ts, ws, r);
    MatchesAfter(lines, server, ts, ws, m);
    DebtsEndFrom(lines, server, ts, ws, m, r, j);
  }

  lemma DebtsEndFrom(lines: seq<Resource>, server: Server, ts: seq<Turn>, ws: seq<World>, m: nat, r: nat, j: nat)
    requires QuietRun(lines, server, ts, ws) && m + |lines| <= r < |ws| && j < |lines|
    requires WellFormed(lines, ws[m].cluster) && AllMatch(lines, ws[m].cluster)
    ensures !Owes(lines[j], ws[r].status)
  {
    Suffix(lines, server, ts, ws, m);
    assert ws[m..][r - m] == ws[r] && ws[m..][0] == ws[m];
    DebtsEnd(lines, server, ts[m..], ws[m..], r - m, j);
  }

  lemma MatchesAfter(lines: seq<Resource>, server: Server, ts: seq<Turn>, ws: seq<World>, k: nat)
    requires QuietRun(lines, server, ts, ws) && NoneStuck(server, lines, ws[0].cluster)
    requires Measure(lines, Everything(lines), ws[0].cluster) <= k < |ws|
    ensures WellFormed(lines, ws[k].cluster) && AllMatch(lines, ws[k].cluster)
  {
    NoneStuckIsWellFormed(server, lines, ws[0].cluster);
    Converges(lines, server, ts, ws, k);
    RunDrops(lines, server, Everything(lines), ts, ws, k);
  }
}
