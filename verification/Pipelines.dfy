/** The pipeline object of kernel/component_reconcile_worker.go: it builds the resource list, plans
    the command list and executes it, all in place. */
module Pipelines {
  import opened Types
  import opened Lines
  import opened Insertion
  import opened Planning
  import opened Execution
  import opened Rounds

  /** What making one chain element gives: a chain of resources, possibly none, or an error. */
  datatype Made = Made(line: Node?<Resource>, failed: bool)

  function Flatten<T>(ss: seq<seq<T>>): seq<T> {
    if ss == [] then [] else Flatten(ss[..|ss| - 1]) + ss[|ss| - 1]
  }

  ghost function Owned<T>(foot: seq<set<T>>): set<T> {
    set i, n | 0 <= i < |foot| && n in foot[i] :: n
  }

  class Pipeline {
    const st: Stages
    var resources: Node?<Resource>
    var commands: Node?<Command>
    var status: Status
    /** The cluster, and how its API server stores each object. */
    var cluster: Cluster
    const server: Server
    ghost var resourceLine: seq<Node<Resource>>
    ghost var commandLine: seq<Node<Command>>
    ghost var commandNodes: set<Node<Command>>

    ghost predicate Valid()
      reads this, resourceLine, commandLine
    {
      Heads(resources, resourceLine) && Chain(resourceLine) && ValidPlan()
    }

    ghost predicate ValidPlan()
      reads this, commandLine
    {
      Heads(commands, commandLine) && Chain(commandLine) && Among(commandLine, commandNodes)
    }

    constructor (st: Stages, status: Status, cluster: Cluster, server: Server)
      ensures Valid() && resourceLine == [] && commandLine == [] && commandNodes == {}
      ensures this.st == st && this.status == status && this.cluster == cluster && this.server == server
    {
      this.st, this.status, this.cluster, this.server := st, status, cluster, server;
      resources, commands := null, null;
      resourceLine, commandLine, commandNodes := [], [], {};
    }

    /** Inserts a copy of an action into the plan. */
    method AddAction(c: Command)
      requires ValidPlan()
      modifies this`commands, this`commandLine, this`commandNodes, commandNodes`next
      ensures ValidPlan() && Data(commandLine) == Insert(old(Data(commandLine)), c)
      ensures fresh(commandNodes - old(commandNodes))
    {
      var node := new Node<Command>(c);
      assert node !in commandNodes;
      if commands == null {
        commands, commandLine := node, [node];
      } else {
        ghost var kept := InsertNode(commands, node, commandLine, commandNodes);
        commandLine := kept + [node];
        SameData(commandLine, Data(kept) + [c]);
      }
      commandNodes := commandNodes + {node};
    }

    /** Hangs a restart behind the plan. */
    method AppendRestart(c: Command)
      requires ValidPlan()
      modifies this`commands, this`commandLine, this`commandNodes, commandNodes`next
      ensures ValidPlan() && Data(commandLine) == old(Data(commandLine)) + [c]
      ensures fresh(commandNodes - old(commandNodes))
    {
      var node := new Node<Command>(c);
      assert node !in commandNodes;
      if commands == null {
        commands, commandLine := node, [node];
      } else {
        ghost var line := commandLine;
        commands.Append(node, line, [node], commandNodes);
        commandLine := line + [node];
      }
      commandNodes := commandNodes + {node};
    }

    /** The plan under construction and the two maps of the planner reflect what was collected. */
    ghost predicate Booked(log: seq<Command>, restarts: map<Category, Command>, skips: set<Category>)
      reads this, commandLine
    {
      restarts == Restarts(log) && skips == Skips(log) && Data(commandLine) == InsertAll(NonRestarts(log))
    }

    /** One collected command: records its state, files a restart by category, notes a category that
        is created or deleted, and inserts everything but restarts into the plan. */
    method TakeAction(a: Command, state: ComponentState, restarts: map<Category, Command>, skips: set<Category>,
                      ghost log: seq<Command>)
      returns (noted: ComponentState, restarts': map<Category, Command>, skips': set<Category>)
      requires ValidPlan() && Booked(log, restarts, skips)
      modifies this`commands, this`commandLine, this`commandNodes, commandNodes`next
      ensures ValidPlan() && Booked(log + [a], restarts', skips') && noted == Note(state, a)
      ensures fresh(commandNodes - old(commandNodes))
    {
      LogStep(log, a);
      noted, restarts', skips' := RecordActionState(state, a.action, Preparing, a.message), restarts, skips;
      if a.action == Create || a.action == Delete {
        skips' := skips' + {a.category};
      }
      if a.action == Restart {
        noted := RecordActionState(noted, a.action, WaitRestart, a.message);
        restarts' := restarts'[a.category := a];
      } else {
        AddAction(a);
      }
    }

    /** Walks the commands of one resource. */
    method TakeActions(cs: seq<Command>, state: ComponentState, restarts: map<Category, Command>,
                       skips: set<Category>, ghost log: seq<Command>)
      returns (noted: ComponentState, restarts': map<Category, Command>, skips': set<Category>)
      requires ValidPlan() && Booked(log, restarts, skips)
      modifies this`commands, this`commandLine, this`commandNodes, commandNodes`next
      ensures ValidPlan() && Booked(log + cs, restarts', skips') && noted == NoteAll(state, cs)
      ensures fresh(commandNodes - old(commandNodes))
    {
      noted, restarts', skips' := state, restarts, skips;
      ghost var seen := log;
      for i := 0 to |cs|
        invariant ValidPlan() && Booked(seen, restarts', skips')
        invariant seen == log + cs[..i] && noted == NoteAll(state, cs[..i])
        invariant fresh(commandNodes - old(commandNodes))
      {
        TakeOneMore(log, cs, i);
        noted, restarts', skips' := TakeAction(cs[i], noted, restarts', skips', seen);
        seen := seen + [cs[i]];
      }
      assert cs[..|cs|] == cs;
    }

    /** Takes the commands of one resource and records its state. */
    method SettleResource(n: Name, state: ComponentState, cs: seq<Command>,
                          restarts: map<Category, Command>, skips: set<Category>, ghost log: seq<Command>)
      returns (restarts': map<Category, Command>, skips': set<Category>)
      requires ValidPlan() && Booked(log, restarts, skips)
      modifies this`status, this`commands, this`commandLine, this`commandNodes, commandNodes`next
      ensures ValidPlan() && fresh(commandNodes - old(commandNodes))
      ensures status == old(status)[n := NoteAll(state, cs)] && Booked(log + cs, restarts', skips')
    {
      var noted;
      noted, restarts', skips' := TakeActions(cs, state, restarts, skips, log);
      status := status[n := noted];
    }

    /** Compares the fingerprints of one merged resource and plans its commands, unless its pre-apply
        refuses. */
    method PlanResource(r: Resource, restarts: map<Category, Command>, skips: set<Category>, ghost p: Planned)
      returns (refused: bool, restarts': map<Category, Command>, skips': set<Category>)
      requires ValidPlan() && Booked(p.log, restarts, skips) && status == p.status
      modifies this`status, this`commands, this`commandLine, this`commandNodes, commandNodes`next
      ensures ValidPlan() && fresh(commandNodes - old(commandNodes))
      ensures var q := PlanMerged(st, r, p);
        refused == q.refused && status == q.status && Booked(q.log, restarts', skips')
    {
      var state := StateFinger(st, r, status);
      if Changed(st, r) {
        status := status[r.meta.name := state];
      }
      var (acts, stop) := Collect(st, r, state);
      MergedIs(st, r, p, state, status, acts, stop);
      refused, restarts', skips' := stop, restarts, skips;
      if !refused && acts != [] {
        restarts', skips' := SettleResource(r.meta.name, state, AdoptAll(acts, r.meta), restarts, skips, p.log);
      }
    }

    /** The resource list is intact and its resources from position i on are not merged yet. */
    ghost predicate Pending(lines: seq<Resource>, i: nat)
      reads this, resourceLine
    {
      && |lines| == |resourceLine| && Heads(resources, resourceLine) && Chain(resourceLine)
      && forall j :: i <= j < |lines| ==> resourceLine[j].data == lines[j]
    }

    /** Merges resource i in place and plans it. */
    method PlanNode(cmd: Node<Resource>, restarts: map<Category, Command>, skips: set<Category>,
                    ghost p: Planned, ghost lines: seq<Resource>, ghost i: nat)
      returns (next: Node?<Resource>, restarts': map<Category, Command>, skips': set<Category>, refused: bool,
               ghost q: Planned)
      requires ValidPlan() && Booked(p.log, restarts, skips) && status == p.status
      requires Pending(lines, i) && i < |lines| && cmd == resourceLine[i]
      modifies this`status, this`commands, this`commandLine, this`commandNodes, commandNodes`next, cmd`data
      ensures ValidPlan() && fresh(commandNodes - old(commandNodes))
      ensures q == PlanOne(st, lines[i], p) && refused == q.refused && status == q.status
      ensures Booked(q.log, restarts', skips')
      ensures Pending(lines, i + 1) && next == After(resourceLine, i)
    {
      q := PlanOne(st, cmd.data, p);
      var r := MergeStage(st, cmd.data);
      ChainDistinct(resourceLine);
      cmd.data := r;
      next := cmd.next;
      refused, restarts', skips' := PlanResource(r, restarts, skips, p);
    }

    /** Walks the resource list until a pre-apply refuses. */
    method CollectAll(ghost lines: seq<Resource>)
      returns (restarts: map<Category, Command>, skips: set<Category>, refused: bool, ghost p: Planned)
      requires ValidPlan() && Pending(lines, 0) && commandLine == [] && commandNodes == {}
      modifies this`status, this`commands, this`commandLine, this`commandNodes, resourceLine`data
      ensures ValidPlan() && Pending(lines, |lines|) && fresh(commandNodes)
      ensures p == PlanAll(st, lines, old(status)) && refused == p.refused && status == p.status
      ensures Booked(p.log, restarts, skips)
    {
      p := Planned([], status, false);
      restarts, skips, refused := map[], {}, false;
      var cmd := resources;
      ghost var i := 0;
      while cmd != null && !refused
        invariant 0 <= i <= |lines| && Pending(lines, i) && cmd == (if i < |lines| then resourceLine[i] else null)
        invariant ValidPlan() && fresh(commandNodes)
        invariant p == PlanAll(st, lines[..i], old(status)) && refused == p.refused && status == p.status
        invariant Booked(p.log, restarts, skips)
        decreases |lines| - i
      {
        TakeOneMore([], lines, i);
        cmd, restarts, skips, refused, p := PlanNode(cmd, restarts, skips, p, lines, i);
        i := i + 1;
      }
      if refused {
        RefusedStays(st, lines, old(status), i);
      } else {
        assert lines[..i] == lines;
      }
    }

    /** Walks the restart map in whatever order its keys come and hangs every restart whose category
        is not skipped behind the plan. */
    method AppendRestarts(restarts: map<Category, Command>, skips: set<Category>, ghost log: seq<Command>)
      returns (ghost order: seq<Category>)
      requires ValidPlan() && Booked(log, restarts, skips)
      modifies this`commands, this`commandLine, this`commandNodes, commandNodes`next
      ensures ValidPlan() && fresh(commandNodes - old(commandNodes))
      ensures RestartOrder(log, order) && Data(commandLine) == FinalPlan(log, order)
    {
      order := [];
      var keys := restarts.Keys;
      while keys != {}
        invariant ValidPlan() && fresh(commandNodes - old(commandNodes))
        invariant keys <= restarts.Keys && Walked(restarts.Keys - keys - skips, order)
        invariant Data(commandLine) == InsertAll(NonRestarts(log)) + RestartsIn(log, order)
        decreases keys
      {
        var k :| k in keys;
        WalkOn(log, keys, skips, order, k);
        keys := keys - {k};
        if k !in skips {
          AppendRestart(restarts[k]);
          order := order + [k];
        }
      }
    }

    /** The planner: collects commands from every resource, then appends the restarts. */
    method ActionPipeline()
      returns (refused: bool, ghost log: seq<Command>, ghost order: seq<Category>)
      requires Valid() && commandLine == [] && commandNodes == {}
      modifies this`status, this`commands, this`commandLine, this`commandNodes, resourceLine`data
      ensures Valid() && fresh(commandNodes)
      ensures var q := PlanAll(st, old(Data(resourceLine)), old(status));
        refused == q.refused && status == q.status && log == q.log
      ensures !refused ==> RestartOrder(log, order) && Data(commandLine) == FinalPlan(log, order)
    {
      var restarts, skips;
      ghost var p;
      order := [];
      restarts, skips, refused, p := CollectAll(Data(resourceLine));
      log := p.log;
      if !refused {
        order := AppendRestarts(restarts, skips, log);
      }
    }

    /** Applies one command and records how it went. */
    method ExecCommand(c: Command, out: Outcome)
      modifies this`status, this`cluster
      ensures status == ExecOne(old(status), c, out)
      ensures cluster == if out.Some? then old(cluster) else Effect(server, old(cluster), c)
    {
      var n := OwnerName(c);
      var state := StateOf(status, n);
      state := UpdateActionState(state, c.action, InProgress, c.message);
      if out.Some? {
        state := UpdateActionState(state, c.action, Failed, out.value);
      } else {
        cluster := Effect(server, cluster, c);
        state := UpdateActionState(state, c.action, Success, "");
        if state.nextUid != NoUid {
          state := state.(uid := state.nextUid);
        }
      }
      status := status[n := state];
    }

    /** The executor: applies the plan until a command fails or its callback or post-apply, of which
        again tells, leaves the result non-empty.  outs gives the outcome of each apply. */
    method Exec(outs: Outcomes, again: Again) returns (result: Outcome, ghost applied: nat)
      requires ValidPlan()
      modifies this`status, this`cluster
      ensures Stops(outs, again, |commandLine|, applied)
      ensures result == if applied == 0 then None else At(outs, applied - 1)
      ensures forall i :: 0 <= i < applied - 1 ==> At(outs, i).None? && (i < |again| ==> !again[i])
      ensures applied < |commandLine| ==>
        applied > 0 && (At(outs, applied - 1).Some? || (applied - 1 < |again| && again[applied - 1]))
      ensures status == ExecStatus(Data(commandLine), outs, old(status), applied)
      ensures cluster == ExecCluster(server, Data(commandLine), outs, old(cluster), applied)
    {
      ghost var cs := Data(commandLine);
      result := None;
      var cmd := commands;
      var i := 0;
      var asked := false;
      while result.None? && !asked && cmd != null
        invariant i <= |cs| && Chain(commandLine) && cmd == (if i < |cs| then commandLine[i] else null)
        invariant result == if i == 0 then None else At(outs, i - 1)
        invariant result.Some? || asked <==> i > 0 && Ends(outs, again, i - 1)
        invariant forall j :: 0 <= j < i - 1 ==> !Ends(outs, again, j)
        invariant status == ExecStatus(cs, outs, old(status), i)
        invariant cluster == ExecCluster(server, cs, outs, old(cluster), i)
        decreases |cs| - i
      {
        ExecMore(server, cs, outs, old(status), old(cluster), i);
        result := At(outs, i);
        ExecCommand(cmd.data, result);
        asked := i < |again| && again[i];
        cmd := cmd.next;
        i := i + 1;
      }
      applied := i;
      forall j | 0 <= j < applied - 1 ensures At(outs, j).None? && (j < |again| ==> !again[j]) {
        assert !Ends(outs, again, j);
      }
    }

    /** Hangs one made chain behind the resource list, which lives in done. */
    method AppendLine(line: Node?<Resource>, ghost chain: seq<Node<Resource>>, ghost done: set<Node<Resource>>)
      requires Heads(resources, resourceLine) && Chain(resourceLine) && Among(resourceLine, done)
      requires Heads(line, chain) && Chain(chain) && Apart(chain, done)
      modifies this`resources, this`resourceLine, done`next
      ensures Heads(resources, resourceLine) && Chain(resourceLine) && resourceLine == old(resourceLine) + chain
    {
      if line != null {
        if resources == null {
          resources := line;
        } else {
          resources.Append(line, resourceLine, chain, done);
        }
      }
      resourceLine := resourceLine + chain;
    }

    /** Appends the chains the make stage returns, in order, until one fails.  foot[i] owns chain i. */
    method ResourcePipeline(made: seq<Made>, ghost chains: seq<seq<Node<Resource>>>,
                            ghost foot: seq<set<Node<Resource>>>)
      returns (failed: bool)
      requires resources == null && resourceLine == []
      requires |made| == |chains| == |foot| && forall i :: 0 <= i < |made| ==> Heads(made[i].line, chains[i])
      requires forall i :: 0 <= i < |chains| ==> Chain(chains[i]) && Among(chains[i], foot[i])
      requires forall i, j :: 0 <= i < j < |foot| ==> foot[i] !! foot[j]
      modifies this`resources, this`resourceLine, Owned(foot)`next
      ensures Heads(resources, resourceLine) && Chain(resourceLine)
      ensures failed <==> exists i :: 0 <= i < |made| && made[i].failed
      ensures !failed ==> resourceLine == Flatten(chains)
      ensures Among(resourceLine, Owned(foot))
    {
      failed := false;
      ghost var done: set<Node<Resource>> := {};
      for i := 0 to |made|
        invariant Heads(resources, resourceLine) && Chain(resourceLine) && resourceLine == Flatten(chains[..i])
        invariant Among(resourceLine, done) && done <= Owned(foot)
        invariant forall j :: i <= j < |chains| ==> Chain(chains[j]) && foot[j] !! done
        invariant forall j :: 0 <= j < i ==> !made[j].failed
      {
        if made[i].failed {
          return true;
        }
        assert chains[..i + 1][..i] == chains[..i];
        AppendLine(made[i].line, chains[i], done);
        done := done + foot[i];
      }
      assert chains[..|chains|] == chains;
    }

    /** Plans and executes the made resources, and says which status is persisted. */
    method PlanAndExec(outs: Outcomes, again: Again) returns (persisted: Status, ghost t: Turn)
      requires Valid() && commandLine == [] && commandNodes == {}
      modifies this`status, this`cluster, this`commands, this`commandLine, this`commandNodes, resourceLine`data
      ensures t.st == st && t.server == server && t.lines == old(Data(resourceLine))
      ensures t.outs == outs && t.again == again
      ensures var w := World(old(status), old(cluster)); Legal(t, w) && World(persisted, cluster) == Reconcile(t, w)
    {
      persisted := status;
      ghost var lines := Data(resourceLine);
      ghost var log, order;
      var refused;
      refused, log, order := ActionPipeline();
      ghost var n, plan, p := 0, Data(commandLine), Planned(log, status, refused);
      if refused {
        persisted := Persist(status);
      } else if commands != null {
        var result;
        result, n := Exec(outs, again);
        persisted := Persist(status);
      }
      t := Turn(st, server, lines, outs, again, order, n);
      ReconcileIs(t, World(old(status), old(cluster)), p, plan, World(persisted, cluster));
    }

    /** A whole reconcile: make, plan, execute, persist.  A make error leaves everything as it was. */
    method Compute(made: seq<Made>, outs: Outcomes, again: Again, ghost chains: seq<seq<Node<Resource>>>,
                   ghost foot: seq<set<Node<Resource>>>)
      returns (persisted: Status, ghost turn: Option<Turn>)
      requires ValidPlan() && commandLine == [] && commandNodes == {} && resources == null && resourceLine == []
      requires |made| == |chains| == |foot| && forall i :: 0 <= i < |made| ==> Heads(made[i].line, chains[i])
      requires forall i :: 0 <= i < |chains| ==> Chain(chains[i]) && Among(chains[i], foot[i])
      requires forall i, j :: 0 <= i < j < |foot| ==> foot[i] !! foot[j]
      modifies this, Owned(foot)
      ensures turn.None? <==> exists i :: 0 <= i < |made| && made[i].failed
      ensures turn.None? ==> persisted == old(status) && cluster == old(cluster)
      ensures turn.Some? ==>
        var t, w := turn.value, World(old(status), old(cluster));
        && t.st == st && t.server == server && t.lines == old(Data(Flatten(chains)))
        && t.outs == outs && t.again == again
        && Legal(t, w) && World(persisted, cluster) == Reconcile(t, w)
    {
      persisted, turn := status, None;
      ghost var lines := Data(Flatten(chains));
      var failed := ResourcePipeline(made, chains, foot);
      if !failed {
        SameData(resourceLine, lines);
        ghost var t;
        persisted, t := PlanAndExec(outs, again);
        turn := Some(t);
      }
    }
  }

  /** The three ways a reconcile ends. */
  lemma ReconcileIs(t: Turn, w: World, p: Planned, plan: seq<Command>, next: World)
    requires p == PlanAll(t.st, t.lines, w.status)
    requires if p.refused then next == World(Persist(p.status), w.cluster)
      else
        && RestartOrder(p.log, t.order) && plan == FinalPlan(p.log, t.order)
        && Stops(t.outs, t.again, |plan|, t.applied)
        && if plan == [] then next == w
           else next == World(Persist(ExecStatus(plan, t.outs, p.status, t.applied)),
                              ExecCluster(t.server, plan, t.outs, w.cluster, t.applied))
    ensures Legal(t, w) && next == Reconcile(t, w)
  {
  }

  /** What one merged resource adds, by whether anything is collected. */
  lemma MergedIs(st: Stages, r: Resource, p: Planned, state: ComponentState, seen: Status, acts: seq<Command>,
                 stop: bool)
    requires state == StateFinger(st, r, p.status) && (acts, stop) == Collect(st, r, state)
    requires seen == if Changed(st, r) then p.status[r.meta.name := state] else p.status
    ensures var q, cs := PlanMerged(st, r, p), AdoptAll(acts, r.meta);
      && q.refused == stop
      && (stop || acts == [] ==> q.log == p.log && q.status == seen)
      && (!stop && acts != [] ==> q.log == p.log + cs && q.status == seen[r.meta.name := NoteAll(state, cs)])
  {
    var cs := AdoptAll(acts, r.meta);
    assert p.status[r.meta.name := NoteAll(state, cs)] == seen[r.meta.name := NoteAll(state, cs)];
  }

  ghost predicate Walked(done: set<Category>, order: seq<Category>) {
    && (forall i, j :: 0 <= i < j < |order| ==> order[i] != order[j])
    && (forall k :: k in order <==> k in done)
  }

  /** One more key of the restart map is walked, and taken unless it is skipped. */
  lemma WalkOn(log: seq<Command>, keys: set<Category>, skips: set<Category>, order: seq<Category>, k: Category)
    requires k in keys && keys <= Restarts(log).Keys && Walked(Restarts(log).Keys - keys - skips, order)
    ensures k in skips ==> Walked(Restarts(log).Keys - (keys - {k}) - skips, order)
    ensures k !in skips ==> Walked(Restarts(log).Keys - (keys - {k}) - skips, order + [k])
    ensures k !in skips ==> RestartsIn(log, order + [k]) == RestartsIn(log, order) + [Restarts(log)[k]]
  {
    forall i | 0 <= i < |order| ensures order[i] != k {
      assert order[i] in order;
    }
  }

  lemma ExecMore(server: Server, cs: seq<Command>, outs: Outcomes, status: Status, cluster: Cluster, i: nat)
    requires i < |cs|
    ensures ExecStatus(cs, outs, status, i + 1) == ExecOne(ExecStatus(cs, outs, status, i), cs[i], At(outs, i))
    ensures ExecCluster(server, cs, outs, cluster, i + 1) ==
      if At(outs, i).Some? then ExecCluster(server, cs, outs, cluster, i)
      else Effect(server, ExecCluster(server, cs, outs, cluster, i), cs[i])
  {
  }

  lemma TakeOneMore<T>(log: seq<T>, cs: seq<T>, i: nat)
    requires i < |cs|
    ensures cs[..i + 1][..i] == cs[..i] && log + cs[..i + 1] == log + cs[..i] + [cs[i]]
  {
  }
}
