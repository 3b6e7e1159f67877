/** Resources that are not stuck, but never applied: the plan keeps of many updates of one category
    only the first two and the last. */
module Starvation {
  import opened Types
  import opened Lines
  import opened Insertion
  import opened Planning
  import opened Execution
  import opened Rounds
  import opened Handlers
  import opened Convergence

  // ----- a plan of one key -----

  /** Of three or more insertions of one key the first two and the last stay. */
  lemma {:induction false} SameKeyPlan(cs: seq<Command>)
    requires |cs| >= 2 && forall i :: 0 <= i < |cs| ==> KeyOf(cs[i]) == KeyOf(cs[0])
    ensures InsertAll(cs) == if |cs| == 2 then cs else [cs[0], cs[1], cs[|cs| - 1]]
  {
    var n := |cs| - 1;
    var c := cs[n];
    if n == 1 {
      assert cs[..1][..0] == [] && InsertAll(cs[..1]) == [cs[0]];
      OnePlusOne(cs[0], c);
    } else {
      SameKeyPlan(cs[..n]);
      if n == 2 {
        TwoPlusOne(cs[0], cs[1], c);
      } else {
        ThreePlusOne(cs[0], cs[1], cs[n - 1], c);
      }
    }
  }

  lemma OnePlusOne(a: Command, c: Command)
    requires KeyOf(a) == KeyOf(c)
    ensures Insert([a], c) == [a, c]
  {
    assert a in Alike([a], KeyOf(c));
  }

  lemma TwoPlusOne(a: Command, b: Command, c: Command)
    requires KeyOf(a) == KeyOf(b) == KeyOf(c)
    ensures Insert([a, b], c) == [a, b, c]
  {
    assert a in Alike([a, b], KeyOf(c));
  }

  lemma ThreePlusOne(a: Command, b: Command, d: Command, c: Command)
    requires KeyOf(a) == KeyOf(b) == KeyOf(d) == KeyOf(c)
    ensures Insert([a, b, d], c) == [a, b, c]
  {
    var bad := Alike([a, b, d], KeyOf(c));
    assert a in bad && d in bad;
    assert [a, b, d][2..] == [d] && Scan([d], bad) == [];
  }

  // ----- config maps that are to be updated -----

  /** A changed ConfigMap that exists and is asked for. */
  ghost predicate Updates(line: Resource, cluster: Cluster) {
    && line.meta.kind == ConfigMap && line.desired.Some? && line.meta.name in cluster
    && Differs(line, ObjectOf(line, cluster)) && !ControlDelete(Merge(cluster[line.meta.name], line.desired.value))
  }

  ghost function UpdateOf(line: Resource, cluster: Cluster): Command
    requires Updates(line, cluster)
  {
    Adopt(Plain(Update, "", "", Some(Merge(cluster[line.meta.name], line.desired.value))), line.meta)
  }

  ghost predicate AllUpdate(lines: seq<Resource>, cluster: Cluster) {
    forall i :: 0 <= i < |lines| ==> Updates(lines[i], cluster)
  }

  ghost function UpdatesOf(lines: seq<Resource>, cluster: Cluster): (cs: seq<Command>)
    requires AllUpdate(lines, cluster)
    ensures |cs| == |lines| && forall i :: 0 <= i < |lines| ==> cs[i] == UpdateOf(lines[i], cluster)
  {
    seq(|lines|, i requires 0 <= i < |lines| => UpdateOf(lines[i], cluster))
  }

  lemma NonRestartsStep(log: seq<Command>, c: Command)
    ensures NonRestarts(log + [c]) == if c.action == Restart then NonRestarts(log) else NonRestarts(log) + [c]
  {
    assert (log + [c])[..|log|] == log;
  }

  /** Such a ConfigMap is answered with its update and a restart. */
  lemma UpdateActs(line: Resource, cluster: Cluster, status: Status) returns (restart: Command)
    requires Updates(line, cluster)
    ensures var st := Builtin(cluster); var r := MergeStage(st, line);
      var (acts, refused) := Collect(st, r, StateFinger(st, r, status));
      !refused && AdoptAll(acts, r.meta) == [UpdateOf(line, cluster), restart] && restart.action == Restart
  {
    var r := MergeStage(Builtin(cluster), line);
    var acts := ConfigMapPreApply(r.observed, r.desired);
    restart := AdoptAll(acts, r.meta)[1];
  }

  /** It adds its update to what is inserted into the plan. */
  lemma UpdateStep(line: Resource, cluster: Cluster, p: Planned)
    requires Updates(line, cluster) && !p.refused
    ensures var q := PlanOne(Builtin(cluster), line, p);
      !q.refused && NonRestarts(q.log) == NonRestarts(p.log) + [UpdateOf(line, cluster)]
  {
    var restart := UpdateActs(line, cluster, p.status);
    var update := UpdateOf(line, cluster);
    NonRestartsStep(p.log, update);
    NonRestartsStep(p.log + [update], restart);
    assert p.log + [update, restart] == (p.log + [update]) + [restart];
  }

  lemma {:induction false} UpdatesLog(lines: seq<Resource>, cluster: Cluster, status: Status)
    requires AllUpdate(lines, cluster)
    ensures var p := PlanAll(Builtin(cluster), lines, status);
      !p.refused && NonRestarts(p.log) == UpdatesOf(lines, cluster)
  {
    if lines != [] {
      var n := |lines| - 1;
      UpdatesMore(lines, cluster);
      UpdatesLog(lines[..n], cluster, status);
      UpdateStep(lines[n], cluster, PlanAll(Builtin(cluster), lines[..n], status));
    }
  }

  lemma UpdatesMore(lines: seq<Resource>, cluster: Cluster)
    requires lines != [] && AllUpdate(lines, cluster)
    ensures var n := |lines| - 1;
      && AllUpdate(lines[..n], cluster) && Updates(lines[n], cluster)
      && UpdatesOf(lines, cluster) == UpdatesOf(lines[..n], cluster) + [UpdateOf(lines[n], cluster)]
  {
    var n := |lines| - 1;
    forall i | 0 <= i < n ensures Updates(lines[..n][i], cluster) {
      assert lines[..n][i] == lines[i];
    }
  }

  // ----- starvation -----

  /** Updating the ConfigMap stores what is stored already, so it differs again. */
  ghost predicate Bounces(server: Server, line: Resource, cluster: Cluster) {
    Updates(line, cluster) && Effect(server, cluster, UpdateOf(line, cluster)) == cluster
  }

  /** The updates of the first, the second and the last resource bounce. */
  ghost predicate Crowded(lines: seq<Resource>, server: Server, cluster: Cluster) {
    && |lines| >= 3 && DistinctNames(lines)
    && AllUpdate(lines, cluster)
    && (forall i :: 0 <= i < |lines| ==> lines[i].meta.category == lines[0].meta.category)
    && (forall i :: 0 <= i < |lines| && (i < 2 || i == |lines| - 1) ==> Bounces(server, lines[i], cluster))
  }

  lemma {:induction false} NothingMoves(server: Server, cs: seq<Command>, cluster: Cluster, k: nat)
    requires k <= |cs| && forall c :: c in cs ==> Effect(server, cluster, c) == cluster
    ensures ExecCluster(server, cs, [], cluster, k) == cluster
  {
    if k > 0 {
      NothingMoves(server, cs, cluster, k - 1);
      assert cs[k - 1] in cs;
    }
  }

  lemma CrowdedIsWellFormed(lines: seq<Resource>, server: Server, cluster: Cluster)
    requires Crowded(lines, server, cluster)
    ensures WellFormed(lines, cluster)
  {
  }

  /** The updates that a crowded plan keeps bounce. */
  lemma KeptBounces(lines: seq<Resource>, server: Server, cluster: Cluster, c: Command)
    requires Crowded(lines, server, cluster) && c in InsertAll(UpdatesOf(lines, cluster))
    ensures Effect(server, cluster, c) == cluster
  {
    UpdatesShareKey(lines, cluster);
    var i := KeptOne(UpdatesOf(lines, cluster), c);
    assert Bounces(server, lines[i], cluster);
  }

  lemma UpdatesShareKey(lines: seq<Resource>, cluster: Cluster)
    requires AllUpdate(lines, cluster)
    requires forall i :: 0 <= i < |lines| ==> lines[i].meta.category == lines[0].meta.category
    ensures var us := UpdatesOf(lines, cluster); forall i :: 0 <= i < |us| ==> KeyOf(us[i]) == KeyOf(us[0])
  {
  }

  lemma KeptOne(us: seq<Command>, c: Command) returns (i: nat)
    requires |us| >= 3 && forall i :: 0 <= i < |us| ==> KeyOf(us[i]) == KeyOf(us[0])
    requires c in InsertAll(us)
    ensures (i == 0 || i == 1 || i == |us| - 1) && us[i] == c
  {
    SameKeyPlan(us);
    i := if c == us[0] then 0 else if c == us[1] then 1 else |us| - 1;
  }

  /** A plan consists of what was inserted and of restarts. */
  lemma PlanParts(log: seq<Command>, order: seq<Category>, c: Command)
    requires RestartOrder(log, order) && c in FinalPlan(log, order)
    ensures c in InsertAll(NonRestarts(log)) || c.action == Restart
  {
    if c in RestartsIn(log, order) {
      var i :| 0 <= i < |order| && RestartsIn(log, order)[i] == c;
      assert order[i] in order;
      var m := RestartsAreLast(log, order[i]);
    }
  }

  lemma RestartEffect(server: Server, cluster: Cluster, c: Command)
    requires c.action == Restart
    ensures Effect(server, cluster, c) == cluster
  {
  }

  /** So a crowded plan changes no object. */
  lemma CrowdedPlan(lines: seq<Resource>, server: Server, w: World, order: seq<Category>, c: Command)
    requires Crowded(lines, server, w.cluster)
    requires RestartOrder(PlanAll(Builtin(w.cluster), lines, w.status).log, order)
    requires c in FinalPlan(PlanAll(Builtin(w.cluster), lines, w.status).log, order)
    ensures Effect(server, w.cluster, c) == w.cluster
  {
    var log := PlanAll(Builtin(w.cluster), lines, w.status).log;
    UpdatesLog(lines, w.cluster, w.status);
    PlanParts(log, order, c);
    if c.action == Restart {
      RestartEffect(server, w.cluster, c);
    } else {
      KeptBounces(lines, server, w.cluster, c);
    }
  }

  lemma CrowdedRound(lines: seq<Resource>, server: Server, w: World, order: seq<Category>, n: nat)
    requires Crowded(lines, server, w.cluster) && Legal(QuietTurn(lines, server, w.cluster, order, n), w)
    ensures Reconcile(QuietTurn(lines, server, w.cluster, order, n), w).cluster == w.cluster
  {
    var t := QuietTurn(lines, server, w.cluster, order, n);
    UpdatesLog(lines, w.cluster, w.status);
    forall c | c in PlanOf(t, w) ensures Effect(server, w.cluster, c) == w.cluster {
      CrowdedPlan(lines, server, w, order, c);
    }
    QuietCluster(t, w);
    NothingMoves(server, PlanOf(t, w), w.cluster, |PlanOf(t, w)|);
  }

  /** Starvation: while the updates at the first two and the last position bounce, no reconcile of any
      quiet run changes any object, so every resource in between differs for ever, stuck or not. */
  lemma {:induction false} MiddleStarves(lines: seq<Resource>, server: Server, ts: seq<Turn>, ws: seq<World>, k: nat)
    requires QuietRun(lines, server, ts, ws) && k < |ws| && Crowded(lines, server, ws[0].cluster)
    ensures ws[k].cluster == ws[0].cluster
    ensures forall i :: 0 <= i < |lines| ==> Differs(lines[i], ObjectOf(lines[i], ws[k].cluster))
  {
    if k > 0 {
      MiddleStarves(lines, server, ts, ws, k - 1);
      assert QuietStep(lines, server, ts[k - 1], ws[k - 1], ws[k - 1 + 1]);
      CrowdedIsWellFormed(lines, server, ws[k - 1].cluster);
      CrowdedRound(lines, server, ws[k - 1], ts[k - 1].order, ts[k - 1].applied);
    }
  }

  // ----- an input -----

  const KEY := "data"

  function ConfigLine(n: Name): Resource {
    Resource(Meta(n, "conf", ConfigMap), None, Some(Object(ConfigMap, map[], map[KEY := "new"], map[], None, [], 0)))
  }

  /** The API server drops the data of these resources. */
  const DROPPING := Admission(Keeping(map[], map[], {KEY}), Keeping(map[], map[], {}))

  const EMPTY := Object(ConfigMap, map[], map[], map[], None, [], 0)

  const FOUR := [ConfigLine("a"), ConfigLine("b"), ConfigLine("c"), ConfigLine("d")]
  const STORED: Cluster := map["a" := EMPTY, "b" := EMPTY, "c" := EMPTY, "d" := EMPTY]
  const SERVER: Server := map["a" := DROPPING, "b" := DROPPING, "d" := DROPPING]

  lemma EmptyUpdates(n: Name)
    requires n in STORED
    ensures Updates(ConfigLine(n), STORED)
    ensures n in SERVER ==> Bounces(SERVER, ConfigLine(n), STORED)
    ensures n !in SERVER ==> !Stuck(SERVER, ConfigLine(n), ObjectOf(ConfigLine(n), STORED))
  {
    var w: Fields := map[KEY := "new"];
    assert KEY in w && map[] + w == w;
    if n in SERVER {
      assert Keep(DROPPING.fields, w) == map[];
      assert Effect(SERVER, STORED, UpdateOf(ConfigLine(n), STORED)) == STORED;
    }
  }

  lemma FourAreCrowded()
    ensures Crowded(FOUR, SERVER, STORED)
  {
    EmptyUpdates("a");
    EmptyUpdates("b");
    EmptyUpdates("c");
    EmptyUpdates("d");
    FourNames();
    assert FOUR[0] == ConfigLine("a") && FOUR[1] == ConfigLine("b");
    assert FOUR[2] == ConfigLine("c") && FOUR[3] == ConfigLine("d");
  }

  lemma FourNames()
    ensures DistinctNames(FOUR)
  {
    assert forall i :: 0 <= i < 4 ==> FOUR[i].meta.name == ["a", "b", "c", "d"][i];
    assert "a"[0] != "b"[0] && "a"[0] != "c"[0] && "b"[0] != "c"[0] && "c"[0] != "d"[0];
    assert "a"[0] != "d"[0] && "b"[0] != "d"[0];
  }

  /** Four ConfigMaps of one category, the data of all but the third one dropped: the third is not
      stuck, and is never updated. */
  lemma ThirdStarves(ts: seq<Turn>, ws: seq<World>, k: nat)
    requires QuietRun(FOUR, SERVER, ts, ws) && k < |ws| && ws[0].cluster == STORED
    ensures !Stuck(SERVER, FOUR[2], ObjectOf(FOUR[2], ws[0].cluster))
    ensures Differs(FOUR[2], ObjectOf(FOUR[2], ws[k].cluster))
  {
    EmptyUpdates("c");
    FourAreCrowded();
    MiddleStarves(FOUR, SERVER, ts, ws, k);
  }
}
