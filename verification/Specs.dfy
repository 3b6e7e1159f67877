/** Runs of one spec: the data of a ConfigMap is made anew in every reconcile, in any order of its
    files, so the made resources can differ from reconcile to reconcile. */
module Specs {
  import opened Types
  import opened Planning
  import opened Execution
  import opened Rounds
  import opened Convergence
  import Config

  /** One resource of the spec.  The data of a ConfigMap is made from conf. */
  datatype Item = Item(line: Resource, conf: Option<Config.Conf>)

  type Spec = seq<Item>

  ghost predicate Sound(spec: Spec) {
    && (forall i, j :: 0 <= i < j < |spec| ==> spec[i].line.meta.name != spec[j].line.meta.name)
    && (forall i :: 0 <= i < |spec| && spec[i].conf.Some? ==>
          spec[i].line.meta.kind == ConfigMap && spec[i].line.desired.Some?)
  }

  function WithData(line: Resource, data: Fields): Resource
    requires line.desired.Some?
  {
    line.(desired := Some(line.desired.value.(fields := data)))
  }

  /** line is what some order of the files makes of item. */
  ghost predicate IsMake(item: Item, line: Resource) {
    if item.conf.None? then line == item.line
    else item.line.desired.Some? && exists files, ks ::
           Config.InOrder(files, ks, item.conf.value) && line == WithData(item.line, Config.DataOf(files))
  }

  ghost predicate AreMakes(spec: Spec, lines: seq<Resource>) {
    |lines| == |spec| && forall i :: 0 <= i < |spec| ==> IsMake(spec[i], lines[i])
  }

  /** A run of quiet reconciles, each of which makes the resources of the spec in its own order. */
  ghost predicate SpecRun(spec: Spec, server: Server, ts: seq<Turn>, ws: seq<World>) {
    |ws| == |ts| + 1 && forall i :: 0 <= i < |ts| ==>
      AreMakes(spec, ts[i].lines) && QuietStep(ts[i].lines, server, ts[i], ws[i], ws[i + 1])
  }

  /** From reconcile n on, everything matches what the reconcile makes, in every run from w. */
  ghost predicate MatchesFrom(spec: Spec, server: Server, w: World, n: nat) {
    forall ts: seq<Turn>, ws: seq<World>, k: int ::
      SpecRun(spec, server, ts, ws) && ws[0] == w && n <= k < |ts| ==> AllMatch(ts[k].lines, ws[k].cluster)
  }

  /** Some number of reconciles suffices in every run. */
  ghost predicate Settles(spec: Spec, server: Server, w: World) {
    exists n: nat :: MatchesFrom(spec, server, w, n)
  }

  /** Files that a ConfigMap would store under one name have one content. */
  ghost predicate Steady(spec: Spec) {
    forall i :: 0 <= i < |spec| && spec[i].conf.Some? ==> Config.OneContentPerName(spec[i].conf.value)
  }

  lemma MakesAreDistinct(spec: Spec, lines: seq<Resource>)
    requires Sound(spec) && AreMakes(spec, lines)
    ensures DistinctNames(lines)
  {
    forall i, j | 0 <= i < j < |lines| ensures lines[i].meta.name != lines[j].meta.name {
      assert IsMake(spec[i], lines[i]) && IsMake(spec[j], lines[j]);
    }
  }

  // ----- a steady spec makes the same resources every time -----

  lemma OneMake(item: Item, a: Resource, b: Resource)
    requires IsMake(item, a) && IsMake(item, b)
    requires item.conf.Some? ==> Config.OneContentPerName(item.conf.value)
    ensures a == b
  {
    if item.conf.Some? {
      var f, ks :| Config.InOrder(f, ks, item.conf.value) && a == WithData(item.line, Config.DataOf(f));
      var g, ls :| Config.InOrder(g, ls, item.conf.value) && b == WithData(item.line, Config.DataOf(g));
      Config.OneContent(item.conf.value, f, g, ks, ls);
    }
  }

  lemma SteadyMakes(spec: Spec, lines: seq<Resource>, others: seq<Resource>)
    requires Steady(spec) && AreMakes(spec, lines) && AreMakes(spec, others)
    ensures lines == others
  {
    forall i | 0 <= i < |spec| ensures lines[i] == others[i] {
      assert IsMake(spec[i], lines[i]) && IsMake(spec[i], others[i]);
      OneMake(spec[i], lines[i], others[i]);
    }
  }

  lemma SteadyRun(spec: Spec, server: Server, lines: seq<Resource>, ts: seq<Turn>, ws: seq<World>)
    requires Sound(spec) && Steady(spec) && AreMakes(spec, lines) && SpecRun(spec, server, ts, ws)
    ensures QuietRun(lines, server, ts, ws) && forall i :: 0 <= i < |ts| ==> ts[i].lines == lines
  {
    MakesAreDistinct(spec, lines);
    forall i | 0 <= i < |ts| ensures ts[i].lines == lines && QuietStep(lines, server, ts[i], ws[i], ws[i + 1]) {
      SteadyMakes(spec, lines, ts[i].lines);
    }
  }

  // ----- an unsteady one has two makes that no object matches both -----

  lemma TwoMakes(item: Item) returns (a: Resource, b: Resource)
    requires item.conf.Some? && item.line.desired.Some? && item.line.meta.kind == ConfigMap
    requires !Config.OneContentPerName(item.conf.value)
    ensures IsMake(item, a) && IsMake(item, b)
    ensures forall o :: Differs(a, o) || Differs(b, o)
  {
    var conf := item.conf.value;
    var k, l :| k in conf && l in conf && conf[k].name == conf[l].name && conf[k].data != conf[l].data;
    var f, ks := Config.EndingWith(conf, k);
    var g, ls := Config.EndingWith(conf, l);
    Config.LastData(f, |f| - 1);
    Config.LastData(g, |g| - 1);
    a, b := WithData(item.line, Config.DataOf(f)), WithData(item.line, Config.DataOf(g));
    forall o ensures Differs(a, o) || Differs(b, o) {
      NotBoth(a, b, conf[k].name, o);
    }
  }

  /** An object cannot hold two contents under one name. */
  lemma NotBoth(a: Resource, b: Resource, name: string, o: Option<Object>)
    requires a.meta == b.meta && a.meta.kind == ConfigMap && a.desired.Some? && b.desired.Some?
    requires name in a.desired.value.fields && name in b.desired.value.fields
    requires a.desired.value.fields[name] != b.desired.value.fields[name]
    ensures Differs(a, o) || Differs(b, o)
  {
    if o.Some? && !Differs(a, o) && !Differs(b, o) {
      FieldIn(a, o.value, name);
      FieldIn(b, o.value, name);
    }
  }

  lemma FieldIn(line: Resource, o: Object, name: string)
    requires line.meta.kind == ConfigMap && line.desired.Some? && name in line.desired.value.fields
    requires !Differs(line, Some(o))
    ensures name in o.fields && o.fields[name] == line.desired.value.fields[name]
  {
    assert Merge(o, line.desired.value).fields == o.fields;
  }

  // ----- convergence of a spec -----

  lemma MakeExists(item: Item) returns (line: Resource)
    requires item.conf.Some? ==> item.line.desired.Some?
    ensures IsMake(item, line)
  {
    line := item.line;
    if item.conf.Some? {
      var conf := item.conf.value;
      var ks := Config.Listing(conf.Keys);
      var files := seq(|ks|, i requires 0 <= i < |ks| => assert ks[i] in ks; conf[ks[i]]);
      assert Config.InOrder(files, ks, conf);
      line := WithData(item.line, Config.DataOf(files));
    }
  }

  /** A spec always makes something. */
  lemma {:induction false} MakesExist(spec: Spec) returns (lines: seq<Resource>)
    requires Sound(spec)
    ensures AreMakes(spec, lines)
  {
    lines := [];
    if spec != [] {
      var n := |spec| - 1;
      lines := MakesExist(spec[..n]);
      var line := MakeExists(spec[n]);
      forall i | 0 <= i < n ensures IsMake(spec[i], lines[i]) {
        assert IsMake(spec[..n][i], lines[i]);
      }
      lines := lines + [line];
    }
  }

  /** A run of the spec in which every reconcile makes the same resources. */
  lemma RunThen(spec: Spec, server: Server, w: World, lines: seq<Resource>, n: nat)
    returns (ts: seq<Turn>, ws: seq<World>)
    requires Sound(spec) && AreMakes(spec, lines)
    ensures SpecRun(spec, server, ts, ws) && |ts| == n && ws[0] == w && QuietRun(lines, server, ts, ws)
  {
    MakesAreDistinct(spec, lines);
    ts, ws := QuietRunExists(lines, server, w, n);
    forall i | 0 <= i < |ts|
      ensures AreMakes(spec, ts[i].lines) && QuietStep(ts[i].lines, server, ts[i], ws[i], ws[i + 1])
    {
      assert QuietStep(lines, server, ts[i], ws[i], ws[i + 1]);
    }
  }

  lemma SpecRunExtends(spec: Spec, server: Server, ts: seq<Turn>, ws: seq<World>, t: Turn, next: World)
    requires SpecRun(spec, server, ts, ws) && AreMakes(spec, t.lines)
    requires QuietStep(t.lines, server, t, ws[|ts|], next)
    ensures SpecRun(spec, server, ts + [t], ws + [next])
  {
    var longer, worlds := ts + [t], ws + [next];
    forall i | 0 <= i < |longer|
      ensures AreMakes(spec, longer[i].lines) && QuietStep(longer[i].lines, server, longer[i], worlds[i], worlds[i + 1])
    {
      if i < |ts| {
        assert longer[i] == ts[i] && worlds[i] == ws[i] && worlds[i + 1] == ws[i + 1];
      }
    }
  }

  /** Resources the next reconcile can make, and that do not match, refute matching from n on. */
  lemma NotFrom(spec: Spec, server: Server, w: World, last: seq<Resource>, n: nat, ts: seq<Turn>, ws: seq<World>)
    requires SpecRun(spec, server, ts, ws) && |ts| == n && ws[0] == w && AreMakes(spec, last)
    requires !AllMatch(last, ws[n].cluster)
    ensures !MatchesFrom(spec, server, w, n)
  {
    var t, next := QuietStepExists(last, server, ws[n]);
    SpecRunExtends(spec, server, ts, ws, t, next);
    var longer, worlds := ts + [t], ws + [next];
    assert longer[n] == t && worlds[n] == ws[n] && worlds[0] == w;
    assert !AllMatch(longer[n].lines, worlds[n].cluster);
  }

  lemma OtherMake(spec: Spec, lines: seq<Resource>, i: nat, line: Resource)
    requires AreMakes(spec, lines) && i < |spec| && IsMake(spec[i], line)
    ensures AreMakes(spec, lines[i := line])
  {
  }

  /** An unsteady spec never settles: after any number of reconciles the next one can make a ConfigMap
      other than the stored one. */
  lemma UnsteadyNever(spec: Spec, server: Server, w: World, lines: seq<Resource>, n: nat)
    requires Sound(spec) && AreMakes(spec, lines) && !Steady(spec)
    ensures !MatchesFrom(spec, server, w, n)
  {
    var i :| 0 <= i < |spec| && spec[i].conf.Some? && !Config.OneContentPerName(spec[i].conf.value);
    var a, b := TwoMakes(spec[i]);
    var ts, ws := RunThen(spec, server, w, lines, n);
    var o := ObjectOf(a, ws[n].cluster);
    var last := lines[i := if Differs(a, o) then a else b];
    OtherMake(spec, lines, i, last[i]);
    assert Differs(last[i], ObjectOf(last[i], ws[n].cluster));
    NotFrom(spec, server, w, last, n, ts, ws);
  }

  lemma StuckNever(spec: Spec, server: Server, w: World, lines: seq<Resource>, n: nat)
    requires Sound(spec) && AreMakes(spec, lines) && !NoneStuck(server, lines, w.cluster)
    ensures !MatchesFrom(spec, server, w, n)
  {
    var ts, ws := RunThen(spec, server, w, lines, n);
    var i :| 0 <= i < |lines| && Stuck(server, lines[i], ObjectOf(lines[i], w.cluster));
    StaysStuck(lines, server, ts, ws, i, n);
    assert Differs(lines[i], ObjectOf(lines[i], ws[n].cluster));
    NotFrom(spec, server, w, lines, n, ts, ws);
  }

  lemma SteadyMatches(spec: Spec, server: Server, w: World, lines: seq<Resource>)
    requires Sound(spec) && AreMakes(spec, lines) && Steady(spec) && NoneStuck(server, lines, w.cluster)
    ensures MatchesFrom(spec, server, w, Measure(lines, Everything(lines), w.cluster))
  {
    forall ts: seq<Turn>, ws: seq<World>, k: int |
      SpecRun(spec, server, ts, ws) && ws[0] == w && Measure(lines, Everything(lines), w.cluster) <= k < |ts|
      ensures AllMatch(ts[k].lines, ws[k].cluster)
    {
      SteadyRun(spec, server, lines, ts, ws);
      Converges(lines, server, ts, ws, k);
    }
  }

  /** Convergence of a spec: there is a number of reconciles after which everything matches in every
      quiet run, whatever orders the data is made in, exactly when files of one name have one content
      in every ConfigMap and no made resource is stuck at the start. */
  lemma {:induction false} SpecConvergesIff(spec: Spec, server: Server, w: World, lines: seq<Resource>)
    requires Sound(spec) && AreMakes(spec, lines)
    ensures Settles(spec, server, w) <==> Steady(spec) && NoneStuck(server, lines, w.cluster)
  {
    if Steady(spec) && NoneStuck(server, lines, w.cluster) {
      SteadyMatches(spec, server, w, lines);
    } else {
      forall n: nat ensures !MatchesFrom(spec, server, w, n) {
        if !Steady(spec) {
          UnsteadyNever(spec, server, w, lines, n);
        } else {
          StuckNever(spec, server, w, lines, n);
        }
      }
    }
  }
}
