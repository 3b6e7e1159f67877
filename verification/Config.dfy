/** Configuration files: the two merges, the ConfigMap data and the keys a pod mounts
    (kernel/util/config_map_util.go and the config map and stateful set handlers). */
module Config {
  import opened Types
  import opened Fingerprint

  datatype NamedProperties = NamedProperties(path: string, name: string, data: string)

  function PropertiesName(p: NamedProperties): string {
    p.path + "/" + p.name
  }

  type Conf = map<string, NamedProperties>

  // ----- the merges -----

  /** Later files win. */
  function Overlay(conf: Conf, files: seq<NamedProperties>): Conf {
    if files == [] then conf
    else
      var p := files[|files| - 1];
      Overlay(conf, files[..|files| - 1])[PropertiesName(p) := p]
  }

  /** Files that are there already win. */
  function Underlay(conf: Conf, files: seq<NamedProperties>): Conf {
    if files == [] then conf
    else
      var p, before := files[|files| - 1], Underlay(conf, files[..|files| - 1]);
      if PropertiesName(p) in before then before else before[PropertiesName(p) := p]
  }

  /** The ConfigMap side: component files override those of the cluster. */
  function ConfigMapConf(base: seq<NamedProperties>, component: seq<NamedProperties>): Conf {
    Overlay(Overlay(map[], base), component)
  }

  /** The StatefulSet side: files of the cluster override those of the component. */
  function MountConf(base: seq<NamedProperties>, component: seq<NamedProperties>): Conf {
    Underlay(Overlay(map[], base), component)
  }

  /** files holds the values of conf, one per key, in the order ks. */
  ghost predicate InOrder(files: seq<NamedProperties>, ks: seq<string>, conf: Conf) {
    && |files| == |ks| && (forall i, j :: 0 <= i < j < |ks| ==> ks[i] != ks[j])
    && (forall k :: k in ks <==> k in conf)
    && forall i :: 0 <= i < |ks| ==> files[i] == conf[ks[i]]
  }

  /** file i is the last, or the first, of the files with its properties name. */
  ghost predicate LastOfName(files: seq<NamedProperties>, i: nat) {
    i < |files| && forall j :: i < j < |files| ==> PropertiesName(files[j]) != PropertiesName(files[i])
  }

  ghost predicate FirstOfName(files: seq<NamedProperties>, i: nat) {
    i < |files| && forall j :: 0 <= j < i ==> PropertiesName(files[j]) != PropertiesName(files[i])
  }

  ghost predicate NoneNamed(files: seq<NamedProperties>, k: string) {
    forall j :: 0 <= j < |files| ==> PropertiesName(files[j]) != k
  }

  lemma {:induction false} OverlayKeeps(conf: Conf, files: seq<NamedProperties>, k: string)
    requires NoneNamed(files, k)
    ensures k in Overlay(conf, files) <==> k in conf
    ensures k in conf ==> Overlay(conf, files)[k] == conf[k]
  {
    if files != [] {
      OverlayKeeps(conf, files[..|files| - 1], k);
    }
  }

  lemma {:induction false} OverlayLast(conf: Conf, files: seq<NamedProperties>, i: nat)
    requires LastOfName(files, i)
    ensures var k := PropertiesName(files[i]); k in Overlay(conf, files) && Overlay(conf, files)[k] == files[i]
    decreases |files|
  {
    if i < |files| - 1 {
      OverlayLast(conf, files[..|files| - 1], i);
    }
  }

  lemma {:induction false} UnderlayKeeps(conf: Conf, files: seq<NamedProperties>, k: string)
    ensures k in conf ==> k in Underlay(conf, files) && Underlay(conf, files)[k] == conf[k]
    ensures NoneNamed(files, k) ==> (k in Underlay(conf, files) <==> k in conf)
  {
    if files != [] {
      UnderlayKeeps(conf, files[..|files| - 1], k);
    }
  }

  lemma {:induction false} UnderlayFirst(conf: Conf, files: seq<NamedProperties>, i: nat)
    requires FirstOfName(files, i) && PropertiesName(files[i]) !in conf
    ensures var k := PropertiesName(files[i]); k in Underlay(conf, files) && Underlay(conf, files)[k] == files[i]
    decreases |files|
  {
    var n := |files| - 1;
    if i < n {
      UnderlayFirst(conf, files[..n], i);
    } else {
      assert NoneNamed(files[..n], PropertiesName(files[n]));
      UnderlayKeeps(conf, files[..n], PropertiesName(files[n]));
    }
  }

  ghost predicate Has(conf: Conf, p: NamedProperties) {
    PropertiesName(p) in conf && conf[PropertiesName(p)] == p
  }

  /** Which file wins.  The ConfigMap has the last file of the component, or else the last of the
      cluster; the StatefulSet mounts the last file of the cluster, or else the first of the
      component. */
  lemma Winners(base: seq<NamedProperties>, component: seq<NamedProperties>, i: nat)
    ensures LastOfName(component, i) ==> Has(ConfigMapConf(base, component), component[i])
    ensures LastOfName(base, i) && NoneNamed(component, PropertiesName(base[i])) ==>
      Has(ConfigMapConf(base, component), base[i])
    ensures LastOfName(base, i) ==> Has(MountConf(base, component), base[i])
    ensures FirstOfName(component, i) && NoneNamed(base, PropertiesName(component[i])) ==>
      Has(MountConf(base, component), component[i])
  {
    var low := Overlay(map[], base);
    if LastOfName(component, i) {
      OverlayLast(low, component, i);
    }
    if LastOfName(base, i) {
      OverlayLast(map[], base, i);
      UnderlayKeeps(low, component, PropertiesName(base[i]));
      if NoneNamed(component, PropertiesName(base[i])) {
        OverlayKeeps(low, component, PropertiesName(base[i]));
      }
    }
    if FirstOfName(component, i) && NoneNamed(base, PropertiesName(component[i])) {
      OverlayKeeps(map[], base, PropertiesName(component[i]));
      UnderlayFirst(low, component, i);
    }
  }

  method Fill(conf: Conf, files: seq<NamedProperties>) returns (r: Conf)
    ensures r == Overlay(conf, files)
  {
    r := conf;
    for i := 0 to |files|
      invariant r == Overlay(conf, files[..i])
    {
      assert files[..i + 1][..i] == files[..i];
      r := r[PropertiesName(files[i]) := files[i]];
    }
    assert files[..|files|] == files;
  }

  /** util.MergeConf: the list comes in whatever order the map is walked. */
  method MergeConf(base: seq<NamedProperties>, component: seq<NamedProperties>) returns (list: seq<NamedProperties>)
    ensures exists ks :: InOrder(list, ks, ConfigMapConf(base, component))
  {
    var conf := Fill(map[], base);
    conf := Fill(conf, component);
    assert conf == ConfigMapConf(base, component);
    list := Walk(conf);
  }

  /** The values of a map, in whatever order its keys come. */
  method Walk(conf: Conf) returns (list: seq<NamedProperties>)
    ensures exists ks :: InOrder(list, ks, conf)
  {
    list := [];
    var left := conf.Keys;
    ghost var ks: seq<string> := [];
    while left != {}
      invariant left <= conf.Keys && |list| == |ks|
      invariant forall k :: k in ks <==> k in conf.Keys - left
      invariant forall i, j :: 0 <= i < j < |ks| ==> ks[i] != ks[j]
      invariant forall i :: 0 <= i < |ks| ==> ks[i] in ks && list[i] == conf[ks[i]]
      decreases left
    {
      var k :| k in left;
      assert k !in ks;
      left := left - {k};
      list, ks := list + [conf[k]], ks + [k];
    }
    assert InOrder(list, ks, conf);
  }

  /** The StatefulSet merge: sorted by properties name. */
  method MountedFiles(base: seq<NamedProperties>, component: seq<NamedProperties>) returns (list: seq<NamedProperties>)
    ensures exists ks :: Sorted(ks) && InOrder(list, ks, MountConf(base, component))
  {
    var conf := Fill(map[], base);
    ghost var before := conf;
    for i := 0 to |component|
      invariant conf == Underlay(before, component[..i])
    {
      assert component[..i + 1][..i] == component[..i];
      var k := PropertiesName(component[i]);
      if k !in conf {
        conf := conf[k := component[i]];
      }
    }
    assert component[..|component|] == component;
    var keys := SortedKeys(conf);
    list := [];
    for i := 0 to |keys|
      invariant |list| == i && forall j :: 0 <= j < i ==> list[j] == conf[keys[j]]
    {
      assert keys[i] in keys;
      list := list + [conf[keys[i]]];
    }
    assert InOrder(list, keys, conf);
  }

  // ----- what is mounted and what is there -----

  const CONFIG_VOLUME := "app-config-volume"

  const CONFIG_MAP := "ConfigMap"

  /** ASCII only, as resource names are. */
  function Lower(c: char): char {
    if 'A' <= c <= 'Z' then c - 'A' + 'a' else c
  }

  function ToLower(s: string): (r: string)
    ensures |r| == |s| && forall i :: 0 <= i < |s| ==> r[i] == Lower(s[i])
  {
    seq(|s|, i requires 0 <= i < |s| => Lower(s[i]))
  }

  /** The result has no upper-case letter left, and is the text itself when that had none. */
  lemma Lowered(s: string, i: nat)
    requires i < |s|
    ensures !('A' <= ToLower(s)[i] <= 'Z')
    ensures 'A' <= s[i] <= 'Z' ==> ToLower(s)[i] as int == s[i] as int + 32
    ensures !('A' <= s[i] <= 'Z') ==> ToLower(s)[i] == s[i]
  {
  }

  function ComponentName(cluster: string, category: Category, kind: string): Name {
    ToLower(cluster + "-" + category + "-" + kind)
  }

  /** A volume over a ConfigMap, the keys it picks and where it is mounted. */
  datatype Mount = Mount(volume: string, configMap: Name, items: seq<string>, path: string)

  /** Nothing is mounted without files.  One volume serves all files, at the path of the first. */
  method BuildConfigMapMount(category: Category, cluster: string, files: seq<NamedProperties>)
    returns (mount: Option<Mount>)
    ensures mount.None? <==> files == []
    ensures mount.Some? ==>
      && mount.value.volume == CONFIG_VOLUME + "-" + category
      && mount.value.configMap == ComponentName(cluster, category, CONFIG_MAP)
      && mount.value.path == files[0].path && |mount.value.items| == |files|
      && forall i :: 0 <= i < |files| ==> mount.value.items[i] == files[i].name
  {
    if |files| == 0 {
      return None;
    }
    var items := [];
    for i := 0 to |files|
      invariant |items| == i && forall j :: 0 <= j < i ==> items[j] == files[j].name
    {
      items := items + [files[i].name];
    }
    var name := ComponentName(cluster, category, CONFIG_MAP);
    return Some(Mount(CONFIG_VOLUME + "-" + category, name, items, files[0].path));
  }

  /** The data of the ConfigMap: file contents by name, the last file of a name winning. */
  function DataOf(files: seq<NamedProperties>): map<string, string> {
    if files == [] then map[]
    else DataOf(files[..|files| - 1])[files[|files| - 1].name := files[|files| - 1].data]
  }

  method GetConfigMapData(files: seq<NamedProperties>) returns (data: map<string, string>)
    ensures data == DataOf(files)
  {
    data := map[];
    for i := 0 to |files|
      invariant data == DataOf(files[..i])
    {
      assert files[..i + 1][..i] == files[..i];
      data := data[files[i].name := files[i].data];
    }
    assert files[..|files|] == files;
  }

  function NamesOf(files: seq<NamedProperties>): set<string> {
    set p | p in files :: p.name
  }

  lemma {:induction false} DataKeys(files: seq<NamedProperties>)
    ensures DataOf(files).Keys == NamesOf(files)
  {
    if files != [] {
      var n := |files| - 1;
      DataKeys(files[..n]);
      assert files == files[..n] + [files[n]];
      assert NamesOf(files) == NamesOf(files[..n]) + {files[n].name};
    }
  }

  function KeysOfFiles(files: seq<NamedProperties>): set<string> {
    set p | p in files :: PropertiesName(p)
  }

  /** Every entry is one of the merged files, under its own properties name. */
  ghost predicate Proper(conf: Conf, files: seq<NamedProperties>) {
    forall k :: k in conf ==> conf[k] in files && PropertiesName(conf[k]) == k
  }

  lemma {:induction false} OverlayKeys(conf: Conf, seen: seq<NamedProperties>, files: seq<NamedProperties>)
    requires Proper(conf, seen)
    ensures Overlay(conf, files).Keys == conf.Keys + KeysOfFiles(files) && Proper(Overlay(conf, files), seen + files)
  {
    if files == [] {
      assert seen + files == seen;
    } else {
      var n := |files| - 1;
      OverlayKeys(conf, seen, files[..n]);
      assert seen + files == (seen + files[..n]) + [files[n]] && files == files[..n] + [files[n]];
    }
  }

  lemma {:induction false} UnderlayKeys(conf: Conf, seen: seq<NamedProperties>, files: seq<NamedProperties>)
    requires Proper(conf, seen)
    ensures Underlay(conf, files).Keys == conf.Keys + KeysOfFiles(files) && Proper(Underlay(conf, files), seen + files)
  {
    if files == [] {
      assert seen + files == seen;
    } else {
      var n := |files| - 1;
      var before := Underlay(conf, files[..n]);
      UnderlayKeys(conf, seen, files[..n]);
      assert seen + files == (seen + files[..n]) + [files[n]];
      assert files == files[..n] + [files[n]];
      assert KeysOfFiles(files) == KeysOfFiles(files[..n]) + {PropertiesName(files[n])};
    }
  }

  /** Both merges know the same files. */
  lemma SameFiles(base: seq<NamedProperties>, component: seq<NamedProperties>)
    ensures MountConf(base, component).Keys == ConfigMapConf(base, component).Keys
    ensures Proper(MountConf(base, component), base + component)
    ensures Proper(ConfigMapConf(base, component), base + component)
  {
    OverlayKeys(map[], [], base);
    assert [] + base == base;
    OverlayKeys(Overlay(map[], base), base, component);
    UnderlayKeys(Overlay(map[], base), base, component);
  }

  /** name ends in a slash and other. */
  predicate EndsIn(name: string, other: string) {
    |other| < |name| && name[|name| - |other| - 1] == '/' && name[|name| - |other|..] == other
  }

  lemma KeyEndsIn(p: NamedProperties, q: NamedProperties)
    requires PropertiesName(p) == PropertiesName(q) && |p.path| < |q.path|
    ensures EndsIn(p.name, q.name)
  {
    var k := PropertiesName(p);
    var d := |q.path| - |p.path|;
    assert k[|q.path|] == '/' && k[|q.path|] == p.name[d - 1];
    assert k[|q.path| + 1..] == q.name && k[|p.path| + 1..] == p.name;
    assert k[|q.path| + 1..] == p.name[d..];
  }

  /** Of two files with one properties name, the names agree or one ends in the other. */
  lemma NameOfKey(p: NamedProperties, q: NamedProperties)
    requires PropertiesName(p) == PropertiesName(q)
    ensures p == q.(data := p.data) || EndsIn(p.name, q.name) || EndsIn(q.name, p.name)
  {
    var k := PropertiesName(p);
    if |p.path| < |q.path| {
      KeyEndsIn(p, q);
    } else if |q.path| < |p.path| {
      KeyEndsIn(q, p);
    } else {
      assert k[..|p.path|] == p.path && k[|p.path| + 1..] == p.name;
      assert k[..|q.path|] == q.path && k[|q.path| + 1..] == q.name;
    }
  }

  lemma InOrderNames(files: seq<NamedProperties>, ks: seq<string>, conf: Conf, name: string)
    requires InOrder(files, ks, conf)
    ensures name in NamesOf(files) <==> exists k :: k in conf && conf[k].name == name
  {
    if name in NamesOf(files) {
      var p :| p in files && p.name == name;
      var i :| 0 <= i < |files| && files[i] == p;
      assert ks[i] in ks;
    }
    if k :| k in conf && conf[k].name == name {
      var i :| 0 <= i < |ks| && ks[i] == k;
      assert files[i] in files;
    }
  }

  /** A pod mounts exactly the keys the ConfigMap has, for every order of both maps. */
  ghost predicate MountsWhatIsThere(base: seq<NamedProperties>, component: seq<NamedProperties>) {
    forall mounted, ks, stored, ls ::
      InOrder(mounted, ks, MountConf(base, component)) && InOrder(stored, ls, ConfigMapConf(base, component)) ==>
        NamesOf(mounted) == DataOf(stored).Keys
  }

  ghost predicate NamedFrom(files: seq<NamedProperties>, names: set<string>) {
    forall p :: p in files ==> p.name in names
  }

  ghost predicate NoneEndsInAnother(names: set<string>) {
    forall n, m :: n in names && m in names ==> !EndsIn(n, m)
  }

  /** Although the merges prefer opposite sides, a pod mounts what the ConfigMap has, for all files
      with these names under any paths, exactly when no name ends in a slash and another. */
  lemma MountsIff(names: set<string>)
    ensures NoneEndsInAnother(names) <==>
      forall base, component :: NamedFrom(base + component, names) ==> MountsWhatIsThere(base, component)
  {
    if NoneEndsInAnother(names) {
      forall base, component | NamedFrom(base + component, names) ensures MountsWhatIsThere(base, component) {
        forall mounted, ks, stored, ls |
          InOrder(mounted, ks, MountConf(base, component)) && InOrder(stored, ls, ConfigMapConf(base, component))
          ensures NamesOf(mounted) == DataOf(stored).Keys
        {
          NamesAgree(names, base, component, mounted, ks, stored, ls);
        }
      }
    } else {
      var n, m :| n in names && m in names && EndsIn(n, m);
      var p, q := NamedProperties("", n, ""), NamedProperties("/" + n[..|n| - |m| - 1], m, "");
      SlashParts(n, m, p, q);
      assert NamedFrom([p] + [q], names);
    }
  }

  lemma NamesAgree(names: set<string>, base: seq<NamedProperties>, component: seq<NamedProperties>,
                   mounted: seq<NamedProperties>, ks: seq<string>, stored: seq<NamedProperties>, ls: seq<string>)
    requires NoneEndsInAnother(names) && NamedFrom(base + component, names)
    requires InOrder(mounted, ks, MountConf(base, component)) && InOrder(stored, ls, ConfigMapConf(base, component))
    ensures NamesOf(mounted) == DataOf(stored).Keys
  {
    SameFiles(base, component);
    DataKeys(stored);
    var m, c := MountConf(base, component), ConfigMapConf(base, component);
    forall k | k in m ensures m[k].name == c[k].name {
      NameOfKey(m[k], c[k]);
    }
    forall name ensures name in NamesOf(mounted) <==> name in NamesOf(stored) {
      InOrderNames(mounted, ks, m, name);
      InOrderNames(stored, ls, c, name);
    }
  }

  /** The same key split at two slashes: the pod mounts a key that the ConfigMap does not have. */
  lemma SlashParts(n: string, m: string, p: NamedProperties, q: NamedProperties)
    requires EndsIn(n, m) && p == NamedProperties("", n, "") && q == NamedProperties("/" + n[..|n| - |m| - 1], m, "")
    ensures !MountsWhatIsThere([p], [q])
  {
    var k := "/" + n;
    assert n == n[..|n| - |m| - 1] + "/" + m;
    assert PropertiesName(p) == k && PropertiesName(q) == k;
    assert [p][..0] == [] && [q][..0] == [];
    assert Overlay(map[], [p]) == map[k := p];
    assert Underlay(map[k := p], [q]) == map[k := p];
    assert Overlay(map[k := p], [q]) == map[k := q];
    assert MountConf([p], [q]) == map[k := p];
    assert ConfigMapConf([p], [q]) == map[k := q];
    assert InOrder([p], [k], map[k := p]) && InOrder([q], [k], map[k := q]);
    assert p.name in NamesOf([p]);
    assert DataOf([q]) == map[m := ""];
  }

  // ----- whether the data depends on the order of the map -----

  lemma {:induction false} LastData(files: seq<NamedProperties>, i: nat)
    requires i < |files| && forall j :: i < j < |files| ==> files[j].name != files[i].name
    ensures files[i].name in DataOf(files) && DataOf(files)[files[i].name] == files[i].data
    decreases |files|
  {
    if i < |files| - 1 {
      LastData(files[..|files| - 1], i);
    }
  }

  lemma {:induction false} SomeData(files: seq<NamedProperties>, name: string) returns (p: NamedProperties)
    requires name in DataOf(files)
    ensures p in files && p.name == name && DataOf(files)[name] == p.data
  {
    var n := |files| - 1;
    if files[n].name == name {
      p := files[n];
    } else {
      p := SomeData(files[..n], name);
    }
  }

  /** Two files that the ConfigMap would store under one name do not differ. */
  ghost predicate OneContentPerName(conf: Conf) {
    forall k, l :: k in conf && l in conf && conf[k].name == conf[l].name ==> conf[k].data == conf[l].data
  }

  /** The data of the ConfigMap is the same for every order of the map exactly when files of one name
      have one content; otherwise its fingerprint can change between two reconciles of one spec. */
  lemma DataIsStableIff(conf: Conf)
    ensures OneContentPerName(conf) <==>
      forall f, g, ks, ls :: InOrder(f, ks, conf) && InOrder(g, ls, conf) ==> DataOf(f) == DataOf(g)
  {
    if OneContentPerName(conf) {
      forall f, g, ks, ls | InOrder(f, ks, conf) && InOrder(g, ls, conf) ensures DataOf(f) == DataOf(g) {
        OneContent(conf, f, g, ks, ls);
      }
    } else {
      var k, l :| k in conf && l in conf && conf[k].name == conf[l].name && conf[k].data != conf[l].data;
      var f, ks := EndingWith(conf, k);
      var g, ls := EndingWith(conf, l);
      LastData(f, |f| - 1);
      LastData(g, |g| - 1);
      assert DataOf(f) != DataOf(g);
    }
  }

  /** Two paths of one component that hold files of one name. */
  lemma DataVaries(a: NamedProperties, b: NamedProperties)
    requires a == NamedProperties("/a", "x", "1") && b == NamedProperties("/b", "x", "2")
    ensures !OneContentPerName(ConfigMapConf([a, b], [])) && !OneContentPerName(ConfigMapConf([], [a, b]))
  {
    assert PropertiesName(a)[1] != PropertiesName(b)[1];
    Winners([a, b], [], 0);
    Winners([a, b], [], 1);
    Winners([], [a, b], 0);
    Winners([], [a, b], 1);
    assert LastOfName([a, b], 0) && LastOfName([a, b], 1);
    assert Has(ConfigMapConf([a, b], []), [a, b][0]) && Has(ConfigMapConf([a, b], []), [a, b][1]);
    assert Has(ConfigMapConf([], [a, b]), [a, b][0]) && Has(ConfigMapConf([], [a, b]), [a, b][1]);
  }

  lemma OneContent(conf: Conf, f: seq<NamedProperties>, g: seq<NamedProperties>, ks: seq<string>, ls: seq<string>)
    requires OneContentPerName(conf) && InOrder(f, ks, conf) && InOrder(g, ls, conf)
    ensures DataOf(f) == DataOf(g)
  {
    DataKeys(f);
    DataKeys(g);
    forall name ensures name in DataOf(f) <==> name in DataOf(g) {
      InOrderNames(f, ks, conf, name);
      InOrderNames(g, ls, conf, name);
    }
    forall name | name in DataOf(f) ensures DataOf(f)[name] == DataOf(g)[name] {
      var k := SomeEntry(conf, f, ks, name);
      var l := SomeEntry(conf, g, ls, name);
    }
  }

  lemma SomeEntry(conf: Conf, f: seq<NamedProperties>, ks: seq<string>, name: string) returns (k: string)
    requires InOrder(f, ks, conf) && name in DataOf(f)
    ensures k in conf && conf[k].name == name && DataOf(f)[name] == conf[k].data
  {
    var p := SomeData(f, name);
    var i :| 0 <= i < |f| && f[i] == p;
    k := ks[i];
    assert k in ks;
  }

  /** Any key can come last. */
  lemma EndingWith(conf: Conf, k: string) returns (files: seq<NamedProperties>, ks: seq<string>)
    requires k in conf
    ensures InOrder(files, ks, conf) && files != [] && files[|files| - 1] == conf[k]
  {
    var rest := conf - {k};
    ks := Listing(rest.Keys);
    ks := ks + [k];
    files := seq(|ks|, i requires 0 <= i < |ks| => assert ks[i] in ks; conf[ks[i]]);
  }

  lemma {:induction false} Listing(s: set<string>) returns (ks: seq<string>)
    ensures forall i, j :: 0 <= i < j < |ks| ==> ks[i] != ks[j]
    ensures forall k :: k in ks <==> k in s
  {
    ks := [];
    if s != {} {
      var k :| k in s;
      ks := Listing(s - {k});
      ks := [k] + ks;
    }
  }
}
