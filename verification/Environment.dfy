/** Environment variables of pod containers: GetEnv and ModifyEnv of kernel/util/pod_util.go. */
module Environment {
  import opened Types

  /** from is the rendered value source, empty when there is none. */
  datatype EnvVar = EnvVar(name: string, value: string, from: string)

  /** The variables of one container; a pod template is a sequence of these. */
  type Env = seq<EnvVar>

  predicate Effective(e: EnvVar) {
    e.value != "" || e.from != ""
  }

  function Names(vars: Env): set<string> {
    set e | e in vars :: e.name
  }

  /** The first value of key in a container, and whether there is one. */
  function FirstIn(env: Env, key: string): Option<string> {
    if env == [] then None else if env[0].name == key then Some(env[0].value) else FirstIn(env[1..], key)
  }

  function GetEnv(templates: seq<Env>, key: string): string {
    if templates == [] then ""
    else
      match FirstIn(templates[0], key)
      case Some(v) => v
      case None => GetEnv(templates[1..], key)
  }

  /** The variables of env whose name is not among keys. */
  function Without(env: Env, keys: set<string>): Env {
    if env == [] then []
    else if env[|env| - 1].name in keys then Without(env[..|env| - 1], keys)
    else Without(env[..|env| - 1], keys) + [env[|env| - 1]]
  }

  /** The variables that carry a value. */
  function Effectives(vars: Env): Env {
    if vars == [] then []
    else Effectives(vars[..|vars| - 1]) + if Effective(vars[|vars| - 1]) then [vars[|vars| - 1]] else []
  }

  /** One container after vars were set; a variable without a value is removed. */
  function Set(env: Env, vars: Env): Env {
    Without(env, Names(vars)) + Effectives(vars)
  }

  function SetAll(templates: seq<Env>, vars: Env): (r: seq<Env>)
    ensures |r| == |templates| && forall i :: 0 <= i < |r| ==> r[i] == Set(templates[i], vars)
  {
    seq(|templates|, i requires 0 <= i < |templates| => Set(templates[i], vars))
  }

  /** Sets variables in every container, in place. */
  method ModifyEnv(templates: array<Env>, vars: Env)
    modifies templates
    ensures templates[..] == SetAll(old(templates[..]), vars)
  {
    var names, effective := Collect(vars);
    for i := 0 to templates.Length
      invariant forall j :: 0 <= j < i ==> templates[j] == Set(old(templates[j]), vars)
      invariant forall j :: i <= j < templates.Length ==> templates[j] == old(templates[j])
    {
      var envs := Others(templates[i], names);
      templates[i] := envs + effective;
    }
  }

  /** The loop over the variables to set. */
  method Collect(vars: Env) returns (names: set<string>, effective: Env)
    ensures names == Names(vars) && effective == Effectives(vars)
  {
    names, effective := {}, [];
    for i := 0 to |vars|
      invariant names == Names(vars[..i]) && effective == Effectives(vars[..i])
    {
      NamesStep(vars, i);
      if Effective(vars[i]) {
        effective := effective + [vars[i]];
      }
      names := names + {vars[i].name};
    }
    assert vars[..|vars|] == vars;
  }

  lemma NamesStep(vars: Env, i: nat)
    requires i < |vars|
    ensures vars[..i + 1][..i] == vars[..i] && Names(vars[..i + 1]) == Names(vars[..i]) + {vars[i].name}
  {
    assert vars[..i + 1] == vars[..i] + [vars[i]];
  }

  /** The loop over the variables of one container. */
  method Others(c: Env, names: set<string>) returns (envs: Env)
    ensures envs == Without(c, names)
  {
    envs := [];
    for k := 0 to |c|
      invariant envs == Without(c[..k], names)
    {
      assert c[..k + 1][..k] == c[..k];
      if c[k].name !in names {
        envs := envs + [c[k]];
      }
    }
    assert c[..|c|] == c;
  }

  // ----- laws -----

  lemma {:induction false} WithoutNames(env: Env, keys: set<string>, e: EnvVar)
    ensures e in Without(env, keys) <==> e in env && e.name !in keys
  {
    if env != [] {
      WithoutNames(env[..|env| - 1], keys, e);
      assert env == env[..|env| - 1] + [env[|env| - 1]];
    }
  }

  lemma {:induction false} WithoutAppend(env: Env, keys: set<string>, more: Env)
    ensures Without(env + more, keys) == Without(env, keys) + Without(more, keys)
  {
    if more == [] {
      assert env + more == env;
    } else {
      var n := |more| - 1;
      assert (env + more)[..|env + more| - 1] == env + more[..n];
      WithoutAppend(env, keys, more[..n]);
    }
  }

  /** Removing a larger set of names makes an earlier removal superfluous. */
  lemma {:induction false} WithoutTwice(env: Env, fewer: set<string>, keys: set<string>)
    requires fewer <= keys
    ensures Without(Without(env, fewer), keys) == Without(env, keys)
  {
    if env != [] {
      var last := env[|env| - 1];
      WithoutTwice(env[..|env| - 1], fewer, keys);
      WithoutAppend(Without(env[..|env| - 1], fewer), keys, [last]);
      assert [last][..0] == [];
    }
  }

  lemma {:induction false} WithoutNothing(env: Env, keys: set<string>)
    requires Names(env) !! keys
    ensures Without(env, keys) == env
  {
    if env != [] {
      var n := |env| - 1;
      assert env == env[..n] + [env[n]];
      assert env[n] in env && env[n].name in Names(env);
      assert Names(env[..n]) <= Names(env);
      WithoutNothing(env[..n], keys);
    }
  }

  lemma {:induction false} WithoutAll(env: Env, keys: set<string>)
    requires Names(env) <= keys
    ensures Without(env, keys) == []
  {
    if env != [] {
      var n := |env| - 1;
      assert env == env[..n] + [env[n]];
      assert env[n].name in Names(env) && Names(env[..n]) <= Names(env);
      WithoutAll(env[..n], keys);
    }
  }

  lemma {:induction false} EffectivesIn(vars: Env, e: EnvVar)
    ensures e in Effectives(vars) <==> e in vars && Effective(e)
  {
    if vars != [] {
      EffectivesIn(vars[..|vars| - 1], e);
      assert vars == vars[..|vars| - 1] + [vars[|vars| - 1]];
    }
  }

  lemma {:induction false} FirstInNone(env: Env, key: string)
    ensures FirstIn(env, key).None? <==> key !in Names(env)
  {
    if env != [] {
      FirstInNone(env[1..], key);
      assert env == [env[0]] + env[1..];
      assert Names(env) == {env[0].name} + Names(env[1..]);
    }
  }

  lemma {:induction false} FirstInAppend(env: Env, more: Env, key: string)
    ensures FirstIn(env + more, key) == if FirstIn(env, key).Some? then FirstIn(env, key) else FirstIn(more, key)
  {
    if env == [] {
      assert env + more == more;
    } else {
      assert (env + more)[1..] == env[1..] + more;
      FirstInAppend(env[1..], more, key);
    }
  }

  lemma {:induction false} FirstInWithout(env: Env, keys: set<string>, key: string)
    requires key !in keys
    ensures FirstIn(Without(env, keys), key) == FirstIn(env, key)
  {
    if env != [] {
      var n := |env| - 1;
      FirstInWithout(env[..n], keys, key);
      FirstInAppend(env[..n], [env[n]], key);
      FirstInAppend(Without(env[..n], keys), [env[n]], key);
      assert env == env[..n] + [env[n]];
      assert env[n].name in keys ==> FirstIn([env[n]], key).None?;
    }
  }

  /** A second set of at least the same names overrides the first. */
  lemma SetTwice(env: Env, vars: Env, again: Env)
    requires Names(vars) <= Names(again)
    ensures Set(Set(env, vars), again) == Set(env, again)
  {
    EffectiveNames(vars);
    WithoutAppend(Without(env, Names(vars)), Names(again), Effectives(vars));
    WithoutTwice(env, Names(vars), Names(again));
    WithoutAll(Effectives(vars), Names(again));
  }

  lemma EffectiveNames(vars: Env)
    ensures Names(Effectives(vars)) <= Names(vars)
  {
    forall e ensures e in Effectives(vars) ==> e in vars {
      EffectivesIn(vars, e);
    }
  }

  /** Removing the names that were set restores a container that had none of them. */
  lemma SetThenRemove(env: Env, vars: Env, again: Env)
    requires Names(vars) <= Names(again) && Names(env) !! Names(again) && Effectives(again) == []
    ensures Set(Set(env, vars), again) == env
  {
    SetTwice(env, vars, again);
    WithoutNothing(env, Names(again));
  }

  /** What one container answers after a set: the first effective value among vars for their names,
      what it answered before for every other name. */
  lemma SetThenFirst(env: Env, vars: Env, key: string)
    ensures FirstIn(Set(env, vars), key) == FirstIn(if key in Names(vars) then Effectives(vars) else env, key)
  {
    var left := Without(env, Names(vars));
    FirstInAppend(left, Effectives(vars), key);
    if key in Names(vars) {
      FirstInNone(left, key);
      forall e ensures e in left ==> e.name != key {
        WithoutNames(env, Names(vars), e);
      }
    } else {
      FirstInWithout(env, Names(vars), key);
      FirstInNone(Effectives(vars), key);
      forall e ensures e in Effectives(vars) ==> e in vars {
        EffectivesIn(vars, e);
      }
    }
  }

  /** After a set in at least one container GetEnv reads the first effective value set for a name,
      nothing when the name was removed, and every other name as before. */
  lemma {:induction false} SetThenGet(templates: seq<Env>, vars: Env, key: string)
    ensures key in Names(vars) && templates != [] ==>
      GetEnv(SetAll(templates, vars), key) ==
        if FirstIn(Effectives(vars), key).Some? then FirstIn(Effectives(vars), key).value else ""
    ensures key !in Names(vars) ==> GetEnv(SetAll(templates, vars), key) == GetEnv(templates, key)
  {
    if templates != [] {
      SetThenFirst(templates[0], vars, key);
      assert SetAll(templates, vars)[1..] == SetAll(templates[1..], vars);
      SetThenGet(templates[1..], vars, key);
    }
  }

  /** What a container holds after a set: its variables of other names, and those of vars that have a
      value or a value source. */
  lemma SetMembers(env: Env, vars: Env, e: EnvVar)
    ensures e in Set(env, vars) <==>
      (e in env && !exists v :: v in vars && v.name == e.name) || (e in vars && (e.value != "" || e.from != ""))
  {
    WithoutNames(env, Names(vars), e);
    EffectivesIn(vars, e);
    assert e.name in Names(vars) <==> exists v :: v in vars && v.name == e.name;
  }

  /** Variable j of container i is the first one named key. */
  ghost predicate FirstNamed(templates: seq<Env>, key: string, i: nat, j: nat) {
    && i < |templates| && j < |templates[i]| && templates[i][j].name == key
    && (forall a, b :: 0 <= a < i && 0 <= b < |templates[a]| ==> templates[a][b].name != key)
    && (forall b :: 0 <= b < j ==> templates[i][b].name != key)
  }

  lemma {:induction false} FirstInAt(env: Env, key: string, j: nat)
    requires j < |env| && env[j].name == key && forall b :: 0 <= b < j ==> env[b].name != key
    ensures FirstIn(env, key) == Some(env[j].value)
  {
    if j > 0 {
      FirstInAt(env[1..], key, j - 1);
    }
  }

  /** GetEnv reads the first variable of that name, container by container. */
  lemma {:induction false} GetEnvAt(templates: seq<Env>, key: string, i: nat, j: nat)
    requires FirstNamed(templates, key, i, j)
    ensures GetEnv(templates, key) == templates[i][j].value
  {
    if i == 0 {
      FirstInAt(templates[0], key, j);
    } else {
      FirstInNone(templates[0], key);
      assert FirstNamed(templates[1..], key, i - 1, j);
      GetEnvAt(templates[1..], key, i - 1, j);
    }
  }

  lemma {:induction false} GetEnvNone(templates: seq<Env>, key: string)
    requires forall i, j :: 0 <= i < |templates| && 0 <= j < |templates[i]| ==> templates[i][j].name != key
    ensures GetEnv(templates, key) == ""
  {
    if templates != [] {
      FirstInNone(templates[0], key);
      GetEnvNone(templates[1..], key);
    }
  }
}
