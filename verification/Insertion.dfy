/** What a run of MoveIfAbsent insertions leaves in the plan. */
module Insertion {
  import opened Types
  import opened Lines

  // ----- one insertion, on values -----

  function Alike(line: seq<Command>, k: Key): set<Command> {
    set c | c in line && KeyOf(c) == k
  }

  function Insert(line: seq<Command>, c: Command): seq<Command> {
    if line == [] then [c] else Evict(line, Alike(line, KeyOf(c))) + [c]
  }

  function InsertAll(cs: seq<Command>): seq<Command> {
    if cs == [] then [] else Insert(InsertAll(cs[..|cs| - 1]), cs[|cs| - 1])
  }

  // ----- positions instead of elements -----

  ghost predicate Below(ks: seq<nat>, n: nat) {
    forall j :: 0 <= j < |ks| ==> ks[j] < n
  }

  ghost predicate Increasing(ks: seq<nat>) {
    forall i, j :: 0 <= i < j < |ks| ==> ks[i] < ks[j]
  }

  /** The elements of s at the positions ks. */
  ghost function Pick<T>(s: seq<T>, ks: seq<nat>): (r: seq<T>)
    requires Below(ks, |s|)
    ensures |r| == |ks| && forall j :: 0 <= j < |ks| ==> r[j] == s[ks[j]]
  {
    seq(|ks|, j requires 0 <= j < |ks| => s[ks[j]])
  }

  /** The positions from i on that Scan keeps, when hit says which elements are bad. */
  ghost function ScanAt(hit: seq<bool>, i: nat): (ks: seq<nat>)
    requires i <= |hit|
    ensures Below(ks, |hit|)
    decreases |hit| - i
  {
    if i == |hit| then []
    else if !hit[i] then [i] + ScanAt(hit, i + 1)
    else if i + 1 == |hit| then []
    else [i + 1] + ScanAt(hit, i + 2)
  }

  ghost function Survivors(hit: seq<bool>): (ks: seq<nat>)
    requires hit != []
    ensures Below(ks, |hit|)
  {
    if hit[0] && |hit| > 1 then [0, 1] + ScanAt(hit, 2) else [0] + ScanAt(hit, 1)
  }

  lemma ConsIncreasing(x: nat, ks: seq<nat>)
    requires Increasing(ks) && forall j :: 0 <= j < |ks| ==> x < ks[j]
    ensures Increasing([x] + ks)
  {
  }

  lemma {:induction false} ScanAtIncreasing(hit: seq<bool>, i: nat)
    requires i <= |hit|
    ensures Increasing(ScanAt(hit, i)) && forall j :: 0 <= j < |ScanAt(hit, i)| ==> i <= ScanAt(hit, i)[j]
    decreases |hit| - i
  {
    if i < |hit| {
      if !hit[i] {
        ScanAtIncreasing(hit, i + 1);
        ConsIncreasing(i, ScanAt(hit, i + 1));
      } else if i + 1 < |hit| {
        ScanAtIncreasing(hit, i + 2);
        ConsIncreasing(i + 1, ScanAt(hit, i + 2));
      }
    }
  }

  lemma SurvivorsIncreasing(hit: seq<bool>)
    requires hit != []
    ensures Increasing(Survivors(hit)) && Survivors(hit) != [] && Survivors(hit)[0] == 0
  {
    ScanAtIncreasing(hit, 1);
    if |hit| > 1 {
      ScanAtIncreasing(hit, 2);
    }
  }

  ghost predicate Marks<T>(s: seq<T>, bad: set<T>, hit: seq<bool>) {
    |hit| == |s| && forall i :: 0 <= i < |s| ==> (hit[i] <==> s[i] in bad)
  }

  lemma {:induction false} ScanPicks<T>(s: seq<T>, bad: set<T>, hit: seq<bool>, i: nat)
    requires Marks(s, bad, hit) && i <= |s|
    ensures Scan(s[i..], bad) == Pick(s, ScanAt(hit, i))
    decreases |s| - i
  {
    if i < |s| {
      assert s[i..][0] == s[i] && s[i..][1..] == s[i + 1..];
      if !hit[i] {
        ScanPicks(s, bad, hit, i + 1);
        PickCons(s, i, ScanAt(hit, i + 1));
      } else if i + 1 < |s| {
        assert s[i..][2..] == s[i + 2..] && s[i..][1] == s[i + 1];
        ScanPicks(s, bad, hit, i + 2);
        PickCons(s, i + 1, ScanAt(hit, i + 2));
      }
    }
  }

  /** Which elements stay depends only on which of them are bad. */
  lemma EvictPicks<T>(s: seq<T>, bad: set<T>, hit: seq<bool>)
    requires Marks(s, bad, hit) && s != []
    ensures Evict(s, bad) == Pick(s, Survivors(hit))
  {
    assert hit[0] <==> s[0] in bad;
    if hit[0] && |s| > 1 {
      EvictBadHead(s, bad, hit);
    } else {
      ScanPicks(s, bad, hit, 1);
      PickCons(s, 0, ScanAt(hit, 1));
    }
  }

  lemma EvictBadHead<T>(s: seq<T>, bad: set<T>, hit: seq<bool>)
    requires Marks(s, bad, hit) && |s| > 1 && hit[0]
    ensures Evict(s, bad) == Pick(s, Survivors(hit))
  {
    ScanPicks(s, bad, hit, 2);
    PickTwo(s, ScanAt(hit, 2));
  }

  lemma PickTwo<T>(s: seq<T>, ks: seq<nat>)
    requires |s| > 1 && Below(ks, |s|)
    ensures Below([0, 1] + ks, |s|) && Pick(s, [0, 1] + ks) == [s[0], s[1]] + Pick(s, ks)
  {
  }

  lemma PickCons<T>(s: seq<T>, k: nat, ks: seq<nat>)
    requires k < |s| && Below(ks, |s|)
    ensures Below([k] + ks, |s|) && Pick(s, [k] + ks) == [s[k]] + Pick(s, ks)
  {
  }

  ghost function HitsOf(cs: seq<Command>, k: Key): (hit: seq<bool>)
    ensures |hit| == |cs| && forall i :: 0 <= i < |cs| ==> (hit[i] <==> KeyOf(cs[i]) == k)
  {
    seq(|cs|, i requires 0 <= i < |cs| => KeyOf(cs[i]) == k)
  }

  /** The node-level eviction of MoveIfAbsent is the value-level one. */
  lemma EvictData(line: seq<Node<Command>>, bad: set<Node<Command>>, k: Key)
    requires line != [] && forall i :: 0 <= i < |line| ==> (line[i] in bad <==> KeyOf(line[i].data) == k)
    ensures Data(Evict(line, bad)) == Evict(Data(line), Alike(Data(line), k))
  {
    var cs := Data(line);
    var hit := HitsOf(cs, k);
    forall i | 0 <= i < |cs| ensures hit[i] <==> cs[i] in Alike(cs, k) {
      assert cs[i] in cs;
    }
    EvictPicks(line, bad, hit);
    EvictPicks(cs, Alike(cs, k), hit);
    assert Data(Pick(line, Survivors(hit))) == Pick(cs, Survivors(hit));
  }

  lemma SameData<T>(line: seq<Node<T>>, cs: seq<T>)
    requires |line| == |cs| && forall i :: 0 <= i < |line| ==> line[i].data == cs[i]
    ensures Data(line) == cs
  {
  }

  /** MoveIfAbsent with a single new node, seen from the commands: the plan becomes Insert. */
  method InsertNode(self: Node<Command>, node: Node<Command>, ghost line: seq<Node<Command>>,
                    ghost repr: set<Node<Command>>)
    returns (ghost kept: seq<Node<Command>>)
    requires Chain(line) && line != [] && line[0] == self && Among(line, repr)
    requires node.next == null && node !in repr
    modifies repr`next
    ensures Chain(kept + [node]) && kept != [] && kept[0] == self
    ensures Data(kept) + [node.data] == Insert(old(Data(line)), node.data)
    ensures Among(kept, repr)
  {
    ghost var k := KeyOf(node.data);
    ghost var bad := set n | n in repr && KeyOf(n.data) == k;
    EvictData(line, bad, k);
    ghost var cs := Data(Evict(line, bad));
    kept := MoveIfAbsent(self, node, line, [node], bad, repr);
    SameData(kept, cs);
  }

  // ----- a whole run of insertions -----

  function Keys(cs: seq<Command>): (ks: seq<Key>)
    ensures |ks| == |cs| && forall i :: 0 <= i < |cs| ==> ks[i] == KeyOf(cs[i])
  {
    seq(|cs|, i requires 0 <= i < |cs| => KeyOf(cs[i]))
  }

  lemma PickIncreasing(ks: seq<nat>, js: seq<nat>)
    requires Increasing(ks) && Increasing(js) && Below(js, |ks|)
    ensures Increasing(Pick(ks, js))
  {
  }

  lemma PickPick<T>(s: seq<T>, ks: seq<nat>, js: seq<nat>)
    requires Below(ks, |s|) && Below(js, |ks|)
    ensures Below(Pick(ks, js), |s|) && Pick(Pick(s, ks), js) == Pick(s, Pick(ks, js))
  {
  }

  lemma OrderStep(before: seq<Command>, ks: seq<nat>, c: Command) returns (left: seq<nat>)
    requires Below(ks, |before|) && Increasing(ks)
    ensures Below(left, |before|) && Increasing(left)
    ensures Insert(Pick(before, ks), c) == Pick(before, left) + [c]
  {
    left := [];
    var line := Pick(before, ks);
    if line != [] {
      var js := Survivors(HitsOf(line, KeyOf(c)));
      InsertPicks(line, c);
      SurvivorsIncreasing(HitsOf(line, KeyOf(c)));
      PickIncreasing(ks, js);
      PickPick(before, ks, js);
      left := Pick(ks, js);
    }
  }

  lemma PickExtend(cs: seq<Command>, ks: seq<nat>)
    requires cs != [] && Below(ks, |cs| - 1) && Increasing(ks)
    ensures Below(ks + [|cs| - 1], |cs|) && Increasing(ks + [|cs| - 1])
    ensures Pick(cs, ks + [|cs| - 1]) == Pick(cs[..|cs| - 1], ks) + [cs[|cs| - 1]]
  {
  }

  /** The plan is a subsequence of the inserted commands: it keeps their order. */
  lemma {:induction false} PlanOrder(cs: seq<Command>) returns (ks: seq<nat>)
    ensures Below(ks, |cs|) && Increasing(ks) && InsertAll(cs) == Pick(cs, ks)
  {
    ks := [];
    if cs != [] {
      ks := PlanOrder(cs[..|cs| - 1]);
      ks := OrderStep(cs[..|cs| - 1], ks, cs[|cs| - 1]);
      PickExtend(cs, ks);
      ks := ks + [|cs| - 1];
    }
  }

  lemma InsertPicks(line: seq<Command>, c: Command)
    requires line != []
    ensures Insert(line, c) == Pick(line, Survivors(HitsOf(line, KeyOf(c)))) + [c]
  {
    var hit := HitsOf(line, KeyOf(c));
    forall i | 0 <= i < |line| ensures hit[i] <==> line[i] in Alike(line, KeyOf(c)) {
      assert line[i] in line;
    }
    EvictPicks(line, Alike(line, KeyOf(c)), hit);
  }

  // ----- who survives -----

  /** The invariant of the plan: from the third command on no key repeats, and the second key
      repeats later only if it is also the key of the first. */
  ghost predicate Shape(keys: seq<Key>) {
    && (forall i, j :: 2 <= i < j < |keys| ==> keys[i] != keys[j])
    && (forall j :: 2 <= j < |keys| ==> keys[1] == keys[0] || keys[1] != keys[j])
  }

  ghost predicate MarksKey(keys: seq<Key>, k: Key, hit: seq<bool>) {
    |hit| == |keys| && forall i :: 0 <= i < |keys| ==> (hit[i] <==> keys[i] == k)
  }

  lemma {:induction false} ScanAtExact(hit: seq<bool>, i: nat, m: nat)
    requires i <= m < |hit| && forall a, b :: i <= a < b < |hit| ==> !(hit[a] && hit[b])
    ensures m in ScanAt(hit, i) <==> !hit[m]
    decreases |hit| - i
  {
    if !hit[i] {
      ScanAtIncreasing(hit, i + 1);
      InCons(i, ScanAt(hit, i + 1), m);
      if i < m {
        ScanAtExact(hit, i + 1, m);
      }
    } else if i + 1 < |hit| {
      ScanAtIncreasing(hit, i + 2);
      InCons(i + 1, ScanAt(hit, i + 2), m);
      if i + 1 < m {
        ScanAtExact(hit, i + 2, m);
      }
    }
  }

  lemma InCons(x: nat, ks: seq<nat>, m: nat)
    ensures m in [x] + ks <==> m == x || m in ks
  {
  }

  /** In a plan of that shape an insertion removes exactly the commands with its key, except the
      first command and, when that one has the key too, the second. */
  lemma SurvivorsExact(keys: seq<Key>, k: Key, hit: seq<bool>, m: nat)
    requires Shape(keys) && MarksKey(keys, k, hit) && m < |keys|
    ensures m in Survivors(hit) <==> m == 0 || !hit[m] || (m == 1 && hit[0])
  {
    var from := if hit[0] && |hit| > 1 then 2 else 1;
    if from <= m {
      ScanAtExact(hit, from, m);
    } else if from <= |hit| {
      ScanAtIncreasing(hit, from);
    }
  }

  /** Insertion keeps the shape. */
  lemma InsertShape(line: seq<Command>, c: Command)
    requires Shape(Keys(line))
    ensures Shape(Keys(Insert(line, c)))
  {
    if line != [] {
      var keys, k := Keys(line), KeyOf(c);
      var hit := HitsOf(line, k);
      var js := Survivors(hit);
      SurvivorsIncreasing(hit);
      InsertPicks(line, c);
      var after := Keys(Insert(line, c));
      assert after == Pick(keys, js) + [k];
      forall i | 0 < i < |js| ensures js[i] > 0 && (js[i] == 1 ==> i == 1) && (hit[js[i]] ==> js[i] == 1 && hit[0]) {
        assert js[0] < js[i];
        if i > 1 {
          assert js[0] < js[1] < js[i];
        }
        SurvivorsExact(keys, k, hit, js[i]);
        assert js[i] in js;
      }
      forall i, j | 1 <= i < j < |after| && (i >= 2 || after[1] != after[0]) ensures after[i] != after[j] {
        assert after[i] == keys[js[i]];
        if j < |js| {
          assert js[i] < js[j] && after[j] == keys[js[j]];
        }
      }
    }
  }

  /** What one insertion keeps: the first command, the new one, and every command with another
      key; an older command with the new key stays only if it has the key of the first one. */
  lemma InsertMembers(line: seq<Command>, c: Command, d: Command)
    requires line != [] && Shape(Keys(line))
    ensures c in Insert(line, c) && Insert(line, c)[0] == line[0]
    ensures d in line && KeyOf(d) != KeyOf(c) ==> d in Insert(line, c)
    ensures d in Insert(line, c) ==> d == c || (d in line && (KeyOf(d) == KeyOf(c) ==> KeyOf(d) == KeyOf(line[0])))
  {
    var k := KeyOf(c);
    var hit := HitsOf(line, k);
    var js := Survivors(hit);
    InsertPicks(line, c);
    SurvivorsIncreasing(hit);
    var after := Insert(line, c);
    assert after[|after| - 1] == c;
    if d in line && KeyOf(d) != k {
      var m :| 0 <= m < |line| && line[m] == d;
      SurvivorsExact(Keys(line), k, hit, m);
      var q :| 0 <= q < |js| && js[q] == m;
      assert after[q] == d;
    }
    if d in after && d != c {
      var q :| 0 <= q < |js| && after[q] == d;
      assert js[q] in js;
      SurvivorsExact(Keys(line), k, hit, js[q]);
    }
  }

  // ----- the theorem about every run -----

  lemma {:induction false} LineShape(cs: seq<Command>)
    ensures Shape(Keys(InsertAll(cs)))
    ensures cs != [] ==> InsertAll(cs) != [] && InsertAll(cs)[0] == cs[0]
  {
    if cs != [] {
      var line, c := InsertAll(cs[..|cs| - 1]), cs[|cs| - 1];
      LineShape(cs[..|cs| - 1]);
      InsertShape(line, c);
      if line != [] {
        InsertMembers(line, c, c);
      }
    }
  }

  /** The last command of cs with key k. */
  function Last(cs: seq<Command>, k: Key): (c: Command)
    requires k in KeysOf(cs)
    ensures c in cs && KeyOf(c) == k
  {
    var n := |cs| - 1;
    if KeyOf(cs[n]) == k then cs[n]
    else
      KeysPrefix(cs, k);
      Last(cs[..n], k)
  }

  lemma KeysPrefix(cs: seq<Command>, k: Key)
    requires k in KeysOf(cs) && KeyOf(cs[|cs| - 1]) != k
    ensures k in KeysOf(cs[..|cs| - 1])
  {
    var c :| c in cs && KeyOf(c) == k;
    assert c in cs[..|cs| - 1];
  }

  /** Every run of insertions keeps the last command of every key; a command with another key than
      the first one stays only if it is the last of its key. */
  lemma {:induction false} PlanKeeps(cs: seq<Command>, k: Key)
    requires k in KeysOf(cs)
    ensures Last(cs, k) in InsertAll(cs)
    ensures k != KeyOf(cs[0]) ==> forall d :: d in InsertAll(cs) && KeyOf(d) == k ==> d == Last(cs, k)
  {
    var n := |cs| - 1;
    var line := InsertAll(cs[..n]);
    LineShape(cs[..n]);
    if line != [] {
      if KeyOf(cs[n]) != k {
        KeysPrefix(cs, k);
        PlanKeeps(cs[..n], k);
        InsertMembers(line, cs[n], Last(cs, k));
      }
      forall d | d in InsertAll(cs)
        ensures d == cs[n] || (d in line && (KeyOf(d) == KeyOf(cs[n]) ==> KeyOf(d) == KeyOf(cs[0])))
      {
        InsertMembers(line, cs[n], d);
      }
    }
  }

  lemma {:induction false} PlanInvents(cs: seq<Command>, c: Command)
    requires c in InsertAll(cs)
    ensures c in cs
  {
    var n := |cs| - 1;
    var line := InsertAll(cs[..n]);
    LineShape(cs[..n]);
    if c != cs[n] {
      InsertMembers(line, cs[n], c);
      PlanInvents(cs[..n], c);
    }
  }

  /** No key is lost and no command is invented. */
  lemma PlanKeys(cs: seq<Command>)
    ensures KeysOf(InsertAll(cs)) == KeysOf(cs)
    ensures forall c :: c in InsertAll(cs) ==> c in cs
  {
    forall c | c in InsertAll(cs) ensures c in cs {
      PlanInvents(cs, c);
    }
    forall k | k in KeysOf(cs) ensures k in KeysOf(InsertAll(cs)) {
      PlanKeeps(cs, k);
    }
  }

  /** The key of the first command occurs at most three times, every other key at most once. */
  lemma {:induction false} PlanCopies(cs: seq<Command>, k: Key)
    requires cs != []
    ensures multiset(Keys(InsertAll(cs)))[k] <= if k == KeyOf(cs[0]) then 3 else 1
  {
    LineShape(cs);
    ShapeCopies(Keys(InsertAll(cs)), k);
  }

  ghost predicate NoRepeats(keys: seq<Key>) {
    forall i, j :: 0 <= i < j < |keys| ==> keys[i] != keys[j]
  }

  /** The key of the first command occurs again. */
  ghost predicate HeadAgain(keys: seq<Key>) {
    exists i :: 0 < i < |keys| && keys[i] == keys[0]
  }

  /** A repeated key of the first command is never repaired, and only that key can introduce it. */
  lemma InsertHeadAgain(line: seq<Command>, c: Command)
    requires line != [] && Shape(Keys(line))
    ensures HeadAgain(Keys(Insert(line, c))) <==> HeadAgain(Keys(line)) || KeyOf(c) == KeyOf(line[0])
  {
    var keys, k := Keys(line), KeyOf(c);
    var hit := HitsOf(line, k);
    var js := Survivors(hit);
    SurvivorsIncreasing(hit);
    InsertPicks(line, c);
    var after := Keys(Insert(line, c));
    assert after == Pick(keys, js) + [k] && after[0] == keys[0];
    if k == keys[0] {
      assert after[|js|] == after[0];
    } else {
      if q :| 0 < q < |after| && after[q] == after[0] {
        assert js[0] < js[q] && keys[js[q]] == keys[0];
      }
      if m :| 0 < m < |keys| && keys[m] == keys[0] {
        SurvivorsExact(keys, k, hit, m);
        var q :| 0 <= q < |js| && js[q] == m;
        assert q > 0 && after[q] == after[0];
      }
    }
  }

  lemma HeadAgainStep(keys: seq<Key>, k: Key)
    requires keys != []
    ensures HeadAgain(keys + [k]) <==> HeadAgain(keys) || k == keys[0]
  {
    var after := keys + [k];
    if i :| 0 < i < |keys| && keys[i] == keys[0] {
      assert after[i] == after[0];
    }
    if k == keys[0] {
      assert after[|keys|] == after[0];
    }
  }

  /** line is a plan of the commands in seen, as far as the key of the first one goes. */
  ghost predicate Follows(line: seq<Command>, seen: seq<Command>) {
    && line != [] && seen != [] && line[0] == seen[0] && Shape(Keys(line))
    && (HeadAgain(Keys(line)) <==> HeadAgain(Keys(seen)))
  }

  lemma FollowsStep(line: seq<Command>, seen: seq<Command>, c: Command)
    requires Follows(line, seen)
    ensures Follows(Insert(line, c), seen + [c])
  {
    InsertHeadAgain(line, c);
    InsertMembers(line, c, c);
    InsertShape(line, c);
    HeadAgainStep(Keys(seen), KeyOf(c));
    assert Keys(seen + [c]) == Keys(seen) + [KeyOf(c)];
  }

  lemma {:induction false} PlanFollows(cs: seq<Command>)
    requires cs != []
    ensures Follows(InsertAll(cs), cs)
  {
    var n := |cs| - 1;
    if n == 0 {
      assert InsertAll(cs[..n]) == [] && InsertAll(cs) == cs;
    } else {
      PlanFollows(cs[..n]);
      FollowsStep(InsertAll(cs[..n]), cs[..n], cs[n]);
      assert cs == cs[..n] + [cs[n]];
    }
  }

  lemma ShapeRepeats(keys: seq<Key>)
    requires Shape(keys) && keys != []
    ensures NoRepeats(keys) <==> !HeadAgain(keys)
  {
    if !HeadAgain(keys) {
      forall i, j | 0 <= i < j < |keys| ensures keys[i] != keys[j] {
        assert keys[j] != keys[0];
      }
    }
  }

  /** A plan has one command per (action, category) exactly when no later command was inserted with
      the key of the very first one. */
  lemma PlanRepeatsIff(cs: seq<Command>)
    requires cs != []
    ensures NoRepeats(Keys(InsertAll(cs))) <==> forall i :: 0 < i < |cs| ==> KeyOf(cs[i]) != KeyOf(cs[0])
  {
    PlanFollows(cs);
    ShapeRepeats(Keys(InsertAll(cs)));
    HeadAgainCommands(cs);
  }

  lemma HeadAgainCommands(cs: seq<Command>)
    requires cs != []
    ensures HeadAgain(Keys(cs)) <==> exists i :: 0 < i < |cs| && KeyOf(cs[i]) == KeyOf(cs[0])
  {
    if i :| 0 < i < |cs| && KeyOf(cs[i]) == KeyOf(cs[0]) {
      assert Keys(cs)[i] == Keys(cs)[0];
    }
  }

  lemma ShapeCopies(keys: seq<Key>, k: Key)
    requires keys != [] && Shape(keys)
    ensures multiset(keys)[k] <= if k == keys[0] then 3 else 1
  {
    if |keys| == 1 {
      assert keys == [keys[0]];
    } else {
      var rest := keys[2..];
      assert keys == [keys[0]] + [keys[1]] + rest;
      DistinctOnce(rest, k);
      if k in rest {
        var j :| 0 <= j < |rest| && rest[j] == k;
        assert keys[j + 2] == k;
      }
    }
  }

  lemma {:induction false} DistinctOnce(keys: seq<Key>, k: Key)
    requires forall i, j :: 0 <= i < j < |keys| ==> keys[i] != keys[j]
    ensures multiset(keys)[k] <= 1
  {
    if keys != [] {
      DistinctOnce(keys[1..], k);
      assert keys == [keys[0]] + keys[1..];
      if keys[0] == k {
        assert k !in keys[1..];
      }
    }
  }

  /** The bound of three is reached: the first, the untested second, and the last insertion. */
  lemma ThreeCopies(a: Command, b: Command, c: Command, d: Command)
    requires KeyOf(a) == KeyOf(b) == KeyOf(c) == KeyOf(d)
    ensures InsertAll([a, b, c, d]) == [a, b, d]
  {
    assert [a, b, c, d][..3] == [a, b, c] && [a, b, c][..2] == [a, b] && [a, b][..1] == [a];
    assert InsertAll([a]) == [a];
    assert InsertAll([a, b]) == Insert([a], b) == [a, b];
    assert a in Alike([a, b], KeyOf(c));
    assert InsertAll([a, b, c]) == Insert([a, b], c) == [a, b, c];
    assert a in Alike([a, b, c], KeyOf(d)) && c in Alike([a, b, c], KeyOf(d));
    assert Insert([a, b, c], d) == [a, b, d];
  }
}
