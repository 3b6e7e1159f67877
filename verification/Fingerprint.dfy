/** Canonical texts: ToString of api/v1beta1/middlewarecluster_types.go, what fingerprints hash. */
module Fingerprint {
  import opened Types

  const SEPARATOR := '='
  const NEWLINE := '\n'

  // ----- the order of strings -----

  predicate Le(a: string, b: string) {
    a == "" || (b != "" && (a[0] < b[0] || (a[0] == b[0] && Le(a[1..], b[1..]))))
  }

  lemma {:induction false} LeTotal(a: string, b: string)
    ensures Le(a, b) || Le(b, a)
    ensures Le(a, b) && Le(b, a) ==> a == b
  {
    if a != "" && b != "" && a[0] == b[0] {
      LeTotal(a[1..], b[1..]);
      assert a == [a[0]] + a[1..] && b == [b[0]] + b[1..];
    }
  }

  lemma {:induction false} LeTransitive(a: string, b: string, c: string)
    requires Le(a, b) && Le(b, c)
    ensures Le(a, c)
  {
    if a != "" && a[0] == b[0] && b[0] == c[0] {
      LeTransitive(a[1..], b[1..], c[1..]);
    }
  }

  ghost predicate Sorted(ks: seq<string>) {
    forall i, j :: 0 <= i < j < |ks| ==> Le(ks[i], ks[j]) && ks[i] != ks[j]
  }

  /** ks lists the set in ascending order. */
  ghost predicate Lists(ks: seq<string>, s: set<string>) {
    Sorted(ks) && forall k :: k in ks <==> k in s
  }

  /** A set has only one ascending listing. */
  lemma {:induction false} ListedOnce(ks: seq<string>, ls: seq<string>, s: set<string>)
    requires Lists(ks, s) && Lists(ls, s)
    ensures ks == ls
  {
    if ks == [] {
      if ls != [] {
        FirstListed(ls, s);
        assert false;
      }
    } else {
      assert ks[0] in s && ks[0] in ls && ls[0] in s && ls[0] in ks;
      LeTotal(ks[0], ls[0]);
      var i :| 0 <= i < |ls| && ls[i] == ks[0];
      var j :| 0 <= j < |ks| && ks[j] == ls[0];
      assert ks[0] == ls[0];
      RestLists(ks, s);
      RestLists(ls, s);
      ListedOnce(ks[1..], ls[1..], s - {ks[0]});
      assert ks == [ks[0]] + ks[1..] && ls == [ls[0]] + ls[1..];
    }
  }

  lemma FirstListed(ls: seq<string>, s: set<string>)
    requires Lists(ls, s) && ls != []
    ensures s != {}
  {
    assert ls[0] in s;
  }

  lemma RestLists(ks: seq<string>, s: set<string>)
    requires Lists(ks, s) && ks != []
    ensures Lists(ks[1..], s - {ks[0]})
  {
    assert ks == [ks[0]] + ks[1..];
    forall k | k in s - {ks[0]} ensures k in ks[1..] {
      assert k in ks;
    }
  }

  // ----- the text -----

  function Line(k: string, v: string): string {
    k + [SEPARATOR] + v + [NEWLINE]
  }

  function Text(ks: seq<string>, m: map<string, string>): string
    requires forall k :: k in ks ==> k in m
  {
    if ks == [] then "" else Line(ks[0], m[ks[0]]) + Text(ks[1..], m)
  }

  /** Inserts a key into an ascending list. */
  method Place(ks: seq<string>, k: string, ghost s: set<string>) returns (longer: seq<string>)
    requires Lists(ks, s) && k !in s
    ensures Lists(longer, s + {k})
  {
    var i := |ks|;
    while i > 0 && !Le(ks[i - 1], k)
      invariant 0 <= i <= |ks|
      invariant i < |ks| ==> Le(k, ks[i])
    {
      LeTotal(ks[i - 1], k);
      i := i - 1;
    }
    longer := ks[..i] + [k] + ks[i..];
    assert ks == ks[..i] + ks[i..];
    PlacedSorted(ks, i, k);
  }

  lemma PlacedSorted(ks: seq<string>, i: nat, k: string)
    requires Sorted(ks) && k !in ks && i <= |ks| && (i > 0 ==> Le(ks[i - 1], k)) && (i < |ks| ==> Le(k, ks[i]))
    ensures Sorted(ks[..i] + [k] + ks[i..])
  {
    forall a | 0 <= a < i ensures Le(ks[a], k) {
      if a < i - 1 {
        LeTransitive(ks[a], ks[i - 1], k);
      }
    }
    forall b | i <= b < |ks| ensures Le(k, ks[b]) {
      if i < b {
        LeTransitive(k, ks[i], ks[b]);
      }
    }
  }

  /** Takes the keys in whatever order they come and sorts them. */
  method SortedKeys<V>(m: map<string, V>) returns (keys: seq<string>)
    ensures Lists(keys, m.Keys)
  {
    keys := [];
    var left := m.Keys;
    while left != {}
      invariant left <= m.Keys && Lists(keys, m.Keys - left)
      decreases left
    {
      var k :| k in left;
      assert m.Keys - (left - {k}) == (m.Keys - left) + {k};
      keys := Place(keys, k, m.Keys - left);
      left := left - {k};
    }
  }

  /** The text of a map, whatever the order in which its keys come. */
  method ToString(m: map<string, string>) returns (text: string)
    ensures exists ks :: Lists(ks, m.Keys) && text == Text(ks, m)
  {
    var keys := SortedKeys(m);
    text := Builder(keys, m);
  }

  method Builder(keys: seq<string>, m: map<string, string>) returns (text: string)
    requires forall k :: k in keys ==> k in m
    ensures text == Text(keys, m)
  {
    text := "";
    ghost var whole := Text(keys, m);
    for i := 0 to |keys|
      invariant whole == text + Text(keys[i..], m)
    {
      TextFrom(keys, m, i);
      ghost var line, rest := Line(keys[i], m[keys[i]]), Text(keys[i + 1..], m);
      assert text + (line + rest) == (text + line) + rest;
      text := text + Line(keys[i], m[keys[i]]);
    }
  }

  lemma TextFrom(keys: seq<string>, m: map<string, string>, i: nat)
    requires i < |keys| && forall k :: k in keys ==> k in m
    ensures Text(keys[i..], m) == Line(keys[i], m[keys[i]]) + Text(keys[i + 1..], m)
  {
    assert keys[i..][1..] == keys[i + 1..] && keys[i..][0] == keys[i];
  }

  /** Two calls on the same map give the same text. */
  lemma TextIsCanonical(ks: seq<string>, ls: seq<string>, m: map<string, string>)
    requires Lists(ks, m.Keys) && Lists(ls, m.Keys)
    ensures Text(ks, m) == Text(ls, m)
  {
    ListedOnce(ks, ls, m.Keys);
  }

  // ----- reading a text back -----

  function IndexOf(s: string, c: char): (i: nat)
    ensures i <= |s| && (i < |s| ==> s[i] == c) && c !in s[..i]
  {
    if s == "" || s[0] == c then 0
    else
      var i := IndexOf(s[1..], c);
      assert s[..i + 1] == [s[0]] + s[1..][..i];
      i + 1
  }

  /** The key and the value of the first line, and the text behind it; None without a whole line. */
  function FirstLine(text: string): (r: Option<(string, string, string)>)
    ensures r.Some? ==> SEPARATOR !in r.value.0 && NEWLINE !in r.value.1 && |r.value.2| < |text|
  {
    var i := IndexOf(text, SEPARATOR);
    if i == |text| then None
    else
      var rest := text[i + 1..];
      var j := IndexOf(rest, NEWLINE);
      if j == |rest| then None else Some((text[..i], rest[..j], rest[j + 1..]))
  }

  function Parse(text: string): map<string, string>
    decreases |text|
  {
    match FirstLine(text)
    case None => map[]
    case Some(line) => Parse(line.2)[line.0 := line.1]
  }

  /** Keys without the separator, values without a newline. */
  ghost predicate Clean(m: map<string, string>) {
    forall k :: k in m ==> SEPARATOR !in k && NEWLINE !in m[k]
  }

  lemma {:induction false} IndexAfter(s: string, c: char, t: string)
    requires c !in s
    ensures IndexOf(s + [c] + t, c) == |s|
  {
    if s != "" {
      assert (s + [c] + t)[1..] == s[1..] + [c] + t && s[0] in s;
      forall x | x in s[1..] ensures x in s {}
      IndexAfter(s[1..], c, t);
    }
  }

  lemma FirstLineOf(k: string, v: string, more: string)
    requires SEPARATOR !in k && NEWLINE !in v
    ensures FirstLine(Line(k, v) + more) == Some((k, v, more))
  {
    var text, rest := Line(k, v) + more, v + [NEWLINE] + more;
    assert text == k + [SEPARATOR] + rest;
    IndexAfter(k, SEPARATOR, rest);
    assert text[|k| + 1..] == rest && text[..|k|] == k;
    IndexAfter(v, NEWLINE, more);
    assert rest[|v| + 1..] == more && rest[..|v|] == v;
  }

  lemma {:induction false} ParseText(ks: seq<string>, m: map<string, string>)
    requires Clean(m) && forall k :: k in ks ==> k in m
    ensures Parse(Text(ks, m)) == Restricted(ks, m)
  {
    if ks != [] {
      RestrictedStep(ks, m);
      ParseText(ks[1..], m);
      FirstLineOf(ks[0], m[ks[0]], Text(ks[1..], m));
    }
  }

  ghost function Restricted(ks: seq<string>, m: map<string, string>): map<string, string>
    requires forall k :: k in ks ==> k in m
  {
    map k | k in ks :: m[k]
  }

  lemma RestrictedStep(ks: seq<string>, m: map<string, string>)
    requires ks != [] && forall k :: k in ks ==> k in m
    ensures forall k :: k in ks[1..] ==> k in m
    ensures Restricted(ks, m) == Restricted(ks[1..], m)[ks[0] := m[ks[0]]]
  {
    assert ks == [ks[0]] + ks[1..];
  }

  /** The text of a map can be read back exactly when the map is clean. */
  lemma RoundTripIff(m: map<string, string>, ks: seq<string>)
    requires Lists(ks, m.Keys)
    ensures Parse(Text(ks, m)) == m <==> Clean(m)
  {
    ParsedIsClean(Text(ks, m));
    if Clean(m) {
      ParseText(ks, m);
    }
  }

  lemma {:induction false} ParsedIsClean(text: string)
    ensures Clean(Parse(text))
    decreases |text|
  {
    var line := FirstLine(text);
    if line.Some? {
      ParsedIsClean(line.value.2);
      CleanStep(Parse(line.value.2), line.value.0, line.value.1);
    }
  }

  lemma CleanStep(m: map<string, string>, k: string, v: string)
    requires Clean(m) && SEPARATOR !in k && NEWLINE !in v
    ensures Clean(m[k := v])
  {
  }

  /** So equal texts, and equal hash pre-images, mean equal maps. */
  lemma Injective(m: map<string, string>, n: map<string, string>, ks: seq<string>, ls: seq<string>)
    requires Clean(m) && Clean(n) && Lists(ks, m.Keys) && Lists(ls, n.Keys)
    ensures Text(ks, m) == Text(ls, n) <==> m == n
  {
    RoundTripIff(m, ks);
    RoundTripIff(n, ls);
    if m == n {
      TextIsCanonical(ks, ls, m);
    }
  }

  /** A separator in a key makes two maps collide. */
  lemma KeyCollision()
    ensures var m, n := map["a=b" := "c"], map["a" := "b=c"];
      m != n && Lists(["a=b"], m.Keys) && Lists(["a"], n.Keys) && Text(["a=b"], m) == Text(["a"], n)
  {
    var m, n := map["a=b" := "c"], map["a" := "b=c"];
    assert "a=b" in m && "a=b" !in n;
    assert Text(["a=b"], m) == "a=b=c\n" && Text(["a"], n) == "a=b=c\n";
  }

  /** A newline in a value, as a nested fingerprint has it, makes two maps collide. */
  lemma ValueCollision()
    ensures var m, n := map["a" := "1\nb=2"], map["a" := "1", "b" := "2"];
      m != n && Lists(["a"], m.Keys) && Lists(["a", "b"], n.Keys) && Text(["a"], m) == Text(["a", "b"], n)
  {
    var m, n := map["a" := "1\nb=2"], map["a" := "1", "b" := "2"];
    assert "b" in n && "b" !in m;
    assert ["a", "b"][1..] == ["b"];
    assert Text(["b"], n) == "b=2\n" && Text(["a"], m) == "a=1\nb=2\n";
    assert Text(["a", "b"], n) == Line("a", "1") + Text(["b"], n);
  }
}
