/** Claim scale-down: the Recycle callback of kernel/handler/category_pvc_handler.go. */
module Claims {
  import opened Types
  import opened Fingerprint
  import opened Ordinals

  /** The StatefulSet the claims belong to, as the callback finds it. */
  datatype SetLookup = Missing | Failing | Present(replicas: Option<nat>)

  function PodNum(s: SetLookup): nat {
    if s.Present? && s.replicas.Some? then s.replicas.value else 0
  }

  /** kept is what a scale-down to count claims may leave of all: the names in kept precede the
      deleted ones. */
  ghost predicate ScaledDown(all: set<Name>, count: nat, kept: set<Name>) {
    kept <= all && |kept| == Min(|all|, count) && forall k, d :: k in kept && d in all - kept ==> Le(k, d)
  }

  /** Names in descending order. */
  ghost predicate Descending(names: seq<Name>) {
    forall i, j :: 0 <= i < j < |names| ==> Le(names[j], names[i]) && names[i] != names[j]
  }

  ghost predicate Enumerates(names: seq<Name>, s: set<Name>) {
    (forall i, j :: 0 <= i < j < |names| ==> names[i] != names[j]) && forall n :: n in names <==> n in s
  }

  lemma {:induction false} EnumeratesSize(names: seq<Name>, s: set<Name>)
    requires Enumerates(names, s)
    ensures |names| == |s|
  {
    if names == [] {
      assert s == {};
    } else {
      assert names[0] in s;
      assert names == [names[0]] + names[1..];
      EnumeratesSize(names[1..], s - {names[0]});
    }
  }

  class ClaimClient {
    var stored: set<Name>

    method Delete(n: Name) returns (failed: bool)
      modifies this
      ensures stored == if failed then old(stored) else old(stored) - {n}
    {
      failed := *;
      if !failed {
        stored := stored - {n};
      }
    }

    /** Lists the claims, sorts them by name in descending order and deletes from the front until as
        many are left as the StatefulSet has replicas.  A listing that fails reads as an empty one. */
    method Recycle(listed: bool, sts: SetLookup) returns (error: bool)
      modifies this
      ensures stored <= old(stored)
      ensures listed && !error && sts.Present? && sts.replicas.Some? ==>
        ScaledDown(old(stored), sts.replicas.value, stored)
      ensures listed && !error && (sts.Missing? || (sts.Present? && sts.replicas.None?)) ==> stored == {}
      ensures !listed ==> !error && stored == old(stored)
      ensures listed && sts.Failing? && old(stored) != {} ==> error && stored == old(stored)
    {
      if !listed || stored == {} {
        return false;
      }
      if sts.Failing? {
        return true;
      }
      var all := stored;
      var podNum := PodNum(sts);
      var pvcs := SortedDown(all);
      EnumeratesSize(pvcs, all);
      var index := if |pvcs| > podNum then |pvcs| - podNum else 0;
      error := DeleteFront(pvcs, index);
      if !error {
        FrontRemoved(pvcs, all, index, podNum);
      }
    }

    method DeleteFront(pvcs: seq<Name>, index: nat) returns (error: bool)
      requires index <= |pvcs|
      modifies this
      ensures stored <= old(stored) && (!error ==> stored == old(stored) - Front(pvcs, index))
    {
      for i := 0 to index
        invariant stored == old(stored) - Front(pvcs, i)
      {
        error := Delete(pvcs[i]);
        if error {
          return;
        }
        FrontStep(pvcs, i);
      }
      error := false;
    }
  }

  lemma FrontStep(names: seq<Name>, i: nat)
    requires i < |names|
    ensures Front(names, i + 1) == Front(names, i) + {names[i]}
  {
    assert names[..i + 1] == names[..i] + [names[i]];
  }

  function Front(names: seq<Name>, i: nat): set<Name>
    requires i <= |names|
  {
    set n | n in names[..i]
  }

  lemma Rest(names: seq<Name>, all: set<Name>, i: nat)
    requires Enumerates(names, all) && i <= |names|
    ensures Enumerates(names[i..], all - Front(names, i))
  {
    forall n ensures n in names[i..] <==> n in all - Front(names, i) {
      if n in names[i..] {
        var a :| i <= a < |names| && names[a] == n;
        assert n in names;
        assert forall b :: 0 <= b < i ==> names[..i][b] == names[b] && names[b] != n;
      }
    }
  }

  lemma FrontRemoved(names: seq<Name>, all: set<Name>, i: nat, count: nat)
    requires Enumerates(names, all) && Descending(names) && i <= |names| == |all|
    requires i == if |names| > count then |names| - count else 0
    ensures ScaledDown(all, count, all - Front(names, i))
  {
    var kept := all - Front(names, i);
    Rest(names, all, i);
    EnumeratesSize(names[i..], kept);
    forall k, d | k in kept && d in all - kept ensures Le(k, d) {
      var a :| 0 <= a < |names[i..]| && names[i..][a] == k;
      var b :| 0 <= b < |names[..i]| && names[..i][b] == d;
      assert names[i + a] == k && names[b] == d;
    }
  }

  method SortedDown(s: set<Name>) returns (names: seq<Name>)
    ensures Enumerates(names, s) && Descending(names)
  {
    names := [];
    var left := s;
    while left != {}
      invariant left <= s && Enumerates(names, s - left) && Descending(names)
      decreases left
    {
      var n :| n in left;
      names := PlaceDown(names, n, s - left);
      assert s - (left - {n}) == (s - left) + {n};
      left := left - {n};
    }
  }

  method PlaceDown(names: seq<Name>, n: Name, ghost s: set<Name>) returns (longer: seq<Name>)
    requires Enumerates(names, s) && Descending(names) && n !in s
    ensures Enumerates(longer, s + {n}) && Descending(longer)
  {
    var i := 0;
    while i < |names| && Le(n, names[i])
      invariant 0 <= i <= |names|
      invariant i > 0 ==> Le(n, names[i - 1])
    {
      i := i + 1;
    }
    longer := names[..i] + [n] + names[i..];
    assert names == names[..i] + names[i..];
    if i < |names| {
      LeTotal(n, names[i]);
    }
    PlacedDown(names, i, n);
  }

  lemma PlacedDown(names: seq<Name>, i: nat, n: Name)
    requires Descending(names) && n !in names && i <= |names|
    requires (i > 0 ==> Le(n, names[i - 1])) && (i < |names| ==> Le(names[i], n))
    ensures Descending(names[..i] + [n] + names[i..])
  {
    forall a | 0 <= a < i ensures Le(n, names[a]) {
      if a < i - 1 {
        LeTransitive(n, names[i - 1], names[a]);
      }
    }
    forall b | i <= b < |names| ensures Le(names[b], n) {
      if i < b {
        LeTransitive(names[b], names[i], n);
      }
    }
  }

  // ----- are these the claims of the pods that go? -----

  function ClaimName(prefix: string, i: nat): Name {
    prefix + Decimal(i)
  }

  function ClaimNames(prefix: string, low: nat, high: nat): set<Name> {
    set i | low <= i < high :: ClaimName(prefix, i)
  }

  /** Every scale-down of the claims of pods 0 .. m-1 leaves those of the lowest ordinals. */
  ghost predicate KeepsLowest(prefix: string, m: nat) {
    forall count, kept :: 0 <= count <= m && ScaledDown(ClaimNames(prefix, 0, m), count, kept) ==>
      kept == ClaimNames(prefix, 0, count)
  }

  lemma {:induction false} LePrefix(prefix: string, a: string, b: string)
    ensures Le(prefix + a, prefix + b) <==> Le(a, b)
  {
    if prefix == "" {
      assert prefix + a == a && prefix + b == b;
    } else {
      assert (prefix + a)[1..] == prefix[1..] + a && (prefix + b)[1..] == prefix[1..] + b;
      LePrefix(prefix[1..], a, b);
    }
  }

  /** Up to ten claims the names are ordered like the ordinals. */
  lemma SmallOrdinals(prefix: string, i: nat, j: nat)
    requires i < 10 && j < 10
    ensures Le(ClaimName(prefix, i), ClaimName(prefix, j)) <==> i <= j
    ensures ClaimName(prefix, i) == ClaimName(prefix, j) ==> i == j
  {
    LePrefix(prefix, Decimal(i), Decimal(j));
    assert ClaimName(prefix, i)[|prefix|] == Digit(i) && ClaimName(prefix, j)[|prefix|] == Digit(j);
  }

  /** Whatever the ordinals, as long as they have equally many digits: every claim that is kept has a
      lower ordinal than every claim that is deleted. */
  lemma SameWidthKeepsLowest(prefix: string, ords: set<nat>, count: nat, kept: set<Name>, i: nat, j: nat)
    requires forall a, b :: a in ords && b in ords ==> |Decimal(a)| == |Decimal(b)|
    requires ScaledDown(set a | a in ords :: ClaimName(prefix, a), count, kept)
    requires i in ords && j in ords && ClaimName(prefix, i) in kept && ClaimName(prefix, j) !in kept
    ensures i < j
  {
    LePrefix(prefix, Decimal(i), Decimal(j));
    SameWidth(i, j);
  }

  lemma {:induction false} SmallSize(prefix: string, m: nat)
    requires m <= 10
    ensures |ClaimNames(prefix, 0, m)| == m
  {
    if m > 0 {
      SmallSize(prefix, m - 1);
      assert ClaimNames(prefix, 0, m) == ClaimNames(prefix, 0, m - 1) + {ClaimName(prefix, m - 1)};
      forall i | 0 <= i < m - 1 ensures ClaimName(prefix, i) != ClaimName(prefix, m - 1) {
        SmallOrdinals(prefix, i, m - 1);
      }
    }
  }

  lemma SmallKeeps(prefix: string, m: nat, count: nat, kept: set<Name>)
    requires count <= m <= 10 && ScaledDown(ClaimNames(prefix, 0, m), count, kept)
    ensures kept == ClaimNames(prefix, 0, count)
  {
    var all, low := ClaimNames(prefix, 0, m), ClaimNames(prefix, 0, count);
    SmallSize(prefix, m);
    SmallSize(prefix, count);
    forall n | n in low ensures n in kept {
      var i :| 0 <= i < count && n == ClaimName(prefix, i);
      if n !in kept {
        forall k | k in kept ensures k in ClaimNames(prefix, 0, i) {
          var j :| 0 <= j < m && k == ClaimName(prefix, j);
          SmallOrdinals(prefix, j, i);
        }
        SmallSize(prefix, i);
        SubsetSize(kept, ClaimNames(prefix, 0, i));
        assert false;
      }
    }
    EqualSize(low, kept);
  }

  lemma SubsetSize(a: set<Name>, b: set<Name>)
    requires a <= b
    ensures |a| <= |b|
  {
    assert |b - a| == |b| - |a|;
  }

  lemma EqualSize(a: set<Name>, b: set<Name>)
    requires a <= b && |a| == |b|
    ensures a == b
  {
    assert |b - a| == |b| - |a|;
    assert b - a == {};
  }

  /** The lowest claims are the ones kept, for every target count, exactly up to ten claims: with
      eleven, going down to ten deletes claim 9 and keeps claim 10. */
  lemma KeepsLowestIff(prefix: string, m: nat)
    ensures KeepsLowest(prefix, m) <==> m <= 10
  {
    if m <= 10 {
      forall count, kept | 0 <= count <= m && ScaledDown(ClaimNames(prefix, 0, m), count, kept)
        ensures kept == ClaimNames(prefix, 0, count)
      {
        SmallKeeps(prefix, m, count, kept);
      }
    } else {
      var all := ClaimNames(prefix, 0, m);
      var kept := SomeScaleDown(all, 10);
      if kept == ClaimNames(prefix, 0, 10) {
        TenBeforeNine(prefix, all, kept);
        assert false;
      }
    }
  }

  /** So up to ten claims a scale-down to n replicas keeps exactly the claims of the pods that stay. */
  method RecyclePods(client: ClaimClient, prefix: string, m: nat, n: nat) returns (error: bool)
    requires n <= m <= 10 && client.stored == ClaimNames(prefix, 0, m)
    modifies client
    ensures !error ==> client.stored == ClaimNames(prefix, 0, n)
  {
    error := client.Recycle(true, Present(Some(n)));
    if !error {
      SmallKeeps(prefix, m, n, client.stored);
    }
  }

  lemma TenBeforeNine(prefix: string, all: set<Name>, kept: set<Name>)
    requires ClaimName(prefix, 10) in all && kept == ClaimNames(prefix, 0, 10)
    ensures !ScaledDown(all, 10, kept)
  {
    var nine, ten := ClaimName(prefix, 9), ClaimName(prefix, 10);
    assert nine in kept;
    assert Decimal(10) == "10" && Decimal(9) == "9";
    LePrefix(prefix, "9", "10");
    forall k | k in kept ensures k != ten {
      var i :| 0 <= i < 10 && k == ClaimName(prefix, i);
      assert |k| == |prefix| + 1;
    }
  }

  lemma {:induction false} SomeScaleDown(all: set<Name>, count: nat) returns (kept: set<Name>)
    ensures ScaledDown(all, count, kept)
  {
    if |all| <= count {
      kept := all;
    } else {
      var top := Greatest(all);
      kept := SomeScaleDown(all - {top}, count);
    }
  }

  lemma {:induction false} Greatest(all: set<Name>) returns (top: Name)
    requires all != {}
    ensures top in all && forall n :: n in all ==> Le(n, top)
  {
    var n :| n in all;
    LeTotal(n, n);
    if all == {n} {
      top := n;
    } else {
      var rest := Greatest(all - {n});
      LeTotal(n, rest);
      top := if Le(n, rest) then rest else n;
      forall x | x in all ensures Le(x, top) {
        if x != n && top == n {
          LeTransitive(x, rest, n);
        }
      }
    }
  }
}
