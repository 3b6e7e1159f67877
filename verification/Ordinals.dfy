/** Pod ordinals: the names OrderedPod gives to pods, and the pods a restart ends up with. */
module Ordinals {
  import opened Types
  import opened Fingerprint

  /** The decimal text of an ordinal. */
  function Decimal(n: nat): (r: string)
    ensures r != "" && (n < 10 <==> |r| == 1)
  {
    if n < 10 then [Digit(n)] else Decimal(n / 10) + [Digit(n % 10)]
  }

  function Digit(d: nat): char
    requires d < 10
  {
    "0123456789"[d]
  }

  lemma DecimalInjective(i: nat, j: nat)
    requires Decimal(i) == Decimal(j)
    ensures i == j
  {
    SameWidth(i, j);
  }

  lemma {:induction false} LastDigits(a: string, x: char, b: string, y: char)
    requires |a| == |b|
    ensures Le(a + [x], b + [y]) <==> if a == b then x <= y else Le(a, b)
    ensures a + [x] == b + [y] ==> a == b && x == y
    decreases |a|
  {
    assert (a + [x])[..|a|] == a && (b + [y])[..|b|] == b && (a + [x])[|a|] == x && (b + [y])[|b|] == y;
    if a != "" {
      assert (a + [x])[1..] == a[1..] + [x] && (b + [y])[1..] == b[1..] + [y];
      assert a == [a[0]] + a[1..] && b == [b[0]] + b[1..];
      LastDigits(a[1..], x, b[1..], y);
    }
  }

  lemma DigitOrder(x: nat, y: nat)
    requires x < 10 && y < 10
    ensures Digit(x) <= Digit(y) <==> x <= y
    ensures Digit(x) == Digit(y) ==> x == y
  {
  }

  /** Numbers with equally many digits are ordered like their texts. */
  lemma {:induction false} SameWidth(i: nat, j: nat)
    requires |Decimal(i)| == |Decimal(j)|
    ensures Le(Decimal(i), Decimal(j)) <==> i <= j
    ensures Decimal(i) == Decimal(j) ==> i == j
    decreases i + j
  {
    if i >= 10 && j >= 10 {
      SameWidth(i / 10, j / 10);
      LastDigits(Decimal(i / 10), Digit(i % 10), Decimal(j / 10), Digit(j % 10));
      DigitOrder(i % 10, j % 10);
    }
  }

  // ----- pod names -----

  function PodName(template: string, i: nat): Name {
    template + "-" + Decimal(i)
  }

  function PodNames(template: string, count: int): (r: seq<Name>)
    ensures |r| == if count > 0 then count else 0
    ensures forall i :: 0 <= i < |r| ==> r[i] == PodName(template, i)
  {
    seq(if count > 0 then count else 0, i requires 0 <= i => PodName(template, i))
  }

  method OrderedPod(template: string, count: int) returns (pods: seq<Name>)
    ensures pods == PodNames(template, count) && |pods| == (if count > 0 then count else 0)
    ensures forall i :: 0 <= i < |pods| ==> pods[i] == template + "-" + Decimal(i)
  {
    pods := [];
    var i := 0;
    while i < count
      invariant |pods| == i && 0 <= i && (count > 0 ==> i <= count) && (count <= 0 ==> i == 0)
      invariant forall j :: 0 <= j < i ==> pods[j] == PodName(template, j)
    {
      pods := pods + [PodName(template, i)];
      i := i + 1;
    }
  }

  /** No pod is named twice, whatever the template and however many digits the ordinals have. */
  lemma PodNamesDistinct(template: string, count: int)
    ensures Distinct(PodNames(template, count))
  {
    var names := PodNames(template, count);
    forall i, j | 0 <= i < j < |names| ensures names[i] != names[j] {
      assert names[i][|template| + 1..] == Decimal(i) && names[j][|template| + 1..] == Decimal(j);
      if names[i] == names[j] {
        DecimalInjective(i, j);
      }
    }
  }

  /** The pods a restart acts on: those its command lists, otherwise as many as the component of its
      category wants; component is None when the category is not one of a cluster component. */
  method RestartPods(pods: Pods, component: Option<int>) returns (names: seq<Name>)
    requires pods.Pods?
    ensures names == PodNames(pods.template,
      if pods.count > 0 then pods.count else if component.Some? then component.value else 0)
    ensures forall i :: 0 <= i < |names| ==> names[i] == pods.template + "-" + Decimal(i)
    ensures pods.count <= 0 && component.None? ==> names == []
  {
    names := OrderedPod(pods.template, pods.count);
    if |names| > 0 {
      return;
    }
    var podNum := 0;
    if component.Some? {
      podNum := component.value;
    }
    names := OrderedPod(pods.template, podNum);
  }
}
