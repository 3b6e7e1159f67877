/** The singly linked lists of api/core/framework_api.go: resource lines and action commands. */
module Lines {
  import opened Types

  class Node<T> {
    var data: T
    var next: Node?<T>

    constructor (data: T)
      ensures this.data == data && this.next == null
    {
      this.data := data;
      this.next := null;
    }

    /** Hangs a whole chain behind the last node of this one; no other node changes. */
    method Append(command: Node?<T>, ghost line: seq<Node<T>>, ghost tail: seq<Node<T>>, ghost repr: set<Node<T>>)
      requires Chain(line) && line != [] && line[0] == this
      requires Heads(command, tail) && Chain(tail)
      requires Among(line, repr) && Apart(tail, repr)
      modifies (line[|line| - 1] as Node<T>)`next
      ensures Chain(line + tail)
    {
      if command == null {
        assert line + tail == line;
        return;
      }
      ChainDistinct(line);
      var cmd: Node<T> := this;
      ghost var i := 0;
      while cmd.next != null
        invariant 0 <= i < |line| && cmd == line[i]
        invariant Chain(line)
        decreases |line| - i
      {
        cmd := cmd.next;
        i := i + 1;
      }
      cmd.next := command;
      JoinChains(line, tail);
    }
  }

  /** head is the first node of line, or null when line is empty. */
  ghost predicate Heads<T>(head: Node?<T>, line: seq<Node<T>>) {
    if line == [] then head == null else head == line[0]
  }

  ghost predicate Apart<T>(s: seq<T>, t: set<T>) {
    forall i :: 0 <= i < |s| ==> s[i] !in t
  }

  ghost predicate Among<T>(s: seq<T>, t: set<T>) {
    forall i :: 0 <= i < |s| ==> s[i] in t
  }

  /** line is exactly the list reached from its first node. */
  ghost predicate Chain<T>(line: seq<Node<T>>)
    reads line
  {
    forall i {:trigger line[i].next} :: 0 <= i < |line| ==> line[i].next == After(line, i)
  }

  /** A chain that ends in null has no cycle: no node occurs in it twice. */
  lemma {:induction false} Acyclic<T>(line: seq<Node<T>>, i: nat, j: nat)
    requires Chain(line) && i < j < |line|
    ensures line[i] != line[j]
    decreases |line| - j
  {
    assert line[i].next == line[i + 1] && line[j].next == After(line, j);
    if j + 1 < |line| {
      Acyclic(line, i + 1, j + 1);
    }
  }

  lemma ChainDistinct<T>(line: seq<Node<T>>)
    requires Chain(line)
    ensures Distinct(line)
  {
    forall i, j | 0 <= i < j < |line| ensures line[i] != line[j] {
      Acyclic(line, i, j);
    }
  }

  /** The node behind position i, null behind the last one. */
  ghost function After<T>(line: seq<Node<T>>, i: nat): Node?<T> {
    if i + 1 < |line| then line[i + 1] else null
  }

  /** Two chains joined by one link are a chain. */
  lemma JoinChains<T>(line: seq<Node<T>>, tail: seq<Node<T>>)
    requires line != [] && Chain(tail) && Heads(line[|line| - 1].next, tail)
    requires forall i {:trigger line[i].next} :: 0 <= i < |line| - 1 ==> line[i].next == line[i + 1]
    ensures Chain(line + tail)
  {
  }

  ghost function Data<T>(line: seq<Node<T>>): (r: seq<T>)
    reads line
    ensures |r| == |line| && forall i :: 0 <= i < |line| ==> r[i] == line[i].data
  {
    seq(|line|, i requires 0 <= i < |line| reads line => line[i].data)
  }

  // ----- which elements survive MoveIfAbsent -----

  /** What stays of s when bad says which elements carry the key of the new command: a bad element
      is unlinked, and the element right after it is not tested. */
  function Scan<T(==)>(s: seq<T>, bad: set<T>): seq<T> {
    if s == [] then []
    else if s[0] !in bad then [s[0]] + Scan(s[1..], bad)
    else if |s| == 1 then []
    else [s[1]] + Scan(s[2..], bad)
  }

  /** The first element is never unlinked; when it is bad the second one is not tested. */
  function Evict<T(==)>(s: seq<T>, bad: set<T>): seq<T>
    requires s != []
  {
    if s[0] in bad && |s| > 1 then [s[0], s[1]] + Scan(s[2..], bad) else [s[0]] + Scan(s[1..], bad)
  }

  /** What stays once the elements before p have been decided. */
  ghost function Resume<T>(s: seq<T>, p: nat, bad: set<T>): seq<T>
    requires p <= |s| && s != []
  {
    if p == 0 then Evict(s, bad) else s[..p] + Scan(s[p..], bad)
  }

  lemma ResumeGood<T>(s: seq<T>, p: nat, bad: set<T>)
    requires p < |s| && s[p] !in bad
    ensures Resume(s, p, bad) == Resume(s, p + 1, bad)
  {
    assert s[p..][1..] == s[p + 1..] && s[..p] + [s[p]] == s[..p + 1];
  }

  lemma ResumeLast<T>(s: seq<T>, bad: set<T>)
    requires s != [] && s[|s| - 1] in bad
    ensures Resume(s, |s| - 1, bad) == if |s| == 1 then s else s[..|s| - 1]
  {
    assert s[|s| - 1..] == [s[|s| - 1]];
  }

  lemma ResumeBad<T>(s: seq<T>, p: nat, bad: set<T>)
    requires p + 1 < |s| && s[p] in bad
    ensures Resume(s, p, bad) == if p == 0 then Resume(s, 2, bad) else Resume(s[..p] + s[p + 1..], p + 1, bad)
  {
    var t := s[..p] + s[p + 1..];
    assert s[p..][2..] == s[p + 2..] == t[p + 1..];
    assert t[..p + 1] == s[..p] + [s[p + 1]];
    assert s[..2] == [s[0], s[1]];
  }

  // ----- the in-place operation -----

  /** Makes the last node of a prefix of a chain point to tail; what followed it is cut off. */
  method Hang<T>(node: Node<T>, command: Node<T>, ghost all: seq<Node<T>>, ghost kept: seq<Node<T>>,
                 ghost tail: seq<Node<T>>, ghost repr: set<Node<T>>)
    requires Among(all, repr) && Apart(tail, repr)
    requires Chain(all) && kept != [] && kept <= all && kept[|kept| - 1] == node
    requires Chain(tail) && Heads(command, tail)
    modifies node`next
    ensures Chain(kept + tail) && Among(kept, repr)
  {
    ChainDistinct(all);
    node.next := command;
    JoinChains(kept, tail);
  }

  /** A bad last node is replaced by tail, unless it is also the first one. */
  method HangInPlace<T>(head: Node<T>, command: Node<T>, ghost all: seq<Node<T>>, ghost tail: seq<Node<T>>,
                        ghost bad: set<Node<T>>, ghost repr: set<Node<T>>)
    returns (ghost kept: seq<Node<T>>)
    requires Chain(all) && all != [] && all[|all| - 1] in bad
    requires head == if |all| == 1 then all[0] else all[|all| - 2]
    requires Chain(tail) && Heads(command, tail) && Among(all, repr) && Apart(tail, repr)
    modifies head`next
    ensures kept == Resume(all, |all| - 1, bad) && Among(kept, repr) && Chain(kept + tail)
  {
    ResumeLast(all, bad);
    kept := if |all| == 1 then all else all[..|all| - 1];
    Hang(head, command, all, kept, tail, repr);
  }

  /** Links head past the bad node p and moves on to the next one, which is not tested.  At the
      first node head is that node itself, and nothing is unlinked. */
  method Skip<T>(head: Node<T>, cmd: Node<T>, ghost all: seq<Node<T>>, ghost p: nat, ghost bad: set<Node<T>>,
                 ghost repr: set<Node<T>>)
    returns (succ: Node<T>, ghost left: seq<Node<T>>, ghost q: nat)
    requires Chain(all) && Among(all, repr) && p + 1 < |all| && all[p] == cmd && cmd in bad
    requires head == if p == 0 then cmd else all[p - 1]
    modifies head`next
    ensures Chain(left) && Among(left, repr) && q < |left| <= |all| - p - 1 + q && left[q] == succ
    ensures Resume(all, p, bad) == Resume(left, q + 1, bad)
  {
    ResumeBad(all, p, bad);
    ChainDistinct(all);
    succ := cmd.next;
    head.next := succ;
    left, q := if p == 0 then all else all[..p] + all[p + 1..], if p == 0 then 1 else p;
  }

  /** Removes earlier commands with the key of the new one (bad are the nodes that carry it) and
      hangs the new one, with whatever follows it, at the end. */
  method MoveIfAbsent(self: Node<Command>, command: Node?<Command>, ghost line: seq<Node<Command>>,
                      ghost tail: seq<Node<Command>>, ghost bad: set<Node<Command>>, ghost repr: set<Node<Command>>)
    returns (ghost kept: seq<Node<Command>>)
    requires Chain(line) && line != [] && line[0] == self && Among(line, repr)
    requires Heads(command, tail) && Chain(tail) && Apart(tail, repr)
    requires command != null ==> forall n :: n in repr ==> (n in bad <==> KeyOf(n.data) == KeyOf(command.data))
    modifies repr`next
    ensures kept == if command == null then line else Evict(line, bad)
    ensures Chain(kept + tail) && Among(kept, repr)
  {
    if command == null {
      assert line + tail == line;
      kept := line;
    } else {
      kept := Reinsert(self, command, line, tail, bad, repr);
    }
  }

  /** One round of the loop up to the test for the end: unlinks cmd when it has the key of the new
      command.  At the last node the new one takes its place, and the loop is done. */
  method Unlink(head: Node<Command>, cmd: Node<Command>, command: Node<Command>, ghost all: seq<Node<Command>>,
                ghost tail: seq<Node<Command>>, ghost p: nat, ghost bad: set<Node<Command>>,
                ghost repr: set<Node<Command>>)
    returns (done: bool, here: Node<Command>, ghost left: seq<Node<Command>>, ghost q: nat)
    requires Chain(all) && Among(all, repr) && p < |all| && cmd == all[p] && head == if p == 0 then cmd else all[p - 1]
    requires Heads(command, tail) && Chain(tail) && Apart(tail, repr)
    requires cmd in bad <==> KeyOf(cmd.data) == KeyOf(command.data)
    modifies head`next
    ensures done ==> left == Resume(all, p, bad) && Chain(left + tail) && Among(left, repr)
    ensures !done ==>
      && Chain(left) && Among(left, repr) && Chain(tail) && q < |left| <= |all| - p + q && left[q] == here
      && Resume(all, p, bad) == Resume(left, q + 1, bad)
  {
    done, here, left, q := false, cmd, all, p;
    assert cmd.next == After(all, p);
    if KeyOf(cmd.data) == KeyOf(command.data) {
      if cmd.next == null {
        done := true;
        left := HangInPlace(head, command, all, tail, bad, repr);
      } else {
        assert head in repr;
        here, left, q := Skip(head, cmd, all, p, bad, repr);
      }
    } else {
      ResumeGood(all, p, bad);
    }
  }

  /** The loop of MoveIfAbsent. */
  method Reinsert(self: Node<Command>, command: Node<Command>, ghost line: seq<Node<Command>>,
                  ghost tail: seq<Node<Command>>, ghost bad: set<Node<Command>>, ghost repr: set<Node<Command>>)
    returns (ghost kept: seq<Node<Command>>)
    requires Chain(line) && line != [] && line[0] == self && Among(line, repr)
    requires Heads(command, tail) && Chain(tail) && Apart(tail, repr)
    requires forall n :: n in repr ==> (n in bad <==> KeyOf(n.data) == KeyOf(command.data))
    modifies repr`next
    ensures kept == Evict(line, bad) && Chain(kept + tail) && Among(kept, repr)
  {
    ghost var p := 0;
    kept := line;
    var head, cmd, done := self, self, false;
    while true
      invariant 0 <= p < |kept| && cmd == kept[p] && head == if p == 0 then cmd else kept[p - 1]
      invariant Chain(kept) && Among(kept, repr) && Chain(tail)
      invariant Evict(line, bad) == Resume(kept, p, bad)
      decreases |kept| - p
    {
      assert head in repr && cmd in repr;
      done, cmd, kept, p := Unlink(head, cmd, command, kept, tail, p, bad, repr);
      if done {
        return;
      }
      assert cmd.next == After(kept, p);
      if cmd.next == null {
        Hang(cmd, command, kept, kept, tail, repr);
        return;
      }
      head, cmd, p := cmd, cmd.next, p + 1;
    }
  }
}
