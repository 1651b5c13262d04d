/** Cluster membership: an observed-remove set of node ids, seen as a join-semilattice. A state is
    the set of marks it has absorbed, a delta is a set of marks, and joining is union. */
module Membership {
  import opened Base
  import opened Ids

  /** One addition of a node, named by the actor that made it and that actor's counter. */
  datatype Dot = Dot(actor: NodeId, counter: nat)

  datatype Mark = Added(node: NodeId, dot: Dot) | Removed(node: NodeId, dot: Dot)

  type Delta = set<Mark>

  datatype Members = Members(me: NodeId, counter: nat, marks: set<Mark>) {

    /** A node is a member while some addition of it has not been observed and removed. */
    function All(): set<NodeId> {
      set m | m in marks && m.Added? && Removed(m.node, m.dot) !in marks :: m.node
    }

    function Joined(delta: Delta): Members {
      this.(marks := marks + delta)
    }

    function AddDelta(node: NodeId): Delta {
      {Added(node, Dot(me, counter))}
    }

    function AfterAdd(node: NodeId): Members {
      this.(counter := counter + 1, marks := marks + AddDelta(node))
    }

    /** The removals of every addition of `node` seen so far; empty when none was ever seen. */
    function LeaveDelta(node: NodeId): Delta {
      set m | m in marks && m.Added? && m.node == node :: Removed(node, m.dot)
    }

    /** This actor's future dots are unused. */
    ghost predicate FreshDots() {
      forall m | m in marks && m.dot.actor == me :: m.dot.counter < counter
    }
  }

  /** Adding a node makes it a member, whatever was removed before. */
  lemma AddMakesMember(ms: Members, node: NodeId)
    requires ms.FreshDots()
    ensures ms.AfterAdd(node).FreshDots()
    ensures ms.AfterAdd(node).All() == ms.All() + {node}
  {
    var ms' := ms.AfterAdd(node);
    var mark := Added(node, Dot(ms.me, ms.counter));
    assert mark in ms'.marks && Removed(node, mark.dot) !in ms'.marks;
    forall n ensures n in ms'.All() <==> n in ms.All() + {node} {
      if n in ms.All() {
        var m :| m in ms.marks && m.Added? && Removed(m.node, m.dot) !in ms.marks && m.node == n;
        assert m in ms'.marks && Removed(m.node, m.dot) !in ms'.marks;
      }
    }
  }

  /** Leaving removes exactly the named node from the members. */
  lemma LeaveRemovesMember(ms: Members, node: NodeId)
    ensures ms.Joined(ms.LeaveDelta(node)).All() == ms.All() - {node}
  {
    var d := ms.LeaveDelta(node);
    var ms' := ms.Joined(d);
    forall m | m in ms.marks && m.Added? && m.node == node ensures Removed(node, m.dot) in d {
    }
    forall n ensures n in ms'.All() <==> n in ms.All() - {node} {
      if n in ms'.All() {
        var m :| m in ms'.marks && m.Added? && Removed(m.node, m.dot) !in ms'.marks && m.node == n;
        assert m in ms.marks && Removed(m.node, m.dot) !in ms.marks;
      }
      if n in ms.All() - {node} {
        var m :| m in ms.marks && m.Added? && Removed(m.node, m.dot) !in ms.marks && m.node == n;
        assert m in ms'.marks && Removed(m.node, m.dot) !in ms'.marks;
      }
    }
  }

  /** Absorb deltas one after the other. */
  function Absorbed(ms: Members, deltas: seq<Delta>): Members
    decreases |deltas|
  {
    if deltas == [] then ms else Absorbed(ms, deltas[..|deltas| - 1]).Joined(deltas[|deltas| - 1])
  }

  lemma {:induction false} AbsorbedMarks(ms: Members, deltas: seq<Delta>, mark: Mark)
    ensures mark in Absorbed(ms, deltas).marks <==> mark in ms.marks || exists d :: d in deltas && mark in d
    decreases |deltas|
  {
    if deltas != [] {
      var before, last := deltas[..|deltas| - 1], deltas[|deltas| - 1];
      AbsorbedMarks(ms, before, mark);
      assert deltas == before + [last];
      assert forall d :: d in deltas <==> d in before || d == last;
    }
  }

  /** Nodes that have absorbed the same deltas have the same members, in whatever order and however often
      they heard of them. */
  lemma SameDeltasSameMembers(a: Members, b: Members, toA: seq<Delta>, toB: seq<Delta>)
    requires a.marks == b.marks && forall d :: d in toA <==> d in toB
    ensures Absorbed(a, toA).All() == Absorbed(b, toB).All()
  {
    forall mark ensures mark in Absorbed(a, toA).marks <==> mark in Absorbed(b, toB).marks {
      AbsorbedMarks(a, toA, mark);
      AbsorbedMarks(b, toB, mark);
    }
    assert Absorbed(a, toA).marks == Absorbed(b, toB).marks;
  }

  /** The delta of an addition makes the node a member wherever it is absorbed, unless this very addition
      has been removed there. */
  lemma AddDeltaCarries(a: Members, b: Members, node: NodeId)
    ensures node in b.Joined(a.AddDelta(node)).All() || Removed(node, Dot(a.me, a.counter)) in b.marks
  {
    var mark := Added(node, Dot(a.me, a.counter));
    assert mark in b.Joined(a.AddDelta(node)).marks;
  }

  /** The members of a cluster as one node sees them. */
  class MemberTable {
    const me: NodeId
    var counter: nat
    var marks: set<Mark>

    function Value(): Members
      reads this
    {
      Members(me, counter, marks)
    }

    /** A node starts as the only member of its own cluster. */
    constructor (node: NodeId)
      ensures Value() == Members(node, 0, {}).AfterAdd(node)
      ensures Value().FreshDots() && Value().All() == {node}
    {
      me := node;
      counter := 1;
      marks := {Added(node, Dot(node, 0))};
      new;
      AddMakesMember(Members(node, 0, {}), node);
      assert Value() == Members(node, 0, {}).AfterAdd(node);
    }

    method Add(node: NodeId) returns (delta: Delta)
      modifies this
      ensures delta == old(Value()).AddDelta(node) && Value() == old(Value()).AfterAdd(node)
    {
      delta := {Added(node, Dot(me, counter))};
      counter := counter + 1;
      marks := marks + delta;
    }

    /** Absorb another node's whole state. */
    method Join(other: set<Mark>)
      modifies this
      ensures Value() == old(Value()).Joined(other)
    {
      marks := marks + other;
    }

    /** Returns `None` if no addition of `leaving` was ever seen. */
    method Leave(leaving: NodeId) returns (delta: Option<Delta>)
      modifies this
      ensures delta == None <==> old(Value()).LeaveDelta(leaving) == {}
      ensures delta.Some? ==> delta.value == old(Value()).LeaveDelta(leaving)
      ensures Value() == old(Value()).Joined(old(Value()).LeaveDelta(leaving))
    {
      var dots := set m | m in marks && m.Added? && m.node == leaving :: m.dot;
      if dots != {} {
        var removals := set d | d in dots :: Removed(leaving, d);
        assert removals == Value().LeaveDelta(leaving);
        var dot :| dot in dots;
        assert Removed(leaving, dot) in removals;
        marks := marks + removals;
        delta := Some(removals);
      } else {
        assert Value().LeaveDelta(leaving) == {} by {
          assert forall m | m in marks :: m.Added? && m.node == leaving ==> m.dot in dots;
        }
        assert Value().Joined({}) == Value();
        delta := None;
      }
    }

    /** Returns true exactly when the delta told this node something new. */
    method JoinDelta(delta: Delta) returns (changed: bool)
      modifies this
      ensures Value() == old(Value()).Joined(delta)
      ensures changed <==> Value() != old(Value())
      ensures changed <==> !(delta <= old(Value()).marks)
    {
      changed := !(delta <= marks);
      marks := marks + delta;
      if changed {
        ghost var m :| m in delta && m !in old(marks);
        assert m in marks;
      } else {
        assert marks == old(marks);
      }
    }
  }
}
