/** Node ids, process ids and correlation ids, and the order on node ids. */
module Ids {
  import opened Base

  datatype NodeId = NodeId(name: string, addr: string)

  /** `group` is a namespace for process names; a pid may have none. */
  datatype Pid = Pid(group: Option<string>, name: string, node: NodeId)

  datatype CorrelationId = CorrelationId(pid: Pid, connection: Option<nat>, request: Option<nat>)

  /** Lexicographic order on strings. */
  predicate StringLess(a: string, b: string) {
    if a == [] || b == [] then a == [] && b != []
    else a[0] < b[0] || (a[0] == b[0] && StringLess(a[1..], b[1..]))
  }

  /** The derived order of `NodeId`: names first, then addresses. */
  predicate Less(a: NodeId, b: NodeId) {
    StringLess(a.name, b.name) || (a.name == b.name && StringLess(a.addr, b.addr))
  }

  lemma {:induction false} StringOrderTotal(a: string, b: string)
    ensures !(StringLess(a, b) && StringLess(b, a))
    ensures StringLess(a, b) || StringLess(b, a) || a == b
    ensures !StringLess(a, a)
  {
    if a != [] {
      if b != [] {
        StringOrderTotal(a[1..], b[1..]);
        assert a == [a[0]] + a[1..] && b == [b[0]] + b[1..];
      } else {
        StringOrderTotal(a[1..], b);
      }
    }
  }

  /** Of two different nodes, exactly one sorts lower. */
  lemma NodeOrderTotal(a: NodeId, b: NodeId)
    ensures !(Less(a, b) && Less(b, a))
    ensures a != b ==> Less(a, b) || Less(b, a)
    ensures !Less(a, a)
  {
    StringOrderTotal(a.name, b.name);
    StringOrderTotal(a.addr, b.addr);
  }

  /** The pids under which every node runs its two system actors. */
  function ClusterPid(node: NodeId): Pid { Pid(Some("rabble"), "cluster_server", node) }

  function ExecutorPid(node: NodeId): Pid { Pid(Some("rabble"), "executor", node) }
}
