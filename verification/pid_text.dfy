/** The text of node ids and pids. */
module PidText {
  import opened Base
  import opened Ids
  import opened Splitting

  function PrintNode(n: NodeId): string {
    n.name + "@" + n.addr
  }

  function PrintPid(p: Pid): string {
    match p.group
    case None => p.name + "::" + PrintNode(p.node)
    case Some(g) => g + "::" + p.name + "::" + PrintNode(p.node)
  }

  function ParseNode(s: string): Result<NodeId> {
    var v := Split(s, "@");
    if |v| != 2 then Err("Invalid NodeId format - Must be of form 'name@addr'")
    else Ok(NodeId(v[0], v[1]))
  }

  function ParsePid(s: string): Result<Pid> {
    var v := Split(s, "::");
    match |v|
    case 2 => WithNode(None, v[0], ParseNode(v[1]))
    case 3 => WithNode(Some(v[0]), v[1], ParseNode(v[2]))
    case _ => Err("Invalid Pid format - Must be of form 'name::node' or 'group::name::node'")
  }

  function WithNode(group: Option<string>, name: string, node: Result<NodeId>): Result<Pid> {
    match node
    case Ok(n) => Ok(Pid(group, name, n))
    case Err(e) => Err(e)
  }

  function Parts(p: Pid): seq<string> {
    (if p.group.Some? then [p.group.value] else []) + [p.name, PrintNode(p.node)]
  }

  lemma PrintJoins(p: Pid)
    ensures PrintPid(p) == Join(Parts(p), "::")
    ensures PrintNode(p.node) == Join([p.node.name, p.node.addr], "@")
  {
    var node := PrintNode(p.node);
    JoinTwo(p.name, node, "::");
    JoinTwo(p.node.name, p.node.addr, "@");
    if p.group.Some? {
      assert Parts(p) == [p.group.value, p.name, node];
      assert Parts(p)[1..] == [p.name, node];
      assert p.group.value + "::" + (p.name + "::" + node) == PrintPid(p);
    }
  }

  lemma JoinTwo(a: string, b: string, sep: string)
    ensures Join([a, b], sep) == a + sep + b
  {
    assert [a, b][1..] == [b];
  }

  // ----- parse, then print

  lemma ParsedNodePrints(s: string)
    requires ParseNode(s).Ok?
    ensures PrintNode(ParseNode(s).value) == s
  {
    var v := Split(s, "@");
    JoinSplit(s, "@");
    JoinTwo(v[0], v[1], "@");
    assert v == [v[0], v[1]];
  }

  /** Whatever parses as a pid prints back to the text it was parsed from. */
  lemma ParsedPidPrints(s: string)
    requires ParsePid(s).Ok?
    ensures PrintPid(ParsePid(s).value) == s
  {
    var v, p := Split(s, "::"), ParsePid(s).value;
    JoinSplit(s, "::");
    ParsedNodePrints(v[|v| - 1]);
    PrintJoins(p);
    assert Parts(p) == v;
  }

  /** A node id parses when there is exactly one `@` in it. */
  lemma NodeParsesIff(s: string)
    ensures ParseNode(s).Ok? <==> Count(s, '@') == 1
  {
    SplitCounts(s, '@');
  }

  // ----- print, then parse

  predicate EndsInColon(s: string) {
    s != [] && s[|s| - 1] == ':'
  }

  /** The pids whose text says it all. */
  ghost predicate Printable(p: Pid) {
    && (p.group.Some? ==> !Contains(p.group.value, "::") && !EndsInColon(p.group.value))
    && !Contains(p.name, "::") && !EndsInColon(p.name)
    && !Contains(p.node.name, "::") && !Contains(p.node.addr, "::")
    && '@' !in p.node.name && '@' !in p.node.addr
  }

  lemma EndsAtColons(p: string)
    ensures EndsAt(p, "::") <==> !Contains(p, "::") && !EndsInColon(p)
  {
    var s := p + "::";
    assert s[|p|..|p| + 2] == "::";
    assert OccursAt(s, "::", |p|);
    forall j: nat | j < |p|
      ensures OccursAt(s, "::", j) <==> (OccursAt(p, "::", j) || (j == |p| - 1 && EndsInColon(p)))
    {
      assert s[j..j + 2] == [s[j], s[j + 1]];
      if j + 2 <= |p| {
        assert p[j..j + 2] == [p[j], p[j + 1]];
      }
    }
    if EndsInColon(p) {
      assert OccursAt(s, "::", |p| - 1);
    }
    if Contains(p, "::") {
      var j: nat :| j <= |p| && OccursAt(p, "::", j);
      assert OccursAt(s, "::", j);
    }
    if !EndsAt(p, "::") {
      var j := Find(s, "::").value;
      assert OccursAt(s, "::", j) && j < |p|;
    }
  }

  lemma EndsAtSign(p: string)
    ensures EndsAt(p, "@") <==> '@' !in p
    ensures Contains(p, "@") <==> '@' in p
  {
    var s := p + "@";
    assert s[|p|..|p| + 1] == "@";
    assert OccursAt(s, "@", |p|);
    forall j: nat | j < |p| ensures (OccursAt(s, "@", j) <==> p[j] == '@') && (OccursAt(p, "@", j) <==> p[j] == '@') {
      assert s[j..j + 1] == [s[j]] && p[j..j + 1] == [p[j]];
    }
    if '@' in p {
      var j :| 0 <= j < |p| && p[j] == '@';
      assert OccursAt(p, "@", j) && OccursAt(s, "@", j);
    }
  }

  /** An `@` between two strings makes no new `::`. */
  lemma NoColonsAcross(a: string, b: string)
    ensures Contains(a + "@" + b, "::") <==> Contains(a, "::") || Contains(b, "::")
  {
    hide OccursAt;
    var s := a + "@" + b;
    forall j: nat | j + 2 <= |s|
      ensures OccursAt(s, "::", j) <==> OccursAt(a, "::", j) || (j > |a| && OccursAt(b, "::", j - |a| - 1))
    {
      ColonsAt(a, b, j);
    }
    TooShort(a);
    TooShort(b);
    TooShort(s);
    if Contains(a, "::") {
      var j: nat :| j <= |a| && OccursAt(a, "::", j);
      assert OccursAt(s, "::", j);
    }
    if Contains(b, "::") {
      var j: nat :| j <= |b| && OccursAt(b, "::", j);
      assert OccursAt(s, "::", j + |a| + 1);
    }
    if Contains(s, "::") {
      var j: nat :| j <= |s| && OccursAt(s, "::", j);
      assert OccursAt(a, "::", j) || OccursAt(b, "::", j - |a| - 1);
    }
  }

  lemma ColonsAt(a: string, b: string, j: nat)
    ensures var s := a + "@" + b;
            j + 2 <= |s| ==>
              (OccursAt(s, "::", j) <==> OccursAt(a, "::", j) || (j > |a| && OccursAt(b, "::", j - |a| - 1)))
  {
    var s := a + "@" + b;
    if j + 2 <= |s| {
      TwoAt(s, j);
      if j + 2 <= |a| {
        TwoAt(a, j);
      } else if j > |a| {
        TwoAt(b, j - |a| - 1);
      }
    }
  }

  lemma TwoAt(s: string, j: nat)
    requires j + 2 <= |s|
    ensures OccursAt(s, "::", j) <==> s[j] == ':' && s[j + 1] == ':'
  {
    assert s[j..j + 2] == [s[j], s[j + 1]];
  }

  lemma TooShort(s: string)
    ensures forall j: nat | OccursAt(s, "::", j) :: j + 2 <= |s|
  {
  }

  lemma NodeRoundTrip(n: NodeId)
    ensures ParseNode(PrintNode(n)) == Ok(n) <==> '@' !in n.name && '@' !in n.addr
  {
    var parts := [n.name, n.addr];
    JoinTwo(n.name, n.addr, "@");
    SplitJoin(parts, "@");
    EndsAtSign(n.name);
    EndsAtSign(n.addr);
    var v := Split(PrintNode(n), "@");
    assert Separable(parts, "@") <==> EndsAt(n.name, "@") && !Contains(n.addr, "@") by {
      assert parts[0] == n.name;
    }
    assert |v| == 2 ==> v == [v[0], v[1]];
  }

  lemma PartsSeparable(p: Pid)
    ensures Separable(Parts(p), "::") <==>
              && (p.group.Some? ==> EndsAt(p.group.value, "::"))
              && EndsAt(p.name, "::") && !Contains(PrintNode(p.node), "::")
  {
    var parts := Parts(p);
    assert parts[|parts| - 2] == p.name && parts[|parts| - 1] == PrintNode(p.node);
    assert p.group.Some? ==> parts[0] == p.group.value;
  }

  /** Printing a pid and parsing the text gives the pid back exactly when it is printable. */
  lemma PidRoundTrip(p: Pid)
    ensures ParsePid(PrintPid(p)) == Ok(p) <==> Printable(p)
  {
    hide EndsAt, Split, Contains;
    var s := PrintPid(p);
    var parts := Parts(p);
    PrintJoins(p);
    SplitJoin(parts, "::");
    PartsSeparable(p);
    NodeRoundTrip(p.node);
    NoColonsAcross(p.node.name, p.node.addr);
    EndsAtColons(p.name);
    if p.group.Some? {
      EndsAtColons(p.group.value);
    }
    var v := Split(s, "::");
    if ParsePid(s) == Ok(p) {
      ParsedNodePrints(v[|v| - 1]);
      assert v == parts;
    }
  }

  /** Printable pids with the same text are the same. */
  lemma PrintableInjective(p: Pid, q: Pid)
    requires Printable(p) && Printable(q) && PrintPid(p) == PrintPid(q)
    ensures p == q
  {
    PidRoundTrip(p);
    PidRoundTrip(q);
  }

  /** Two different pids with the same text: one that is not printable reads back as the other. */
  lemma ColonsPrintAlike()
    ensures var p := Pid(None, "a:", NodeId("n", "h"));
            var q := Pid(None, "a", NodeId(":n", "h"));
            p != q && PrintPid(p) == PrintPid(q) && ParsePid(PrintPid(p)) == Ok(q)
  {
    var q := Pid(None, "a", NodeId(":n", "h"));
    ShortHasNoColons("n");
    ShortHasNoColons("h");
    ShortHasNoColons("a");
    assert !OccursAt(":n", "::", 0) by {
      assert ":n"[0..2] == ":n";
    }
    PidRoundTrip(q);
  }

  lemma ShortHasNoColons(s: string)
    requires |s| < 2
    ensures !Contains(s, "::")
  {
  }
}
