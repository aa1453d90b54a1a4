/** The configuration walk over an arbitrary, possibly cyclic, graph of containers, and the stage-list check. */
module ConfigValidation {
  import opened Wrappers

  type NodeId = int

  datatype Value = Scalar(text: string) | Ref(node: NodeId)
  datatype Key = Str(text: string) | NotAString
  datatype Entry = Entry(key: Key, value: Value)

  /** A mapping or a list object; its identity is its key in the graph. */
  datatype Container = Mapping(entries: seq<Entry>) | Items(values: seq<Value>)

  type Graph = map<NodeId, Container>

  datatype ConfigError = NotAMapping | KeyNotString | SensitiveField

  function Values(c: Container): seq<Value> {
    match c
    case Mapping(entries) => seq(|entries|, i requires 0 <= i < |entries| => entries[i].value)
    case Items(values) => values
  }

  ghost predicate Edge(g: Graph, a: NodeId, b: NodeId) {
    a in g && Ref(b) in Values(g[a])
  }

  /** Every reference leads to a container of the graph. */
  ghost predicate Closed(g: Graph) {
    forall a, b :: Edge(g, a, b) ==> b in g
  }

  ghost predicate IsPath(g: Graph, p: seq<NodeId>) {
    p != [] && forall i :: 0 <= i < |p| - 1 ==> Edge(g, p[i], p[i + 1])
  }

  ghost predicate Reachable(g: Graph, root: NodeId, n: NodeId) {
    exists p :: IsPath(g, p) && p[0] == root && p[|p| - 1] == n
  }

  /** What is wrong with one entry, the two credential predicates taken together as `sensitive`. */
  function Fault(e: Entry, sensitive: (string, Value) -> bool): Option<ConfigError> {
    match e.key
    case NotAString => Some(KeyNotString)
    case Str(text) => if sensitive(text, e.value) then Some(SensitiveField) else None
  }

  ghost predicate HasFault(c: Container, sensitive: (string, Value) -> bool, why: ConfigError) {
    c.Mapping? && exists e <- c.entries :: Fault(e, sensitive) == Some(why)
  }

  ghost predicate Clean(c: Container, sensitive: (string, Value) -> bool) {
    c.Mapping? ==> forall e <- c.entries :: Fault(e, sensitive).None?
  }

  lemma ReachStep(g: Graph, root: NodeId, a: NodeId, b: NodeId)
    requires Reachable(g, root, a) && Edge(g, a, b)
    ensures Reachable(g, root, b)
  {
    var p :| IsPath(g, p) && p[0] == root && p[|p| - 1] == a;
    var q := p + [b];
    assert IsPath(g, q) && q[0] == root && q[|q| - 1] == b;
  }

  /** A set that holds the root and is closed under references holds everything reachable. */
  lemma {:induction false} PathStaysIn(g: Graph, seen: set<NodeId>, p: seq<NodeId>, i: nat)
    requires IsPath(g, p) && p[0] in seen && i < |p|
    requires forall a, b :: a in seen && Edge(g, a, b) ==> b in seen
    ensures p[i] in seen
  {
    if i > 0 {
      PathStaysIn(g, seen, p, i - 1);
      assert Edge(g, p[i - 1], p[i - 1 + 1]);
    }
  }

  /** What the walk knows: everything seen is reachable and clean, and leads to what is seen or pending. */
  ghost predicate WalkOk(g: Graph, root: NodeId, sensitive: (string, Value) -> bool, pending: seq<Value>,
                         seen: set<NodeId>)
  {
    && seen <= g.Keys
    && (root in seen || Ref(root) in pending)
    && (forall n <- seen :: Clean(g[n], sensitive))
    && (forall v <- pending :: v.Ref? ==> v.node in g && Reachable(g, root, v.node))
    && (forall a, b :: a in seen && Edge(g, a, b) ==> b in seen || Ref(b) in pending)
  }

  /** The entries of one mapping, in order; values are pushed as they are accepted. */
  method CheckEntries(entries: seq<Entry>, sensitive: (string, Value) -> bool, pending: seq<Value>)
    returns (error: Option<ConfigError>, more: seq<Value>)
    ensures error.None? ==> more == pending + Values(Mapping(entries)) && Clean(Mapping(entries), sensitive)
    ensures error.Some? ==> HasFault(Mapping(entries), sensitive, error.value)
  {
    more := pending;
    for i := 0 to |entries|
      invariant more == pending + Values(Mapping(entries))[..i]
      invariant forall e <- entries[..i] :: Fault(e, sensitive).None?
    {
      var e := entries[i];
      assert e in Mapping(entries).entries;
      if e.key.NotAString? {
        assert Fault(e, sensitive) == Some(KeyNotString);
        return Some(KeyNotString), more;
      }
      if sensitive(e.key.text, e.value) {
        return Some(SensitiveField), more;
      }
      more := more + [e.value];
    }
    error := None;
  }

  lemma WalkGrows(g: Graph, root: NodeId, sensitive: (string, Value) -> bool, pending: seq<Value>,
                  seen: set<NodeId>, n: NodeId)
    requires WalkOk(g, root, sensitive, pending + [Ref(n)], seen) && Closed(g) && Clean(g[n], sensitive)
    ensures WalkOk(g, root, sensitive, pending + Values(g[n]), seen + {n})
  {
    var more := pending + Values(g[n]);
    assert Ref(n) in pending + [Ref(n)];
    assert Ref(root) in pending + [Ref(n)] ==> Ref(root) in pending || root == n;
    forall v <- more | v.Ref? ensures v.node in g && Reachable(g, root, v.node) {
      if v in Values(g[n]) {
        assert Edge(g, n, v.node);
        ReachStep(g, root, n, v.node);
      } else {
        assert v in pending + [Ref(n)];
      }
    }
    forall a, b | a in seen + {n} && Edge(g, a, b) ensures b in seen + {n} || Ref(b) in more {
      if a in seen {
        assert b in seen || Ref(b) in pending + [Ref(n)];
      }
    }
  }

  lemma WalkDrops(g: Graph, root: NodeId, sensitive: (string, Value) -> bool, pending: seq<Value>,
                  seen: set<NodeId>, v: Value)
    requires WalkOk(g, root, sensitive, pending + [v], seen) && (v.Ref? ==> v.node in seen)
    ensures WalkOk(g, root, sensitive, pending, seen)
  {
    forall x <- pending ensures x in pending + [v] {
    }
    forall a, b | a in seen && Edge(g, a, b) ensures b in seen || Ref(b) in pending {
      assert b in seen || Ref(b) in pending + [v];
    }
  }

  /** The worklist: ends on every graph, and fails iff some mapping reachable from the root has a faulty entry. */
  method Walk(g: Graph, root: NodeId, sensitive: (string, Value) -> bool) returns (r: Result<(), ConfigError>)
    requires Closed(g) && root in g
    ensures r.Success? <==> forall n :: n in g && Reachable(g, root, n) ==> Clean(g[n], sensitive)
    ensures r.Failure? ==> exists n :: n in g && Reachable(g, root, n) && HasFault(g[n], sensitive, r.error)
  {
    var pending := [Ref(root)];
    var seen: set<NodeId> := {};
    assert IsPath(g, [root]) && [root][0] == root;
    while pending != []
      invariant WalkOk(g, root, sensitive, pending, seen)
      decreases g.Keys - seen, |pending|
    {
      var current := pending[|pending| - 1];
      ghost var whole := pending;
      pending := pending[..|pending| - 1];
      assert whole == pending + [current];
      if current.Scalar? || current.node in seen {
        WalkDrops(g, root, sensitive, pending, seen, current);
        continue;
      }
      var n := current.node;
      assert Ref(n) in whole;
      assert n in g.Keys - seen;
      match g[n] {
        case Mapping(entries) =>
          var error, more := CheckEntries(entries, sensitive, pending);
          if error.Some? {
            assert !Clean(g[n], sensitive);
            return Failure(error.value);
          }
          WalkGrows(g, root, sensitive, pending, seen, n);
          pending := more;
        case Items(values) =>
          WalkGrows(g, root, sensitive, pending, seen, n);
          pending := pending + values;
      }
      seen := seen + {n};
    }
    forall n | n in g && Reachable(g, root, n) ensures Clean(g[n], sensitive) {
      var p :| IsPath(g, p) && p[0] == root && p[|p| - 1] == n;
      PathStaysIn(g, seen, p, |p| - 1);
    }
    r := Success(());
  }

  predicate IsMapping(g: Graph, v: Value)
    requires v.Ref? ==> v.node in g
  {
    v.Ref? && g[v.node].Mapping?
  }

  /** Any other root is an error of its own. */
  method ValidateConfigSnapshot(g: Graph, root: Value, sensitive: (string, Value) -> bool)
    returns (r: Result<(), ConfigError>)
    requires Closed(g) && (root.Ref? ==> root.node in g)
    ensures r == Failure(NotAMapping) <==> !IsMapping(g, root)
    ensures r.Success? <==>
      IsMapping(g, root) && forall n :: n in g && Reachable(g, root.node, n) ==> Clean(g[n], sensitive)
    ensures r.Failure? && IsMapping(g, root) ==>
      exists n :: n in g && Reachable(g, root.node, n) && HasFault(g[n], sensitive, r.error)
  {
    if !IsMapping(g, root) {
      return Failure(NotAMapping);
    }
    r := Walk(g, root.node, sensitive);
  }

  // ----- the ordered list of stages -----

  const STAGES := 6
  const COLLECT := 0

  /** Positions in the pipeline; anything else is an unknown stage name. */
  ghost predicate IsOrderedSelection(stages: seq<int>) {
    && (forall i :: 0 <= i < |stages| ==> 0 <= stages[i] < STAGES)
    && (forall i, j :: 0 <= i < j < |stages| ==> stages[i] < stages[j])
    && COLLECT in stages
  }

  method ValidateStages(stages: seq<int>) returns (valid: bool)
    ensures valid <==> IsOrderedSelection(stages)
    ensures valid ==> |stages| <= STAGES && stages[0] == COLLECT
  {
    valid := stages != [] && COLLECT in stages;
    var previous := -1;
    var i := 0;
    while valid && i < |stages|
      invariant i <= |stages| && (valid ==> COLLECT in stages && -1 <= previous < STAGES && previous >= i - 1)
      invariant valid ==> forall k :: 0 <= k < i ==> 0 <= stages[k] < STAGES && stages[k] <= previous
      invariant valid ==> forall j, k :: 0 <= j < k < i ==> stages[j] < stages[k]
      invariant !valid ==> !IsOrderedSelection(stages)
      invariant valid ==> previous == if i == 0 then -1 else stages[i - 1]
    {
      if !(0 <= stages[i] < STAGES) || stages[i] <= previous {
        assert i > 0 ==> stages[i - 1] == previous;
        valid := false;
      } else {
        previous := stages[i];
        i := i + 1;
      }
    }
    if valid {
      var k :| 0 <= k < |stages| && stages[k] == COLLECT;
    }
  }
}
