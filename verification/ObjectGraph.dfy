/**
 The preflight traversal of the canonical encoder over a heap of lists and dictionaries that may
 share and may form cycles: which graphs it accepts, and what it returns for them.
 */
module ObjectGraph {
  import opened Texts
  import opened JsonValue

  const MAX_DEPTH := 64
  const MAX_NODES := 10_000
  const MAX_BYTES := 1_048_576
  const MAX_SAFE_INTEGER := 9_007_199_254_740_991
  const CHUNK := 65_536

  /** A Python object: a string is its sequence of code points, surrogates included. */
  datatype Value = VNull | VBool(b: bool) | VInt(i: int) | VText(codes: seq<int>) | VRef(node: Node) | VOther

  /** A list or a dictionary, compared by identity. */
  class Node {
    const isList: bool
    var items: seq<Value>
    var entries: seq<(Value, Value)>

    constructor (isList: bool)
      ensures this.isList == isList && items == [] && entries == []
    {
      this.isList := isList;
      items, entries := [], [];
    }

    /** `v` is an element or a dictionary value of this container. */
    predicate Holds(v: Value)
      reads this
    {
      if isList then v in items else exists i :: 0 <= i < |entries| && entries[i].1 == v
    }
  }

  // ---- Text ---------------------------------------------------------------------------------------------------------

  /** A code point that UTF-8 can encode, as opposed to a lone surrogate. */
  predicate Scalar(c: int) {
    0 <= c < 0xd800 || 0xe000 <= c < 0x11_0000
  }

  predicate Encodable(codes: seq<int>) {
    forall i :: 0 <= i < |codes| ==> Scalar(codes[i])
  }

  function Width(c: int): nat {
    if c < 0x80 then 1 else if c < 0x800 then 2 else if c < 0x1_0000 then 3 else 4
  }

  /** UTF-8 length. */
  function ByteCount(codes: seq<int>): nat {
    if codes == [] then 0 else ByteCount(codes[..|codes| - 1]) + Width(codes[|codes| - 1])
  }

  function CodePoint(ch: char): int {
    ch as int
  }

  /** The code points that can be encoded are exactly those of characters. */
  lemma ScalarIsCharacter(c: int)
    ensures Scalar(c) <==> exists ch :: CodePoint(ch) == c
  {
    if Scalar(c) {
      assert CodePoint(c as char) == c;
    }
  }

  /** The bytes of a code point, by section 3 of RFC 3629: a lead byte that tells the length, and six bits
      in each byte that follows. */
  function Utf8(c: int): seq<int>
    requires Scalar(c)
  {
    if c < 0x80 then [c]
    else if c < 0x800 then [0xc0 + c / 64, 0x80 + c % 64]
    else if c < 0x1_0000 then [0xe0 + c / 4096, 0x80 + c / 64 % 64, 0x80 + c % 64]
    else [0xf0 + c / 0x4_0000, 0x80 + c / 4096 % 64, 0x80 + c / 64 % 64, 0x80 + c % 64]
  }

  /** The code point that a lead byte and what follows it stand for, a text of one to four bytes. */
  function FromUtf8(bytes: seq<int>): int {
    if |bytes| == 1 then bytes[0]
    else if |bytes| == 2 then (bytes[0] - 0xc0) * 64 + bytes[1] - 0x80
    else if |bytes| == 3 then ((bytes[0] - 0xe0) * 64 + bytes[1] - 0x80) * 64 + bytes[2] - 0x80
    else if |bytes| == 4 then (((bytes[0] - 0xf0) * 64 + bytes[1] - 0x80) * 64 + bytes[2] - 0x80) * 64 + bytes[3] - 0x80
    else 0
  }

  /** The width counted for a code point is the length of its encoding, which reads back, whose lead byte
      lies in the range of its length, and whose other bytes are continuation bytes. */
  lemma WidthIsEncoded(c: int)
    requires Scalar(c)
    ensures var b := Utf8(c);
      && |b| == Width(c) && FromUtf8(b) == c && (forall i :: 1 <= i < |b| ==> 0x80 <= b[i] < 0xc0)
      && (match |b| case 1 => 0 <= b[0] < 0x80 case 2 => 0xc2 <= b[0] < 0xe0 case 3 => 0xe0 <= b[0] < 0xf0
                    case _ => 0xf0 <= b[0] < 0xf5)
  {
    assert c / 64 / 64 == c / 4096 && c / 4096 / 64 == c / 0x4_0000;
  }

  function ToText(codes: seq<int>): string
    requires Encodable(codes)
  {
    seq(|codes|, i requires 0 <= i < |codes| => codes[i] as char)
  }

  lemma {:induction false} ByteCountAppend(a: seq<int>, b: seq<int>)
    ensures ByteCount(a + b) == ByteCount(a) + ByteCount(b)
    decreases |b|
  {
    if b == [] {
      assert a + b == a;
    } else {
      var n := |b| - 1;
      assert (a + b)[..|a| + n] == a + b[..n];
      ByteCountAppend(a, b[..n]);
    }
  }

  // ---- The tree a value unfolds to ----------------------------------------------------------------------------------

  /** The unfolding, the nodes it visits (every value and every key), and the bytes of its strings. */
  datatype Tree<T> = Tree(value: T, nodes: nat, bytes: nat)

  ghost function Unfold(v: Value, depth: nat, graph: set<Node>): Option<Tree<Json>>
    reads graph
    decreases MAX_DEPTH + 1 - depth, 0, 0
  {
    match v
    case VNull => Some(Tree(Null, 1, 0))
    case VBool(b) => Some(Tree(Bool(b), 1, 0))
    case VInt(i) => if -MAX_SAFE_INTEGER <= i <= MAX_SAFE_INTEGER then Some(Tree(Int(i), 1, 0)) else None
    case VText(codes) => if Encodable(codes) then Some(Tree(Str(ToText(codes)), 1, ByteCount(codes))) else None
    case VOther => None
    case VRef(node) =>
      if depth > MAX_DEPTH || node !in graph then None
      else if node.isList then
        var t :- UnfoldItems(node.items, depth + 1, graph);
        Some(Tree(Arr(t.value), 1 + t.nodes, t.bytes))
      else
        var t :- UnfoldEntries(node.entries, depth + 1, graph);
        Some(Tree(Obj(t.value), 1 + t.nodes, t.bytes))
  }

  ghost function UnfoldItems(items: seq<Value>, depth: nat, graph: set<Node>): Option<Tree<seq<Json>>>
    reads graph
    decreases MAX_DEPTH + 1 - depth, 1, |items|
  {
    if items == [] then Some(Tree([], 0, 0))
    else
      var n := |items| - 1;
      var t :- UnfoldItems(items[..n], depth, graph);
      var last :- Unfold(items[n], depth, graph);
      Some(Tree(t.value + [last.value], t.nodes + last.nodes, t.bytes + last.bytes))
  }

  /** One dictionary item: the key counts as a node of its own. */
  ghost function UnfoldEntry(entry: (Value, Value), depth: nat, graph: set<Node>): Option<Tree<(string, Json)>>
    reads graph
    decreases MAX_DEPTH + 1 - depth, 0, 1
  {
    if !entry.0.VText? || !Encodable(entry.0.codes) then None
    else
      var t :- Unfold(entry.1, depth, graph);
      Some(Tree((ToText(entry.0.codes), t.value), 1 + t.nodes, ByteCount(entry.0.codes) + t.bytes))
  }

  ghost function UnfoldEntries(entries: seq<(Value, Value)>, depth: nat,
                               graph: set<Node>): Option<Tree<map<string, Json>>>
    reads graph
    decreases MAX_DEPTH + 1 - depth, 1, |entries|
  {
    if entries == [] then Some(Tree(map[], 0, 0))
    else
      var n := |entries| - 1;
      var t :- UnfoldEntries(entries[..n], depth, graph);
      var last :- UnfoldEntry(entries[n], depth, graph);
      Some(Tree(t.value[last.value.0 := last.value.1], t.nodes + last.nodes, t.bytes + last.bytes))
  }

  // ---- Cycles -------------------------------------------------------------------------------------------------------

  ghost predicate Closed(graph: set<Node>)
    reads graph
  {
    && (forall n, i :: n in graph && n.isList && 0 <= i < |n.items| ==> Inside(n.items[i], graph))
    && (forall n, i :: n in graph && !n.isList && 0 <= i < |n.entries| ==> Inside(n.entries[i].1, graph))
  }

  ghost predicate Inside(v: Value, graph: set<Node>) {
    v.VRef? ==> v.node in graph
  }

  /** Each container holds the next one. */
  ghost predicate Chain(path: seq<Node>)
    reads path
  {
    forall i, j :: 0 <= i && i + 1 == j < |path| ==> path[i].Holds(VRef(path[j]))
  }

  /** A container that holds itself, directly or through others. */
  ghost predicate Cycle(path: seq<Node>)
    reads path
  {
    |path| >= 2 && Chain(path) && path[0] == path[|path| - 1]
  }

  lemma {:induction false} ItemUnfolds(items: seq<Value>, depth: nat, graph: set<Node>, v: Value)
    requires UnfoldItems(items, depth, graph).Some? && v in items
    ensures Unfold(v, depth, graph).Some?
    decreases |items|
  {
    var n := |items| - 1;
    if v != items[n] {
      ItemUnfolds(items[..n], depth, graph, v);
    }
  }

  lemma {:induction false} EntryUnfolds(entries: seq<(Value, Value)>, depth: nat, graph: set<Node>, i: nat)
    requires UnfoldEntries(entries, depth, graph).Some? && i < |entries|
    ensures Unfold(entries[i].1, depth, graph).Some?
    decreases |entries|
  {
    var n := |entries| - 1;
    if i < n {
      EntryUnfolds(entries[..n], depth, graph, i);
    }
  }

  /** A container that unfolds has children that unfold, one level deeper. */
  lemma ChildUnfolds(node: Node, depth: nat, graph: set<Node>, v: Value)
    requires Unfold(VRef(node), depth, graph).Some? && node.Holds(v)
    ensures depth <= MAX_DEPTH && Unfold(v, depth + 1, graph).Some?
  {
    if node.isList {
      ItemUnfolds(node.items, depth + 1, graph, v);
    } else {
      var i :| 0 <= i < |node.entries| && node.entries[i].1 == v;
      EntryUnfolds(node.entries, depth + 1, graph, i);
    }
  }

  /** No container on a chain longer than the depth limit unfolds. */
  lemma {:induction false} LongChainRefused(path: seq<Node>, depth: nat, graph: set<Node>)
    requires path != [] && Chain(path) && depth + |path| > MAX_DEPTH + 1
    ensures Unfold(VRef(path[0]), depth, graph).None?
    decreases |path|
  {
    if Unfold(VRef(path[0]), depth, graph).Some? && |path| > 1 {
      ChildUnfolds(path[0], depth, graph, VRef(path[1]));
      LongChainRefused(path[1..], depth + 1, graph);
    }
  }

  /** Going round a cycle `n` times. */
  ghost function Lap(cycle: seq<Node>, n: nat): seq<Node>
    requires |cycle| >= 2
  {
    if n == 0 then cycle else cycle[..|cycle| - 1] + Lap(cycle, n - 1)
  }

  lemma {:induction false} LapsChain(cycle: seq<Node>, n: nat)
    requires Cycle(cycle)
    ensures var p := Lap(cycle, n); Chain(p) && |p| > n + 1 && p[0] == cycle[0] && forall x :: x in p ==> x in cycle
    decreases n
  {
    if n > 0 {
      LapsChain(cycle, n - 1);
      var p, rest, m := Lap(cycle, n), Lap(cycle, n - 1), |cycle| - 1;
      forall i, j | 0 <= i && i + 1 == j < |p| ensures p[i].Holds(VRef(p[j])) {
        if j <= m {
          assert p[i] == cycle[i] && p[j] == cycle[j];
        } else {
          assert p[i] == rest[i - m] && p[j] == rest[j - m];
        }
      }
    }
  }

  /** A container on a cycle never unfolds, at any depth. */
  lemma CyclicRefused(cycle: seq<Node>, depth: nat, graph: set<Node>)
    requires Cycle(cycle)
    ensures Unfold(VRef(cycle[0]), depth, graph).None?
  {
    LapsChain(cycle, MAX_DEPTH);
    LongChainRefused(Lap(cycle, MAX_DEPTH), depth, graph);
  }

  /** Nor does anything that leads to one. */
  lemma {:induction false} ReachedCycleRefused(path: seq<Node>, cycle: seq<Node>, depth: nat, graph: set<Node>)
    requires Cycle(cycle) && path != [] && Chain(path) && path[|path| - 1] == cycle[0]
    ensures Unfold(VRef(path[0]), depth, graph).None?
    decreases |path|
  {
    if |path| == 1 {
      CyclicRefused(cycle, depth, graph);
    } else if Unfold(VRef(path[0]), depth, graph).Some? {
      ChildUnfolds(path[0], depth, graph, VRef(path[1]));
      ReachedCycleRefused(path[1..], cycle, depth + 1, graph);
    }
  }

  // ---- The traversal ------------------------------------------------------------------------------------------------

  datatype Error = TooManyNodes | NotUtf8 | TooManyBytes | UnsafeInteger | Unsupported | TooDeep | HasCycle | KeyNotText

  datatype Result<T> = Ok(value: T) | Err(error: Error)

  /** `_ValidationState`. */
  class ValidationState {
    var nodes: nat
    var bytes: nat
    var active: set<Node>

    constructor ()
      ensures nodes == 0 && bytes == 0 && active == {}
    {
      nodes, bytes, active := 0, 0, {};
    }

    ghost predicate WithinLimits()
      reads this
    {
      nodes <= MAX_NODES && bytes <= MAX_BYTES
    }

    method VisitNode() returns (ok: bool)
      modifies this`nodes
      ensures nodes == old(nodes) + 1 && (ok <==> nodes <= MAX_NODES)
    {
      nodes := nodes + 1;
      ok := nodes <= MAX_NODES;
    }

    /** Count a string in chunks, stopping at the first chunk that cannot be encoded or goes over. */
    method VisitString(codes: seq<int>) returns (error: Option<Error>)
      requires WithinLimits()
      modifies this`nodes, this`bytes
      ensures error.None? <==>
        old(nodes) + 1 <= MAX_NODES && Encodable(codes) && old(bytes) + ByteCount(codes) <= MAX_BYTES
      ensures error.None? ==> nodes == old(nodes) + 1 && bytes == old(bytes) + ByteCount(codes)
      ensures error == Some(NotUtf8) ==> !Encodable(codes)
      ensures error != Some(HasCycle)
    {
      var ok := VisitNode();
      if !ok {
        return Some(TooManyNodes);
      }
      var offset := 0;
      while offset < |codes|
        invariant 0 <= offset <= |codes| && nodes == old(nodes) + 1
        invariant Encodable(codes[..offset]) && bytes == old(bytes) + ByteCount(codes[..offset]) <= MAX_BYTES
      {
        var end := if offset + CHUNK < |codes| then offset + CHUNK else |codes|;
        var chunk := codes[offset..end];
        if !Encodable(chunk) {
          ChunkRefused(codes, offset, end);
          return Some(NotUtf8);
        }
        assert codes[..end] == codes[..offset] + chunk;
        ByteCountAppend(codes[..offset], chunk);
        bytes := bytes + ByteCount(chunk);
        if bytes > MAX_BYTES {
          assert codes == codes[..end] + codes[end..];
          ByteCountAppend(codes[..end], codes[end..]);
          return Some(TooManyBytes);
        }
        offset := end;
      }
      assert codes[..offset] == codes;
      return None;
    }
  }

  lemma ChunkRefused(codes: seq<int>, i: nat, j: nat)
    requires i <= j <= |codes| && !Encodable(codes[i..j])
    ensures !Encodable(codes)
  {
    var k :| 0 <= k < j - i && !Scalar(codes[i..j][k]);
    assert codes[i + k] == codes[i..j][k];
  }

  /** The active set holds exactly the containers on the path from the root to here. */
  ghost predicate OnPath(active: set<Node>, path: seq<Node>, v: Value)
    reads path
  {
    && Chain(path) && active == (set n | n in path)
    && (path != [] ==> path[|path| - 1].Holds(v))
  }

  /** A cycle inside the graph. */
  ghost predicate CycleIn(cycle: seq<Node>, graph: set<Node>)
    reads cycle
  {
    (forall i :: 0 <= i < |cycle| ==> cycle[i] in graph) && Cycle(cycle)
  }

  /** What a finished traversal says: on success the unfolding and its exact cost; on failure that
      the value does not unfold or that a budget is too small. */
  ghost predicate Accounts<T>(t: Option<Tree<T>>, r: Result<T>, nodes0: nat, bytes0: nat, nodes1: nat, bytes1: nat) {
    match r
    case Ok(value) =>
      nodes0 <= nodes1 <= MAX_NODES && bytes0 <= bytes1 <= MAX_BYTES
        && t == Some(Tree(value, nodes1 - nodes0, bytes1 - bytes0))
    case Err(_) => t.None? || nodes0 + t.value.nodes > MAX_NODES || bytes0 + t.value.bytes > MAX_BYTES
  }

  /** `_normalize`. */
  method Normalize(v: Value, depth: nat, state: ValidationState, ghost path: seq<Node>, ghost graph: set<Node>)
    returns (r: Result<Json>, ghost cycle: seq<Node>)
    requires Closed(graph) && Inside(v, graph) && (forall n :: n in path ==> n in graph)
    requires depth <= MAX_DEPTH + 1 && state.WithinLimits() && OnPath(state.active, path, v)
    modifies state
    ensures state.active == old(state.active)
    ensures Accounts(Unfold(v, depth, graph), r, old(state.nodes), old(state.bytes), state.nodes, state.bytes)
    ensures r == Err(HasCycle) ==> CycleIn(cycle, graph)
    decreases MAX_DEPTH + 1 - depth, 3
  {
    hide UnfoldItems, UnfoldEntries, Closed, Cycle, Chain;
    if v.VText? {
      var error := state.VisitString(v.codes);
      return if error.Some? then Err(error.value) else Ok(Str(ToText(v.codes))), [];
    }
    var ok := state.VisitNode();
    if !ok {
      return Err(TooManyNodes), [];
    }
    match v
    case VNull => return Ok(Null), [];
    case VBool(b) => return Ok(Bool(b)), [];
    case VInt(i) =>
      if !(-MAX_SAFE_INTEGER <= i <= MAX_SAFE_INTEGER) {
        return Err(UnsafeInteger), [];
      }
      return Ok(Int(i)), [];
    case VOther => return Err(Unsupported), [];
    case VRef(node) =>
      r, cycle := NormalizeContainer(node, depth, state, path, graph);
  }

  /** The container branch of `_normalize`, after its node was counted. */
  method NormalizeContainer(node: Node, depth: nat, state: ValidationState, ghost path: seq<Node>,
                            ghost graph: set<Node>)
    returns (r: Result<Json>, ghost cycle: seq<Node>)
    requires Closed(graph) && node in graph && (forall n :: n in path ==> n in graph)
    requires
      && depth <= MAX_DEPTH + 1 && state.WithinLimits() && state.nodes >= 1 && OnPath(state.active, path, VRef(node))
    modifies state
    ensures state.active == old(state.active)
    ensures Accounts(Unfold(VRef(node), depth, graph), r, old(state.nodes) - 1, old(state.bytes), state.nodes,
                     state.bytes)
    ensures r == Err(HasCycle) ==> CycleIn(cycle, graph)
    decreases MAX_DEPTH + 1 - depth, 2
  {
    hide UnfoldItems, UnfoldEntries, Closed, Cycle;
    if depth > MAX_DEPTH {
      return Err(TooDeep), [];
    }
    if node in state.active {
      cycle := CycleFound(path, node, depth, graph);
      return Err(HasCycle), cycle;
    }
    state.active := state.active + {node};
    assert Chain(path + [node]);
    if node.isList {
      var items, found := NormalizeItems(node, depth + 1, state, path + [node], graph);
      r := if items.Ok? then Ok(Arr(items.value)) else Err(items.error);
      cycle := found;
    } else {
      var fields, found := NormalizeEntries(node, depth + 1, state, path + [node], graph);
      r := if fields.Ok? then Ok(Obj(fields.value)) else Err(fields.error);
      cycle := found;
    }
    state.active := state.active - {node};
  }

  /** The list loop of `_normalize`. */
  method NormalizeItems(node: Node, depth: nat, state: ValidationState, ghost path: seq<Node>, ghost graph: set<Node>)
    returns (r: Result<seq<Json>>, ghost cycle: seq<Node>)
    requires Closed(graph) && node in graph && node.isList && (forall n :: n in path ==> n in graph)
    requires 1 <= depth <= MAX_DEPTH + 1 && state.WithinLimits()
    requires path != [] && path[|path| - 1] == node && Chain(path) && state.active == (set n | n in path)
    modifies state
    ensures state.active == old(state.active)
    ensures Accounts(UnfoldItems(node.items, depth, graph), r, old(state.nodes), old(state.bytes), state.nodes,
                     state.bytes)
    ensures r == Err(HasCycle) ==> CycleIn(cycle, graph)
    decreases MAX_DEPTH + 1 - depth, 4
  {
    hide ByteCount, Encodable, UnfoldEntries, Cycle, Unfold, Chain;
    var items, values := node.items, [];
    for i := 0 to |items|
      invariant state.active == old(state.active) && state.WithinLimits()
      invariant old(state.nodes) <= state.nodes && old(state.bytes) <= state.bytes
      invariant UnfoldItems(items[..i], depth,
                            graph) == Some(Tree(values, state.nodes - old(state.nodes), state.bytes - old(state.bytes)))
    {
      ItemsMonotone(items, depth, graph, i + 1);
      assert items[..i + 1][..i] == items[..i];
      assert node.Holds(items[i]);
      var value, found := Normalize(items[i], depth, state, path, graph);
      if value.Err? {
        return Err(value.error), found;
      }
      values := values + [value.value];
    }
    assert items[..|items|] == items;
    return Ok(values), [];
  }

  lemma {:induction false} ItemsMonotone(items: seq<Value>, depth: nat, graph: set<Node>, n: nat)
    requires n <= |items|
    ensures var t, p := UnfoldItems(items, depth, graph), UnfoldItems(items[..n], depth, graph);
            t.Some? ==> p.Some? && p.value.nodes <= t.value.nodes && p.value.bytes <= t.value.bytes
    decreases |items|
  {
    if n < |items| {
      var m := |items| - 1;
      assert items[..m][..n] == items[..n];
      ItemsMonotone(items[..m], depth, graph, n);
    } else {
      assert items[..n] == items;
    }
  }

  /** The dictionary loop of `_normalize`. */
  method NormalizeEntries(node: Node, depth: nat, state: ValidationState, ghost path: seq<Node>, ghost graph: set<Node>)
    returns (r: Result<map<string, Json>>, ghost cycle: seq<Node>)
    requires Closed(graph) && node in graph && !node.isList && (forall n :: n in path ==> n in graph)
    requires 1 <= depth <= MAX_DEPTH + 1 && state.WithinLimits()
    requires path != [] && path[|path| - 1] == node && Chain(path) && state.active == (set n | n in path)
    modifies state
    ensures state.active == old(state.active)
    ensures Accounts(UnfoldEntries(node.entries, depth, graph), r, old(state.nodes), old(state.bytes), state.nodes,
                     state.bytes)
    ensures r == Err(HasCycle) ==> CycleIn(cycle, graph)
    decreases MAX_DEPTH + 1 - depth, 5
  {
    hide ByteCount, Encodable, UnfoldItems, UnfoldEntry, Cycle, Unfold, Chain;
    var entries, fields := node.entries, map[];
    for i := 0 to |entries|
      invariant state.active == old(state.active) && state.WithinLimits()
      invariant old(state.nodes) <= state.nodes && old(state.bytes) <= state.bytes
      invariant UnfoldEntries(entries[..i], depth,
                              graph) == Some(Tree(fields, state.nodes - old(state.nodes),
                                                  state.bytes - old(state.bytes)))
    {
      EntriesMonotone(entries, depth, graph, i + 1);
      assert entries[..i + 1][..i] == entries[..i];
      assert node.Holds(entries[i].1);
      var field, found := NormalizeEntry(entries[i], depth, state, path, graph);
      if field.Err? {
        return Err(field.error), found;
      }
      fields := fields[field.value.0 := field.value.1];
    }
    assert entries[..|entries|] == entries;
    return Ok(fields), [];
  }

  /** One turn of the dictionary loop: the key is counted before its value. */
  method NormalizeEntry(entry: (Value, Value), depth: nat, state: ValidationState, ghost path: seq<Node>,
                        ghost graph: set<Node>)
    returns (r: Result<(string, Json)>, ghost cycle: seq<Node>)
    requires Closed(graph) && Inside(entry.1, graph) && (forall n :: n in path ==> n in graph)
    requires depth <= MAX_DEPTH + 1 && state.WithinLimits() && OnPath(state.active, path, entry.1)
    modifies state
    ensures state.active == old(state.active)
    ensures Accounts(UnfoldEntry(entry, depth, graph), r, old(state.nodes), old(state.bytes), state.nodes, state.bytes)
    ensures r == Err(HasCycle) ==> CycleIn(cycle, graph)
    decreases MAX_DEPTH + 1 - depth, 4
  {
    hide ByteCount, UnfoldItems, UnfoldEntries, Cycle, Unfold, Chain, Closed;
    var (key, item) := entry;
    if !key.VText? {
      return Err(KeyNotText), [];
    }
    var error := state.VisitString(key.codes);
    if error.Some? {
      return Err(error.value), [];
    }
    var value, found := Normalize(item, depth, state, path, graph);
    if value.Err? {
      return Err(value.error), found;
    }
    return Ok((ToText(key.codes), value.value)), [];
  }

  lemma {:induction false} EntriesMonotone(entries: seq<(Value, Value)>, depth: nat, graph: set<Node>, n: nat)
    requires n <= |entries|
    ensures var t, p := UnfoldEntries(entries, depth, graph), UnfoldEntries(entries[..n], depth, graph);
            t.Some? ==> p.Some? && p.value.nodes <= t.value.nodes && p.value.bytes <= t.value.bytes
    decreases |entries|
  {
    if n < |entries| {
      var m := |entries| - 1;
      assert entries[..m][..n] == entries[..n];
      EntriesMonotone(entries[..m], depth, graph, n);
    } else {
      assert entries[..n] == entries;
    }
  }

  /** Meeting a container that is on the path closes a cycle. */
  lemma CycleFound(path: seq<Node>, node: Node, depth: nat, graph: set<Node>) returns (cycle: seq<Node>)
    requires Chain(path) && node in path && path[|path| - 1].Holds(VRef(node)) && forall n :: n in path ==> n in graph
    ensures CycleIn(cycle, graph) && Unfold(VRef(node), depth, graph).None?
  {
    var k :| 0 <= k < |path| && path[k] == node;
    cycle := path[k..] + [node];
    assert Cycle(cycle);
    CyclicRefused(cycle, depth, graph);
  }

  /** The preflight of `canonical_json`: it ends on every graph, and accepts exactly the values that
      unfold within the depth limit to at most the allowed nodes and string bytes. */
  method Preflight(v: Value, ghost graph: set<Node>) returns (r: Result<Json>, ghost cycle: seq<Node>)
    requires Closed(graph) && Inside(v, graph)
    ensures r.Ok? <==> var t := Unfold(v, 0, graph); t.Some? && t.value.nodes <= MAX_NODES && t.value.bytes <= MAX_BYTES
    ensures r.Ok? ==> r.value == Unfold(v, 0, graph).value.value
    ensures r == Err(HasCycle) ==> CycleIn(cycle, graph)
  {
    var state := new ValidationState();
    r, cycle := Normalize(v, 0, state, [], graph);
  }
}
