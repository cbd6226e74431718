/**
 * An abstract view of the parts of a GTIRB IR that the function builders
 * consume: a node directory (stands in for Node::getByUUID followed by a
 * dyn_cast), the CFG successors of each block with their optional edge labels,
 * and the module's symbols in module order (stands in for Module::findSymbols
 * and for the Python module.symbols).
 */
module Gtirb {

  /** GTIRB UUIDs; only equality (and, for std::map, an order) matters. */
  type Uuid = nat

  datatype Option<+T> = None | Some(value: T)

  datatype Result<+T, +E> = Success(value: T) | Failure(error: E)

  /** The CFG edge kinds of GTIRB's EdgeType. */
  datatype EdgeType = Branch | Call | Fallthrough | Return | Syscall | Sysret

  /** The tuple behind a present EdgeLabel: conditional flag, direct flag, kind. */
  datatype EdgeLabel = EdgeLabel(conditional: bool, direct: bool, kind: EdgeType)

  /** One outgoing CFG edge: the successor node and the edge's label, if any. */
  datatype Successor = Successor(target: Uuid, edgeLabel: Option<EdgeLabel>)

  /** What a UUID resolves to in the node directory. */
  datatype Node =
    | CodeBlockNode
    | SymbolNode(name: string, referent: Option<Uuid>)
    | OtherNode

  /** A resolved symbol reference: its identity and its name. */
  datatype Symbol = Symbol(uuid: Uuid, name: string)

  /**
   * The IR as the builders see it. A block missing from `cfg` has no
   * successors; `symbols` lists the module's symbols in module order.
   */
  datatype Ir = Ir(nodes: map<Uuid, Node>, cfg: map<Uuid, seq<Successor>>, symbols: seq<Uuid>)

  /** `dyn_cast<CodeBlock>(Node::getByUUID(C, id))` is non-null. */
  predicate IsCodeBlock(ir: Ir, id: Uuid)
  {
    id in ir.nodes && ir.nodes[id].CodeBlockNode?
  }

  /** The ids of `ids` that resolve to code blocks; the others are skipped. */
  function ResolveCodeBlocks(ir: Ir, ids: set<Uuid>): set<Uuid>
  {
    set id | id in ids && IsCodeBlock(ir, id)
  }

  /** `dyn_cast<Symbol>(Symbol::getByUUID(C, id))`: absent unless `id` names a symbol. */
  function SymbolAt(ir: Ir, id: Uuid): (r: Option<Symbol>)
    ensures r.Some? <==> id in ir.nodes && ir.nodes[id].SymbolNode?
    ensures r.Some? ==> r.value.uuid == id && r.value.name == ir.nodes[id].name
  {
    if id in ir.nodes && ir.nodes[id].SymbolNode? then Some(Symbol(id, ir.nodes[id].name)) else None
  }

  /** The outgoing CFG edges of `block`, in CFG order. */
  function Successors(ir: Ir, block: Uuid): seq<Successor>
  {
    if block in ir.cfg then ir.cfg[block] else []
  }

  /** `id` is a symbol whose referent is set and is one of `targets`. */
  predicate RefersTo(ir: Ir, id: Uuid, targets: set<Uuid>)
  {
    id in ir.nodes && ir.nodes[id].SymbolNode? &&
    ir.nodes[id].referent.Some? && ir.nodes[id].referent.value in targets
  }

  /**
   * The symbols among `ids` (kept in their order) whose referent is one of
   * `targets`.
   */
  function SymbolsReferring(ir: Ir, ids: seq<Uuid>, targets: set<Uuid>): (r: seq<Symbol>)
    ensures |r| <= |ids|
    ensures forall s :: s in r <==> s.uuid in ids && RefersTo(ir, s.uuid, targets) && SymbolAt(ir, s.uuid) == Some(s)
    ensures Distinct(ids) ==> Distinct(r)
  {
    if ids == [] then []
    else
      var rest := SymbolsReferring(ir, ids[1..], targets);
      if RefersTo(ir, ids[0], targets) then
        assert forall s :: s in rest ==> s.uuid in ids[1..];
        [Symbol(ids[0], ir.nodes[ids[0]].name)] + rest
      else rest
  }

  /**
   * Selection keeps module order: the symbols selected from a concatenation
   * are those selected from the first part followed by those from the second.
   */
  lemma {:induction false} SymbolsReferringAppend(ir: Ir, a: seq<Uuid>, b: seq<Uuid>, targets: set<Uuid>)
    ensures SymbolsReferring(ir, a + b, targets) == SymbolsReferring(ir, a, targets) + SymbolsReferring(ir, b, targets)
  {
    if a == [] {
      assert a + b == b;
    } else {
      assert (a + b)[0] == a[0];
      assert (a + b)[1..] == a[1..] + b;
      SymbolsReferringAppend(ir, a[1..], b, targets);
    }
  }

  /** A single listed symbol is selected, with its name, exactly when it refers to a target. */
  lemma SymbolsReferringOne(ir: Ir, id: Uuid, targets: set<Uuid>)
    ensures SymbolsReferring(ir, [id], targets) ==
            if RefersTo(ir, id, targets) then [Symbol(id, ir.nodes[id].name)] else []
  {
    assert [id][1..] == [];
  }

  /** Nothing is selected from a list none of whose symbols refers to a target. */
  lemma {:induction false} SymbolsReferringNone(ir: Ir, ids: seq<Uuid>, targets: set<Uuid>)
    requires forall j :: 0 <= j < |ids| ==> !RefersTo(ir, ids[j], targets)
    ensures SymbolsReferring(ir, ids, targets) == []
  {
    if ids != [] {
      SymbolsReferringNone(ir, ids[1..], targets);
    }
  }

  /**
   * The first selected symbol is the first listed symbol that refers to a
   * target.
   */
  lemma FirstSymbolReferring(ir: Ir, ids: seq<Uuid>, targets: set<Uuid>, k: nat)
    requires k < |ids| && RefersTo(ir, ids[k], targets)
    requires forall j :: 0 <= j < k ==> !RefersTo(ir, ids[j], targets)
    ensures var r := SymbolsReferring(ir, ids, targets);
            r != [] && r[0] == Symbol(ids[k], ir.nodes[ids[k]].name)
  {
    assert ids == ids[..k] + ids[k..];
    SymbolsReferringAppend(ir, ids[..k], ids[k..], targets);
    SymbolsReferringNone(ir, ids[..k], targets);
    assert ids[k..][0] == ids[k];
  }

  /** `Module::findSymbols(block)`: the module's symbols that refer to `block`. */
  function FindSymbols(ir: Ir, block: Uuid): seq<Symbol>
  {
    SymbolsReferring(ir, ir.symbols, {block})
  }

  /** No element occurs twice. */
  predicate Distinct<T(==)>(s: seq<T>)
  {
    forall i, j :: 0 <= i < j < |s| ==> s[i] != s[j]
  }

  /** The set of a duplicate-free sequence has as many elements as the sequence. */
  lemma {:induction false} DistinctCardinality<T>(s: seq<T>)
    requires Distinct(s)
    ensures |set x | x in s| == |s|
  {
    if s != [] {
      var last := s[|s| - 1];
      var init := s[..|s| - 1];
      assert Distinct(init);
      DistinctCardinality(init);
      assert last !in init;
      assert (set x | x in s) == (set x | x in init) + {last};
    }
  }

  /** The names of `syms`, in order. */
  function NamesOf(syms: seq<Symbol>): (r: seq<string>)
    ensures |r| == |syms|
    ensures forall k :: 0 <= k < |syms| ==> r[k] == syms[k].name
  {
    seq(|syms|, k requires 0 <= k < |syms| => syms[k].name)
  }

  /** `sep.join(parts)`: the parts with `sep` between neighbours. */
  function Join(parts: seq<string>, sep: string): string
  {
    if |parts| == 0 then ""
    else if |parts| == 1 then parts[0]
    else Join(parts[..|parts| - 1], sep) + sep + parts[|parts| - 1]
  }
}
