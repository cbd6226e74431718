/**
 * The Python gtirb_functions.Function: a function's uuid, entry blocks, all
 * blocks and name symbols as build_functions passes them, a display name with
 * its own arity rules, and exit blocks (blocks with a Return edge) computed on
 * first request and cached.
 *
 * Blocks are represented by their UUIDs and symbols by `Symbol` values; the
 * aux-data tables are taken as already decoded: functionEntries as its items
 * in dict order, functionBlocks as a map.
 */
module PyFunctions {
  import opened Gtirb
  import CppFunctions

  /** The Python exceptions the modelled code can raise. */
  datatype PyError =
    | KeyError(key: Uuid)   // a function id missing from functionBlocks
    | AttributeError        // `e.label.type` on an edge whose label is None

  /** The blocks of `blocks` with at least one outgoing edge labelled Return. */
  function ReturnExitsOf(ir: Ir, blocks: set<Uuid>): (r: set<Uuid>)
    ensures r <= blocks
  {
    set b | b in blocks && HasReturnEdge(ir, b)
  }

  predicate HasReturnEdge(ir: Ir, b: Uuid)
  {
    exists k :: 0 <= k < |Successors(ir, b)| && IsReturn(Successors(ir, b)[k])
  }

  predicate IsReturn(e: Successor)
  {
    e.edgeLabel.Some? && e.edgeLabel.value.kind == Return
  }

  /** Every outgoing edge of every block of `blocks` carries a label. */
  predicate AllLabelled(ir: Ir, blocks: set<Uuid>)
  {
    forall b, k :: b in blocks && 0 <= k < |Successors(ir, b)| ==> Successors(ir, b)[k].edgeLabel.Some?
  }

  /** get_name's rule on the list of names. */
  function DisplayName(names: seq<string>): string
  {
    if |names| == 1 then names[0]
    else if |names| > 2 then names[0] + " (a.k.a. " + Join(names[1..], ",")
    else "<unknown>"
  }

  /** The symbols build_functions gives a function: in module order, those whose referent is an entry block. */
  function NameSymbolsFor(ir: Ir, entryIds: set<Uuid>): seq<Symbol>
  {
    SymbolsReferring(ir, ir.symbols, entryIds)
  }

  /**
   * The head name get_name shows is that of the first module symbol, in
   * module order, whose referent is an entry block.
   */
  lemma HeadNameSymbol(ir: Ir, entryIds: set<Uuid>, k: nat)
    requires k < |ir.symbols| && RefersTo(ir, ir.symbols[k], entryIds)
    requires forall j :: 0 <= j < k ==> !RefersTo(ir, ir.symbols[j], entryIds)
    ensures NameSymbolsFor(ir, entryIds) != []
    ensures NamesOf(NameSymbolsFor(ir, entryIds))[0] == ir.nodes[ir.symbols[k]].name
  {
    FirstSymbolReferring(ir, ir.symbols, entryIds, k);
  }

  class Function {
    const uuid: Uuid
    const entryBlocks: set<Uuid>
    const blocks: set<Uuid>
    const nameSymbols: seq<Symbol>
    /** `_exit_blocks`: None until get_exit_blocks first runs. */
    var exitBlocks: Option<set<Uuid>>

    /** Stores the arguments as given; the exit blocks are not yet computed. */
    constructor (uuid: Uuid, entryBlocks: set<Uuid>, blocks: set<Uuid>, nameSymbols: seq<Symbol>)
      ensures this.uuid == uuid && this.entryBlocks == entryBlocks && this.blocks == blocks
      ensures this.nameSymbols == nameSymbols && exitBlocks == None
    {
      this.uuid := uuid;
      this.entryBlocks := entryBlocks;
      exitBlocks := None;
      this.blocks := blocks;
      this.nameSymbols := nameSymbols;
    }

    /**
     * get_name: the sole name for one symbol; for more than two,
     * "first (a.k.a. " followed by the remaining names joined by "," (no
     * closing parenthesis); otherwise, for zero or exactly two, "<unknown>".
     */
    function GetName(): (r: string)
      ensures |nameSymbols| == 1 ==> r == nameSymbols[0].name
      ensures |nameSymbols| == 0 || |nameSymbols| == 2 ==> r == "<unknown>"
      ensures |nameSymbols| > 2 ==> r == nameSymbols[0].name + " (a.k.a. " + Join(NamesOf(nameSymbols)[1..], ",")
    {
      DisplayName(NamesOf(nameSymbols))
    }

    /** get_entry_blocks: the entry blocks given at construction. */
    function GetEntryBlocks(): (r: set<Uuid>)
      ensures r == entryBlocks
    {
      entryBlocks
    }

    /** get_all_blocks: the blocks given at construction. */
    function GetAllBlocks(): (r: set<Uuid>)
      ensures r == blocks
    {
      blocks
    }

    /**
     * get_exit_blocks: on the first call, fills the cache with the blocks that
     * have a Return edge and returns it; later calls return the cache as it
     * is. Reading the type of an unlabelled edge raises AttributeError, which
     * leaves the cache holding the blocks found so far.
     */
    method GetExitBlocks(ir: Ir) returns (r: Result<set<Uuid>, PyError>)
      modifies this
      ensures old(exitBlocks).Some? ==> r == Success(old(exitBlocks).value) && exitBlocks == old(exitBlocks)
      ensures old(exitBlocks).None? ==> (r.Success? <==> AllLabelled(ir, blocks))
      ensures old(exitBlocks).None? && r.Success? ==> r.value == ReturnExitsOf(ir, blocks) && exitBlocks == Some(r.value)
      ensures old(exitBlocks).None? && r.Failure? ==>
                r.error == AttributeError && exitBlocks.Some? && exitBlocks.value <= ReturnExitsOf(ir, blocks)
    {
      if exitBlocks.None? {
        exitBlocks := Some({});
        var todo := GetAllBlocks();
        assert (set b | b in blocks - todo && HasReturnEdge(ir, b)) == {};
        while todo != {}
          invariant todo <= blocks
          invariant exitBlocks == Some(set b | b in blocks - todo && HasReturnEdge(ir, b))
          invariant forall b, k :: b in blocks - todo && 0 <= k < |Successors(ir, b)| ==> Successors(ir, b)[k].edgeLabel.Some?
          decreases todo
        {
          var b :| b in todo;
          var edges := Successors(ir, b);
          ghost var before := exitBlocks.value;
          var k := 0;
          assert before + {} == before;
          while k < |edges|
            invariant 0 <= k <= |edges|
            invariant exitBlocks == Some(before + if exists j :: 0 <= j < k && IsReturn(edges[j]) then {b} else {})
            invariant forall j :: 0 <= j < k ==> edges[j].edgeLabel.Some?
          {
            var e := edges[k];
            if e.edgeLabel.None? {
              assert !AllLabelled(ir, blocks);
              return Failure(AttributeError);
            }
            if e.edgeLabel.value.kind == Return {
              exitBlocks := Some(exitBlocks.value + {b});
            }
            k := k + 1;
          }
          assert (exists j :: 0 <= j < k && IsReturn(edges[j])) <==> HasReturnEdge(ir, b);
          assert (set b' | b' in blocks - (todo - {b}) && HasReturnEdge(ir, b')) ==
                 before + if HasReturnEdge(ir, b) then {b} else {};
          todo := todo - {b};
        }
        assert blocks - todo == blocks;
      }
      return Success(exitBlocks.value);
    }

    /**
     * build_functions: one Function per item of functionEntries, in item
     * order, keyed by the item's id, holding the item's entry blocks, the
     * function's functionBlocks entry and the module's symbols that refer to
     * an entry block. A function id missing from functionBlocks raises
     * KeyError at the first such item.
     */
    static method BuildFunctions(ir: Ir, entries: seq<(Uuid, set<Uuid>)>, blocksByFn: map<Uuid, set<Uuid>>)
      returns (r: Result<seq<Function>, PyError>)
      ensures r.Failure? <==> exists i :: 0 <= i < |entries| && entries[i].0 !in blocksByFn
      ensures r.Failure? ==>
                exists i :: 0 <= i < |entries| && entries[i].0 !in blocksByFn && r.error == KeyError(entries[i].0) &&
                  forall j :: 0 <= j < i ==> entries[j].0 in blocksByFn
      ensures r.Success? ==>
                |r.value| == |entries| &&
                forall i :: 0 <= i < |entries| ==>
                  && fresh(r.value[i])
                  && r.value[i].uuid == entries[i].0
                  && r.value[i].entryBlocks == entries[i].1
                  && r.value[i].blocks == blocksByFn[entries[i].0]
                  && r.value[i].nameSymbols == NameSymbolsFor(ir, entries[i].1)
                  && r.value[i].exitBlocks == None
    {
      var functions: seq<Function> := [];
      var n := 0;
      while n < |entries|
        invariant 0 <= n <= |entries|
        invariant |functions| == n
        invariant forall j :: 0 <= j < n ==> entries[j].0 in blocksByFn
        invariant forall j :: 0 <= j < n ==>
                    && fresh(functions[j])
                    && functions[j].uuid == entries[j].0
                    && functions[j].entryBlocks == entries[j].1
                    && functions[j].blocks == blocksByFn[entries[j].0]
                    && functions[j].nameSymbols == NameSymbolsFor(ir, entries[j].1)
                    && functions[j].exitBlocks == None
      {
        var (id, entryBlocks) := entries[n];
        if id !in blocksByFn {
          return Failure(KeyError(id));
        }
        var fnBlocks := blocksByFn[id];
        var syms := NameSymbolsFor(ir, entryBlocks);
        var fn := new Function(id, entryBlocks, fnBlocks, syms);
        functions := functions + [fn];
        n := n + 1;
      }
      return Success(functions);
    }
  }

  /**
   * get_name yields "<unknown>" exactly for zero or two symbols, or for a
   * sole symbol that is itself called "<unknown>".
   */
  lemma DisplayNameUnknownIff(names: seq<string>)
    ensures DisplayName(names) == "<unknown>" <==>
            |names| == 0 || |names| == 2 || (|names| == 1 && names[0] == "<unknown>")
  {
    if |names| > 2 {
      var r := DisplayName(names);
      assert r[|names[0]|] == ' ';
      assert ' ' !in "<unknown>";
    }
  }

  /**
   * With more than two names the text starts with the first name and
   * " (a.k.a. " and ends with the last name: no closing parenthesis follows.
   */
  lemma DisplayNameUnclosed(names: seq<string>)
    requires |names| > 2
    ensures var r := DisplayName(names);
            |r| >= |names[0]| + 9 + |names[|names| - 1]| &&
            r[..|names[0]| + 9] == names[0] + " (a.k.a. " &&
            r[|r| - |names[|names| - 1]|..] == names[|names| - 1]
  {
    var rest := names[1..];
    assert rest[..|rest| - 1] + [rest[|rest| - 1]] == rest;
    var j := Join(rest, ",");
    assert j == Join(rest[..|rest| - 1], ",") + "," + rest[|rest| - 1];
  }

  /**
   * Python's exits are C++'s exits: a block with a Return edge qualifies
   * under findExitBlocks' rules too, for the same blocks.
   */
  lemma ReturnExitsAreExits(ir: Ir, blocks: set<Uuid>)
    ensures ReturnExitsOf(ir, blocks) <= CppFunctions.ExitBlocksOf(ir, blocks)
  {
    forall b | b in ReturnExitsOf(ir, blocks) ensures b in CppFunctions.ExitBlocksOf(ir, blocks) {
      var k :| 0 <= k < |Successors(ir, b)| && IsReturn(Successors(ir, b)[k]);
      assert CppFunctions.Qualifies(ir, Successors(ir, b)[k], blocks);
    }
  }
}
