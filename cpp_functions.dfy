/**
 * The C++ gtirb::Function: a read-only record of one function's entry, exit
 * and member code blocks, its name symbols, its canonical name and a display
 * name, built from the FunctionEntries, FunctionBlocks and FunctionNames
 * auxiliary-data tables.
 *
 * Code blocks are represented by their UUIDs (each one resolved to a
 * CodeBlock in the IR); symbols by `Symbol` values. The unordered_set of
 * name symbols is represented by the sequence in which an iteration visits
 * it, which has no duplicates.
 */
module CppFunctions {
  import opened Gtirb

  // ---------------------------------------------------------------------------
  // Display name (Function::set_name)
  // ---------------------------------------------------------------------------

  /**
   * `Sym == CanonName` in set_name compares pointers: the symbol is the
   * canonical one when it has the canonical symbol's identity.
   */
  predicate IsCanon(s: Symbol, canon: Option<Symbol>)
  {
    canon.Some? && s.uuid == canon.value.uuid
  }

  /** No symbol is listed twice: the enumeration of a set of symbol pointers. */
  predicate DistinctIds(names: seq<Symbol>)
  {
    forall i, j :: 0 <= i < j < |names| ==> names[i].uuid != names[j].uuid
  }

  /** What one step of set_name's loop appends for the symbol at position i. */
  function AkaItem(names: seq<Symbol>, canon: Option<Symbol>, i: nat): string
    requires i < |names|
  {
    if IsCanon(names[i], canon) then ""
    else if i + 1 < |names| then names[i].name + ", "
    else names[i].name
  }

  /** The text set_name's loop has appended after visiting the first n symbols. */
  function AkaPart(names: seq<Symbol>, canon: Option<Symbol>, n: nat): string
    requires n <= |names|
  {
    if n == 0 then "" else AkaPart(names, canon, n - 1) + AkaItem(names, canon, n - 1)
  }

  /** One step of set_name's loop extends the text for the first i symbols to the first i + 1. */
  lemma AkaPartStep(head: string, names: seq<Symbol>, canon: Option<Symbol>, i: nat, before: string, after: string)
    requires i < |names|
    requires before == head + AkaPart(names, canon, i)
    requires IsCanon(names[i], canon) ==> after == before
    requires !IsCanon(names[i], canon) && i + 1 < |names| ==> after == before + names[i].name + ", "
    requires !IsCanon(names[i], canon) && i + 1 >= |names| ==> after == before + names[i].name
    ensures after == head + AkaPart(names, canon, i + 1)
  {
    var item := AkaItem(names, canon, i);
    if IsCanon(names[i], canon) {
      AppendEmpty(before);
    } else if i + 1 < |names| {
      AppendAssoc(before, names[i].name, ", ");
    }
    assert after == before + item;
    AppendAssoc(head, AkaPart(names, canon, i), item);
  }

  lemma AppendEmpty(a: string)
    ensures a + "" == a
  {
  }

  lemma AppendAssoc(a: string, b: string, c: string)
    ensures a + b + c == a + (b + c)
  {
  }

  /**
   * The display name set_name stores, for the name symbols in iteration order
   * `names`. With two or more symbols the canonical symbol is dereferenced, so
   * it must be present.
   */
  function LongNameOf(names: seq<Symbol>, canon: Option<Symbol>): string
    requires |names| < 2 || canon.Some?
  {
    if |names| == 0 then "<unknown>"
    else if |names| == 1 then names[0].name
    else canon.value.name + " (a.k.a " + AkaPart(names, canon, |names|) + ")"
  }

  /** The name symbols other than the canonical one, in iteration order. */
  function Others(names: seq<Symbol>, canon: Option<Symbol>): seq<Symbol>
  {
    if |names| == 0 then []
    else Others(names[..|names| - 1], canon) + (if !IsCanon(names[|names| - 1], canon) then [names[|names| - 1]] else [])
  }

  /** The list holds exactly the name symbols other than the canonical one. */
  lemma {:induction false} OthersMembers(names: seq<Symbol>, canon: Option<Symbol>)
    ensures forall s :: s in Others(names, canon) <==> s in names && !IsCanon(s, canon)
  {
    if |names| > 0 {
      var init := names[..|names| - 1];
      var last := names[|names| - 1];
      assert names == init + [last];
      OthersMembers(init, canon);
    }
  }

  /**
   * Every symbol other than the canonical one is listed exactly once: the
   * list has no duplicates and is one shorter than the set exactly when the
   * canonical symbol is among the name symbols.
   */
  lemma {:induction false} OthersListsEachOnce(names: seq<Symbol>, canon: Option<Symbol>)
    requires DistinctIds(names)
    ensures DistinctIds(Others(names, canon))
    ensures |Others(names, canon)| == |names| - (if exists s :: s in names && IsCanon(s, canon) then 1 else 0)
  {
    if |names| > 0 {
      var init := names[..|names| - 1];
      var last := names[|names| - 1];
      assert names == init + [last];
      DistinctIdsInit(names);
      OthersListsEachOnce(init, canon);
      OthersMembers(init, canon);
      var o := Others(init, canon);
      if !IsCanon(last, canon) {
        DistinctIdsSnoc(o, last);
      } else {
        assert o + [] == o;
        assert forall s :: s in init ==> !IsCanon(s, canon);
      }
    }
  }

  /** Dropping the last symbol keeps the ids distinct, and the last id differs from all others. */
  lemma DistinctIdsInit(names: seq<Symbol>)
    requires DistinctIds(names) && names != []
    ensures DistinctIds(names[..|names| - 1])
    ensures forall s :: s in names[..|names| - 1] ==> s.uuid != names[|names| - 1].uuid
  {
  }

  /** Appending a symbol whose id is new keeps the ids distinct. */
  lemma DistinctIdsSnoc(o: seq<Symbol>, x: Symbol)
    requires DistinctIds(o) && forall s :: s in o ==> s.uuid != x.uuid
    ensures DistinctIds(o + [x])
  {
    forall i, j | 0 <= i < j < |o + [x]| ensures (o + [x])[i].uuid != (o + [x])[j].uuid {
      if j == |o| { assert (o + [x])[i] in o; }
    }
  }

  lemma OthersSnoc(init: seq<Symbol>, x: Symbol, canon: Option<Symbol>)
    ensures Others(init + [x], canon) == Others(init, canon) + (if !IsCanon(x, canon) then [x] else [])
  {
    assert (init + [x])[..|init|] == init;
  }

  /** Join of one more part: the old text, the separator, the new part. */
  lemma JoinSnoc(parts: seq<string>, x: string, sep: string)
    requires parts != []
    ensures Join(parts + [x], sep) == Join(parts, sep) + sep + x
  {
    assert (parts + [x])[..|parts|] == parts;
  }

  /** The names of `listed`, each followed by ", ". */
  function Terminated(listed: seq<Symbol>): string
  {
    if listed == [] then "" else Terminated(listed[..|listed| - 1]) + listed[|listed| - 1].name + ", "
  }

  /** Listing one more name after names that were each followed by ", ". */
  lemma TerminatedSnoc(listed: seq<Symbol>, x: Symbol)
    ensures Terminated(listed + [x]) == Terminated(listed) + x.name + ", "
  {
    assert (listed + [x])[..|listed|] == listed;
  }

  /** Names each followed by ", ", then one more name: the ", "-join of them all. */
  lemma {:induction false} TerminatedJoin(listed: seq<Symbol>, x: Symbol)
    ensures Terminated(listed) + x.name == Join(NamesOf(listed + [x]), ", ")
  {
    assert NamesOf(listed + [x]) == NamesOf(listed) + [x.name];
    if listed == [] {
      assert NamesOf([x]) == [x.name];
    } else {
      var init := listed[..|listed| - 1];
      var last := listed[|listed| - 1];
      assert init + [last] == listed;
      TerminatedJoin(init, last);
      JoinSnoc(NamesOf(listed), x.name, ", ");
      AppendAssoc(Terminated(init), last.name, ", ");
      AppendAssoc(Terminated(init) + last.name, ", ", x.name);
      AppendAssoc(Terminated(init) + (last.name + ", "), x.name, "");
    }
  }

  /** Names each followed by ", ", for a non-empty list: their ", "-join and one more ", ". */
  lemma TerminatedNonEmpty(listed: seq<Symbol>)
    requires listed != []
    ensures Terminated(listed) == Join(NamesOf(listed), ", ") + ", "
  {
    var init := listed[..|listed| - 1];
    var last := listed[|listed| - 1];
    assert init + [last] == listed;
    TerminatedJoin(init, last);
  }

  /**
   * While the loop has not reached the last position, every listed name has
   * been followed by ", ".
   */
  lemma {:induction false} AkaPartBeforeLast(names: seq<Symbol>, canon: Option<Symbol>, n: nat)
    requires n < |names|
    ensures AkaPart(names, canon, n) == Terminated(Others(names[..n], canon))
  {
    if n > 0 {
      AkaPartBeforeLast(names, canon, n - 1);
      BeforeLastStep(names, canon, n);
    }
  }

  /** One more position of the loop, not the last, keeps every listed name followed by ", ". */
  lemma BeforeLastStep(names: seq<Symbol>, canon: Option<Symbol>, n: nat)
    requires 0 < n < |names|
    requires AkaPart(names, canon, n - 1) == Terminated(Others(names[..n - 1], canon))
    ensures AkaPart(names, canon, n) == Terminated(Others(names[..n], canon))
  {
    var x := names[n - 1];
    var o := Others(names[..n - 1], canon);
    OthersPrefixStep(names, canon, n);
    if !IsCanon(x, canon) {
      AkaPartStepOther(names, canon, n);
      TerminatedSnoc(o, x);
    } else {
      AkaPartStepCanon(names, canon, n);
      assert o + [] == o;
    }
  }

  /** Visiting a non-canonical symbol before the last position appends its name and ", ". */
  lemma AkaPartStepOther(names: seq<Symbol>, canon: Option<Symbol>, n: nat)
    requires 0 < n < |names| && !IsCanon(names[n - 1], canon)
    ensures AkaPart(names, canon, n) == AkaPart(names, canon, n - 1) + names[n - 1].name + ", "
  {
    AppendAssoc(AkaPart(names, canon, n - 1), names[n - 1].name, ", ");
  }

  /** Visiting a non-canonical symbol at the last position appends its name alone. */
  lemma AkaPartStepLast(names: seq<Symbol>, canon: Option<Symbol>)
    requires 0 < |names| && !IsCanon(names[|names| - 1], canon)
    ensures AkaPart(names, canon, |names|) == AkaPart(names, canon, |names| - 1) + names[|names| - 1].name
  {
  }

  /** Visiting the canonical symbol appends nothing. */
  lemma AkaPartStepCanon(names: seq<Symbol>, canon: Option<Symbol>, n: nat)
    requires 0 < n <= |names| && IsCanon(names[n - 1], canon)
    ensures AkaPart(names, canon, n) == AkaPart(names, canon, n - 1)
  {
    AppendEmpty(AkaPart(names, canon, n - 1));
  }

  /** The others among the first n symbols: those among the first n - 1, then the n-th unless canonical. */
  lemma OthersPrefixStep(names: seq<Symbol>, canon: Option<Symbol>, n: nat)
    requires 0 < n <= |names|
    ensures Others(names[..n], canon) ==
            Others(names[..n - 1], canon) + (if !IsCanon(names[n - 1], canon) then [names[n - 1]] else [])
  {
    assert names[..n] == names[..n - 1] + [names[n - 1]];
    OthersSnoc(names[..n - 1], names[n - 1], canon);
  }

  /**
   * The a.k.a. list set_name builds is the ", "-join of the other symbols'
   * names in iteration order, followed by a stray ", " exactly when the
   * canonical symbol is the last one visited (and some other name was listed):
   * the separator test `i + 1 < Length` counts the skipped canonical symbol.
   */
  lemma {:induction false} AkaPartShape(names: seq<Symbol>, canon: Option<Symbol>)
    ensures AkaPart(names, canon, |names|) ==
            Join(NamesOf(Others(names, canon)), ", ") +
            (if |names| > 0 && IsCanon(names[|names| - 1], canon) && Others(names, canon) != [] then ", " else "")
  {
    if |names| > 0 {
      var n := |names| - 1;
      var x := names[n];
      var o := Others(names[..n], canon);
      AkaPartBeforeLast(names, canon, n);
      OthersPrefixStep(names, canon, |names|);
      assert names[..|names|] == names;
      if !IsCanon(x, canon) {
        AkaPartStepLast(names, canon);
        TerminatedJoin(o, x);
      } else {
        AkaPartStepCanon(names, canon, |names|);
        assert o + [] == o;
        if o != [] {
          TerminatedNonEmpty(o);
        } else {
          AppendEmpty(Join(NamesOf(o), ", "));
        }
      }
    }
  }

  /**
   * With two or more name symbols the display name is the canonical name,
   * " (a.k.a ", the other names joined by ", ", a trailing ", " exactly when
   * the canonical symbol is visited last, and ")".
   */
  lemma LongNameAka(names: seq<Symbol>, canon: Option<Symbol>)
    requires DistinctIds(names) && |names| >= 2 && canon.Some?
    ensures LongNameOf(names, canon) ==
            canon.value.name + " (a.k.a " + Join(NamesOf(Others(names, canon)), ", ") +
            (if names[|names| - 1].uuid == canon.value.uuid then ", " else "") + ")"
  {
    var joined := Join(NamesOf(Others(names, canon)), ", ");
    var stray := if names[|names| - 1].uuid == canon.value.uuid then ", " else "";
    AkaPartShape(names, canon);
    if IsCanon(names[|names| - 1], canon) {
      assert names[0].uuid != names[|names| - 1].uuid;
      OthersMembers(names, canon);
      assert names[0] in Others(names, canon);
    }
    assert AkaPart(names, canon, |names|) == joined + stray;
    AppendAssoc(canon.value.name + " (a.k.a ", joined, stray);
  }

  /**
   * The display name is "<unknown>" exactly when there are no name symbols,
   * or the sole name symbol is itself called "<unknown>"; with two or more
   * the text ends in ')' and so never is.
   */
  lemma LongNameUnknownIff(names: seq<Symbol>, canon: Option<Symbol>)
    requires |names| < 2 || canon.Some?
    ensures LongNameOf(names, canon) == "<unknown>" <==>
            |names| == 0 || (|names| == 1 && names[0].name == "<unknown>")
  {
    if |names| >= 2 {
      var r := LongNameOf(names, canon);
      assert r[|r| - 1] == ')';
      assert "<unknown>"[8] == '>';
    }
  }

  // ---------------------------------------------------------------------------
  // Exit blocks (Function::findExitBlocks)
  // ---------------------------------------------------------------------------

  /**
   * A labelled edge qualifies its source block as an exit when it is a return
   * or sysret, or a call or syscall whose target is not a code block of
   * `blocks`. Unlabelled edges and all other kinds never qualify.
   */
  predicate Qualifies(ir: Ir, e: Successor, blocks: set<Uuid>)
  {
    match e.edgeLabel
    case None => false
    case Some(l) =>
      l.kind == Return || l.kind == Sysret ||
      ((l.kind == Call || l.kind == Syscall) && !(IsCodeBlock(ir, e.target) && e.target in blocks))
  }

  /** `block` has some outgoing edge that qualifies it as an exit of `blocks`. */
  predicate IsExit(ir: Ir, block: Uuid, blocks: set<Uuid>)
  {
    exists k :: 0 <= k < |Successors(ir, block)| && Qualifies(ir, Successors(ir, block)[k], blocks)
  }

  /** The exit blocks of a function whose code blocks are `blocks`. */
  function ExitBlocksOf(ir: Ir, blocks: set<Uuid>): (r: set<Uuid>)
    ensures r <= blocks
    ensures blocks == {} ==> r == {}
  {
    set b | b in blocks && IsExit(ir, b, blocks)
  }

  /**
   * The classification rule of findExitBlocks spelled out edge by edge: a
   * block of `blocks` is an exit if and only if it has a labelled outgoing
   * edge that is a Return or Sysret, or a Call or Syscall whose target is not
   * a code block in `blocks`. In particular a block without successors never
   * is one.
   */
  lemma ExitBlocksIff(ir: Ir, blocks: set<Uuid>, b: Uuid)
    ensures b in ExitBlocksOf(ir, blocks) <==>
            b in blocks &&
            exists k :: 0 <= k < |Successors(ir, b)| &&
              var e := Successors(ir, b)[k];
              e.edgeLabel.Some? &&
              (e.edgeLabel.value.kind in {Return, Sysret} ||
               (e.edgeLabel.value.kind in {Call, Syscall} && (!IsCodeBlock(ir, e.target) || e.target !in blocks)))
    ensures Successors(ir, b) == [] ==> b !in ExitBlocksOf(ir, blocks)
  {
    if b in blocks && IsExit(ir, b, blocks) {
      var k :| 0 <= k < |Successors(ir, b)| && Qualifies(ir, Successors(ir, b)[k], blocks);
      assert Successors(ir, b)[k].edgeLabel.Some?;
    }
  }

  /**
   * A block with a Return or Sysret edge is an exit of any function holding
   * it, whatever else the function contains; a call target inside the
   * function, on the other hand, is what keeps a Call edge from qualifying.
   */
  lemma ReturnEdgeAlwaysExits(ir: Ir, blocks: set<Uuid>, b: Uuid, k: nat)
    requires b in blocks && k < |Successors(ir, b)|
    requires Successors(ir, b)[k].edgeLabel.Some?
    requires Successors(ir, b)[k].edgeLabel.value.kind in {Return, Sysret}
    ensures forall more: set<Uuid> :: b in ExitBlocksOf(ir, blocks + more)
  {
    forall more: set<Uuid> ensures b in ExitBlocksOf(ir, blocks + more) {
      assert Qualifies(ir, Successors(ir, b)[k], blocks + more);
    }
  }

  // ---------------------------------------------------------------------------
  // The facts build_functions derives for one entry of FunctionEntries
  // ---------------------------------------------------------------------------

  /** FunctionBlocks resolved for `fnId`: empty when the key is absent. */
  function AllBlocksOf(ir: Ir, blocksByFn: map<Uuid, set<Uuid>>, fnId: Uuid): set<Uuid>
  {
    if fnId in blocksByFn then ResolveCodeBlocks(ir, blocksByFn[fnId]) else {}
  }

  /** The symbols that refer to one of the resolved entry blocks. */
  function NameSymbolSetOf(ir: Ir, entryBlocks: set<Uuid>): set<Symbol>
  {
    set s | s in SymbolsReferring(ir, ir.symbols, entryBlocks)
  }

  /** FunctionNames resolved for `fnId`: absent when the key is absent or is not a symbol. */
  function CanonNameOf(ir: Ir, namesByFn: map<Uuid, Uuid>, fnId: Uuid): Option<Symbol>
  {
    if fnId in namesByFn then SymbolAt(ir, namesByFn[fnId]) else None
  }

  /** Building the function for `entry` would dereference a null canonical name in set_name. */
  predicate DereferencesNullName(ir: Ir, namesByFn: map<Uuid, Uuid>, entry: (Uuid, set<Uuid>))
  {
    |NameSymbolSetOf(ir, ResolveCodeBlocks(ir, entry.1))| >= 2 && CanonNameOf(ir, namesByFn, entry.0).None?
  }

  /** std::map iterates its keys in strictly increasing order. */
  predicate InKeyOrder(entries: seq<(Uuid, set<Uuid>)>)
  {
    forall i, j :: 0 <= i < j < |entries| ==> entries[i].0 < entries[j].0
  }

  datatype BuildError = NullCanonName(fnId: Uuid)

  /** `f` is the Function build_functions derives from `entry`. */
  predicate Describes(f: Function, ir: Ir, blocksByFn: map<Uuid, set<Uuid>>, namesByFn: map<Uuid, Uuid>,
                      entry: (Uuid, set<Uuid>))
  {
    && f.uuid == entry.0
    && f.entryBlocks == ResolveCodeBlocks(ir, entry.1)
    && f.allBlocks == AllBlocksOf(ir, blocksByFn, entry.0)
    && f.exitBlocks == ExitBlocksOf(ir, f.allBlocks)
    && DistinctIds(f.nameSymbols)
    && (set s | s in f.nameSymbols) == NameSymbolSetOf(ir, f.entryBlocks)
    && f.canonName == CanonNameOf(ir, namesByFn, entry.0)
    && (|f.nameSymbols| < 2 || f.canonName.Some?)
    && f.longName == LongNameOf(f.nameSymbols, f.canonName)
  }

  // ---------------------------------------------------------------------------
  // The class
  // ---------------------------------------------------------------------------

  /**
   * A function of a GTIRB module. Every field is fixed at construction: no
   * member changes a Function afterwards.
   */
  class Function {
    const uuid: Uuid
    const entryBlocks: set<Uuid>
    const exitBlocks: set<Uuid>
    const allBlocks: set<Uuid>
    /** The name symbols in iteration order. */
    const nameSymbols: seq<Symbol>
    const canonName: Option<Symbol>
    const longName: string

    /** Stores every argument as given and computes the display name by set_name. */
    constructor (uuid: Uuid, entries: set<Uuid>, exits: set<Uuid>, blocks: set<Uuid>,
                 names: seq<Symbol>, canonName: Option<Symbol> := None)
      requires DistinctIds(names)
      requires |names| < 2 || canonName.Some?
      ensures this.uuid == uuid && entryBlocks == entries && exitBlocks == exits && allBlocks == blocks
      ensures nameSymbols == names && this.canonName == canonName
      ensures longName == LongNameOf(names, canonName)
    {
      this.uuid := uuid;
      entryBlocks := entries;
      exitBlocks := exits;
      allBlocks := blocks;
      nameSymbols := names;
      this.canonName := canonName;
      var name := SetName(names, canonName);
      longName := name;
    }

    /**
     * set_name: "<unknown>" for no symbols, the sole name for one, and for
     * more the canonical name, " (a.k.a ", the others' names and ")".
     */
    static method SetName(names: seq<Symbol>, canonName: Option<Symbol>) returns (longName: string)
      requires |names| < 2 || canonName.Some?
      ensures longName == LongNameOf(names, canonName)
    {
      if |names| == 0 {
        return "<unknown>";
      }
      if |names| == 1 {
        return names[0].name;
      }
      longName := canonName.value.name;
      longName := longName + " (a.k.a ";
      longName := AppendAliases(names, canonName, longName);
      longName := longName + ")";
    }

    /**
     * set_name's loop: appends, for each symbol in iteration order other than
     * the canonical one, its name followed by ", " unless its position is the
     * last.
     */
    static method AppendAliases(names: seq<Symbol>, canonName: Option<Symbol>, head: string) returns (longName: string)
      ensures longName == head + AkaPart(names, canonName, |names|)
    {
      var i := 0;
      var length := |names|;
      longName := head;
      while i < length
        invariant 0 <= i <= length
        invariant longName == head + AkaPart(names, canonName, i)
      {
        var sym := names[i];
        ghost var before := longName;
        if !IsCanon(sym, canonName) {
          longName := longName + sym.name;
          if i + 1 < length {
            longName := longName + ", ";
          }
        }
        AkaPartStep(head, names, canonName, i, before, longName);
        i := i + 1;
      }
    }

    /** getName: the canonical name symbol, None when none was given. */
    function GetName(): (r: Option<Symbol>)
      ensures r == canonName
    {
      canonName
    }

    /** getLongName: the display name computed at construction. */
    function GetLongName(): (r: string)
      ensures r == longName
    {
      longName
    }

    /** getUUID: the id given at construction. */
    function GetUuid(): (r: Uuid)
      ensures r == uuid
    {
      uuid
    }

    /** entry_blocks(): the stored entry blocks. */
    function EntryBlocks(): (r: set<Uuid>)
      ensures r == entryBlocks
    {
      entryBlocks
    }

    /** exit_blocks(): the stored exit blocks. */
    function ExitBlocks(): (r: set<Uuid>)
      ensures r == exitBlocks
    {
      exitBlocks
    }

    /** all_blocks(): the stored code blocks. */
    function AllBlocks(): (r: set<Uuid>)
      ensures r == allBlocks
    {
      allBlocks
    }

    /** name_symbols(): the stored name symbols, in iteration order. */
    function NameSymbols(): (r: seq<Symbol>)
      ensures r == nameSymbols
    {
      nameSymbols
    }

    /**
     * findExitBlocks: the blocks of `blocks` that have a qualifying outgoing
     * edge; the scan of a block's edges stops at the first that qualifies.
     */
    static method FindExitBlocks(ir: Ir, blocks: set<Uuid>) returns (exits: set<Uuid>)
      ensures exits == ExitBlocksOf(ir, blocks)
    {
      exits := {};
      var todo := blocks;
      while todo != {}
        invariant todo <= blocks
        invariant exits == set b | b in blocks - todo && IsExit(ir, b, blocks)
        decreases todo
      {
        var block :| block in todo;
        var succs := Successors(ir, block);
        ghost var before := exits;
        var k := 0;
        while k < |succs|
          invariant 0 <= k <= |succs|
          invariant exits == before
          invariant forall j :: 0 <= j < k ==> !Qualifies(ir, succs[j], blocks)
        {
          var succ := succs[k];
          if succ.edgeLabel.Some? {
            var kind := succ.edgeLabel.value.kind;
            if kind == Return || kind == Sysret {
              exits := exits + {block};
              break;
            }
            if kind == Call || kind == Syscall {
              if IsCodeBlock(ir, succ.target) && succ.target in blocks {
              } else {
                exits := exits + {block};
                break;
              }
            }
          }
          k := k + 1;
        }
        assert block in exits <==> IsExit(ir, block, blocks);
        assert exits == before + (if IsExit(ir, block, blocks) then {block} else {});
        todo := todo - {block};
      }
    }

    /**
     * build_functions: one Function per entry of FunctionEntries, in table
     * order, with the resolved entry blocks, the symbols naming them, the
     * resolved FunctionBlocks (empty when absent), the exit blocks among them
     * and the resolved FunctionNames symbol. Ids that do not resolve to a node
     * of the expected kind are skipped. A function with two or more name
     * symbols but no canonical one makes set_name dereference null: the build
     * then fails at the first such function.
     */
    static method BuildFunctions(ir: Ir, entriesByFn: seq<(Uuid, set<Uuid>)>,
                                 blocksByFn: map<Uuid, set<Uuid>>, namesByFn: map<Uuid, Uuid>)
      returns (r: Result<seq<Function>, BuildError>)
      requires InKeyOrder(entriesByFn)
      ensures r.Failure? <==> exists i :: 0 <= i < |entriesByFn| && DereferencesNullName(ir, namesByFn, entriesByFn[i])
      ensures r.Failure? ==>
                exists i :: 0 <= i < |entriesByFn| && r.error == NullCanonName(entriesByFn[i].0) &&
                  DereferencesNullName(ir, namesByFn, entriesByFn[i]) &&
                  forall j :: 0 <= j < i ==> !DereferencesNullName(ir, namesByFn, entriesByFn[j])
      ensures r.Success? ==>
                |r.value| == |entriesByFn| &&
                forall i :: 0 <= i < |entriesByFn| ==>
                  fresh(r.value[i]) && Describes(r.value[i], ir, blocksByFn, namesByFn, entriesByFn[i])
    {
      var fns: seq<Function> := [];
      var n := 0;
      while n < |entriesByFn|
        invariant 0 <= n <= |entriesByFn|
        invariant |fns| == n
        invariant forall j :: 0 <= j < n ==> !DereferencesNullName(ir, namesByFn, entriesByFn[j])
        invariant forall j :: 0 <= j < n ==> fresh(fns[j])
        invariant forall j :: 0 <= j < n ==> Describes(fns[j], ir, blocksByFn, namesByFn, entriesByFn[j])
      {
        var fn := BuildFunction(ir, entriesByFn[n], blocksByFn, namesByFn);
        if fn.Failure? {
          assert DereferencesNullName(ir, namesByFn, entriesByFn[n]);
          return Failure(fn.error);
        }
        DescribesSnoc(fns, fn.value, ir, blocksByFn, namesByFn, entriesByFn, n);
        fns := fns + [fn.value];
        n := n + 1;
      }
      return Success(fns);
    }

    /**
     * The body of build_functions' loop for one entry of FunctionEntries:
     * resolve the entry blocks and their symbols, the function's blocks and
     * canonical name, find the exits, and construct the Function.
     */
    static method BuildFunction(ir: Ir, entry: (Uuid, set<Uuid>), blocksByFn: map<Uuid, set<Uuid>>,
                                namesByFn: map<Uuid, Uuid>)
      returns (r: Result<Function, BuildError>)
      ensures r.Failure? <==> DereferencesNullName(ir, namesByFn, entry)
      ensures r.Failure? ==> r.error == NullCanonName(entry.0)
      ensures r.Success? ==> fresh(r.value) && Describes(r.value, ir, blocksByFn, namesByFn, entry)
    {
      var (fnId, fnEntryIds) := entry;

      var entryBlocks, nameSymbols := ResolveEntries(ir, fnEntryIds);
      var fnBlocks: set<Uuid> := {};
      if fnId in blocksByFn {
        fnBlocks := ResolveBlocks(ir, blocksByFn[fnId]);
      }

      // Canonical name.
      var canonName: Option<Symbol> := None;
      if fnId in namesByFn {
        canonName := SymbolAt(ir, namesByFn[fnId]);
      }

      // Exit blocks.
      var exitBlocks: set<Uuid> := {};
      if fnBlocks != {} {
        exitBlocks := FindExitBlocks(ir, fnBlocks);
      }

      DistinctCardinality(nameSymbols);
      if |nameSymbols| >= 2 && canonName.None? {
        return Failure(NullCanonName(fnId));
      }
      var fn := new Function(fnId, entryBlocks, exitBlocks, fnBlocks, nameSymbols, canonName);
      return Success(fn);
    }

    /**
     * The entry-id loop of build_functions: the ids that resolve to code
     * blocks, and the set of symbols that refer to one of them, enumerated
     * without repetition.
     */
    static method ResolveEntries(ir: Ir, ids: set<Uuid>) returns (entryBlocks: set<Uuid>, nameSymbols: seq<Symbol>)
      ensures entryBlocks == ResolveCodeBlocks(ir, ids)
      ensures Distinct(nameSymbols) && DistinctIds(nameSymbols)
      ensures (set s | s in nameSymbols) == NameSymbolSetOf(ir, entryBlocks)
    {
      entryBlocks := {};
      nameSymbols := [];
      var todo := ids;
      while todo != {}
        invariant todo <= ids
        invariant entryBlocks == ResolveCodeBlocks(ir, ids - todo)
        invariant Distinct(nameSymbols)
        invariant (set s | s in nameSymbols) == NameSymbolSetOf(ir, entryBlocks)
        decreases todo
      {
        var id :| id in todo;
        if IsCodeBlock(ir, id) {
          ghost var prior := entryBlocks;
          entryBlocks := entryBlocks + {id};
          nameSymbols := InsertAll(nameSymbols, FindSymbols(ir, id));
          NameSymbolSetGrows(ir, prior, id);
        }
        todo := todo - {id};
      }
      assert ids - todo == ids;
      assert forall s :: s in nameSymbols ==> s in NameSymbolSetOf(ir, entryBlocks);
      ResolvedIdsDistinct(ir, nameSymbols);
    }

    /** `NameSymbols.insert(&s)` for each `s` of `found`: set union, no repetition. */
    static method InsertAll(syms: seq<Symbol>, found: seq<Symbol>) returns (r: seq<Symbol>)
      requires Distinct(syms)
      ensures Distinct(r)
      ensures (set s | s in r) == (set s | s in syms) + (set s | s in found)
    {
      r := syms;
      var k := 0;
      while k < |found|
        invariant 0 <= k <= |found|
        invariant Distinct(r)
        invariant (set s | s in r) == (set s | s in syms) + (set s | s in found[..k])
      {
        ghost var done := found[..k];
        ghost var next := found[..k + 1];
        assert next == done + [found[k]];
        assert (set s | s in next) == (set s | s in done) + {found[k]};
        ghost var seen := set s | s in r;
        if found[k] !in r {
          r := r + [found[k]];
        }
        assert (set s | s in r) == seen + {found[k]};
        k := k + 1;
      }
      assert found[..k] == found;
    }

    /** The block-id loop of build_functions: the ids that resolve to code blocks. */
    static method ResolveBlocks(ir: Ir, ids: set<Uuid>) returns (blocks: set<Uuid>)
      ensures blocks == ResolveCodeBlocks(ir, ids)
    {
      blocks := {};
      var rest := ids;
      while rest != {}
        invariant rest <= ids
        invariant blocks == ResolveCodeBlocks(ir, ids - rest)
        decreases rest
      {
        var id :| id in rest;
        if IsCodeBlock(ir, id) {
          blocks := blocks + {id};
        }
        rest := rest - {id};
      }
      assert ids - rest == ids;
    }
  }

  /** Appending the function built for entry n to those built for entries 0 .. n - 1. */
  lemma DescribesSnoc(fns: seq<Function>, f: Function, ir: Ir, blocksByFn: map<Uuid, set<Uuid>>,
                      namesByFn: map<Uuid, Uuid>, entries: seq<(Uuid, set<Uuid>)>, n: nat)
    requires n < |entries| && |fns| == n
    requires forall j :: 0 <= j < n ==> Describes(fns[j], ir, blocksByFn, namesByFn, entries[j])
    requires Describes(f, ir, blocksByFn, namesByFn, entries[n])
    ensures forall j :: 0 <= j < n + 1 ==> Describes((fns + [f])[j], ir, blocksByFn, namesByFn, entries[j])
  {
    forall j | 0 <= j < n + 1 ensures Describes((fns + [f])[j], ir, blocksByFn, namesByFn, entries[j]) {
      if j < n {
        assert (fns + [f])[j] == fns[j];
      }
    }
  }

  /**
   * Symbols resolved from the IR are determined by their ids, so an
   * enumeration without repeated values has no repeated ids either.
   */
  lemma ResolvedIdsDistinct(ir: Ir, syms: seq<Symbol>)
    requires Distinct(syms)
    requires forall s :: s in syms ==> SymbolAt(ir, s.uuid) == Some(s)
    ensures DistinctIds(syms)
  {
    forall i, j | 0 <= i < j < |syms| ensures syms[i].uuid != syms[j].uuid {
      assert SymbolAt(ir, syms[i].uuid) == Some(syms[i]) && SymbolAt(ir, syms[j].uuid) == Some(syms[j]);
    }
  }

  /** Adding an entry block adds exactly the symbols that refer to it. */
  lemma NameSymbolSetGrows(ir: Ir, entryBlocks: set<Uuid>, b: Uuid)
    ensures NameSymbolSetOf(ir, entryBlocks + {b}) ==
            NameSymbolSetOf(ir, entryBlocks) + (set s | s in FindSymbols(ir, b))
  {
    var lhs := NameSymbolSetOf(ir, entryBlocks + {b});
    var rhs := NameSymbolSetOf(ir, entryBlocks) + (set s | s in FindSymbols(ir, b));
    forall s ensures s in lhs <==> s in rhs {
      assert RefersTo(ir, s.uuid, entryBlocks + {b}) <==> RefersTo(ir, s.uuid, entryBlocks) || RefersTo(ir, s.uuid, {b});
    }
  }

  /**
   * Every function build_functions returns has its exit blocks among its own
   * code blocks, and no two returned functions share an id.
   */
  lemma BuiltFunctionsWellFormed(fns: seq<Function>, ir: Ir, entriesByFn: seq<(Uuid, set<Uuid>)>,
                                 blocksByFn: map<Uuid, set<Uuid>>, namesByFn: map<Uuid, Uuid>)
    requires InKeyOrder(entriesByFn) && |fns| == |entriesByFn|
    requires forall i :: 0 <= i < |fns| ==> Describes(fns[i], ir, blocksByFn, namesByFn, entriesByFn[i])
    ensures forall i :: 0 <= i < |fns| ==> fns[i].exitBlocks <= fns[i].allBlocks
    ensures forall i :: 0 <= i < |fns| ==> (entriesByFn[i].0 !in blocksByFn ==> fns[i].allBlocks == {} && fns[i].exitBlocks == {})
    ensures forall i, j :: 0 <= i < j < |fns| ==> fns[i].uuid != fns[j].uuid
  {
  }
}
