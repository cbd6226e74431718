/**
 * The fixtures of the repository's two test suites, and further worked
 * examples, stated as lemmas about the model.
 */
module Scenarios {
  import opened Gtirb
  import opened CppFunctions
  import PyFunctions

  function Label(kind: EdgeType, conditional: bool): Option<EdgeLabel>
  {
    Some(EdgeLabel(conditional, true, kind))
  }

  // ---------------------------------------------------------------------------
  // The C++ fixture: blocks 0..5, f1 = {0, 1, 2} entered at 0, f2 = {4, 5}
  // entered at 4; symbols f1 (100) and f2 (101) on the entry blocks.
  // ---------------------------------------------------------------------------

  const F1: Uuid := 200
  const F2: Uuid := 201

  function CppIr(): Ir
  {
    Ir(
      map[0 := CodeBlockNode, 1 := CodeBlockNode, 2 := CodeBlockNode,
          3 := CodeBlockNode, 4 := CodeBlockNode, 5 := CodeBlockNode,
          100 := SymbolNode("f1", Some(0)), 101 := SymbolNode("f2", Some(4))],
      map[0 := [Successor(1, Label(Fallthrough, false)), Successor(2, Label(Branch, true))],
          1 := [Successor(2, Label(Fallthrough, false))],
          2 := [Successor(3, Label(Return, false))],
          4 := [Successor(5, Label(Return, false))]],
      [100, 101])
  }

  function CppEntries(): seq<(Uuid, set<Uuid>)> { [(F1, {0}), (F2, {4})] }
  function CppBlocks(): map<Uuid, set<Uuid>> { map[F1 := {0, 1, 2}, F2 := {4, 5}] }
  function CppNames(): map<Uuid, Uuid> { map[F1 := 100, F2 := 101] }

  /** The exits the C++ test expects: {2} for f1 (its Return edge) and {4} for f2. */
  lemma {:induction false} CppFixtureExits()
    ensures ExitBlocksOf(CppIr(), {0, 1, 2}) == {2}
    ensures ExitBlocksOf(CppIr(), {4, 5}) == {4}
  {
    var ir := CppIr();
    assert Qualifies(ir, Successors(ir, 2)[0], {0, 1, 2});
    assert Qualifies(ir, Successors(ir, 4)[0], {4, 5});
    assert !IsExit(ir, 0, {0, 1, 2}) by {
      assert Successors(ir, 0) == [Successor(1, Label(Fallthrough, false)), Successor(2, Label(Branch, true))];
    }
    assert !IsExit(ir, 1, {0, 1, 2}) by {
      assert Successors(ir, 1) == [Successor(2, Label(Fallthrough, false))];
    }
    assert Successors(ir, 5) == [];
  }

  /**
   * Whatever build_functions returns for the fixture meets the C++ tests:
   * two functions with ids {f1, f2}, named by their symbols, each with its
   * one entry block, its one exit block and exactly its recorded blocks; and
   * the build does not fail.
   */
  lemma CppFixtureBuild(fns: seq<Function>)
    requires |fns| == 2
    requires forall i :: 0 <= i < 2 ==> Describes(fns[i], CppIr(), CppBlocks(), CppNames(), CppEntries()[i])
    ensures forall i :: 0 <= i < 2 ==> !DereferencesNullName(CppIr(), CppNames(), CppEntries()[i])
    ensures {fns[0].GetUuid(), fns[1].GetUuid()} == {F1, F2}
  {
    forall i | 0 <= i < 2 ensures !DereferencesNullName(CppIr(), CppNames(), CppEntries()[i]) {
      CppFixtureFunction(fns[i], i);
    }
    CppFixtureFunction(fns[0], 0);
    CppFixtureFunction(fns[1], 1);
  }

  /** Both fixture functions have a canonical name, so set_name never dereferences a null one. */
  lemma CppFixtureNoFailure()
    ensures forall i :: 0 <= i < |CppEntries()| ==> !DereferencesNullName(CppIr(), CppNames(), CppEntries()[i])
  {
    assert CanonNameOf(CppIr(), CppNames(), F1) == Some(Symbol(100, "f1"));
    assert CanonNameOf(CppIr(), CppNames(), F2) == Some(Symbol(101, "f2"));
  }

  /**
   * build_functions run on the C++ test tables: it succeeds with two
   * functions (TEST_SIZE), whose ids are f1 and f2.
   */
  method CppFixtureRun() returns (fns: seq<Function>)
    ensures |fns| == 2
    ensures {fns[0].GetUuid(), fns[1].GetUuid()} == {F1, F2}
  {
    var r := Function.BuildFunctions(CppIr(), CppEntries(), CppBlocks(), CppNames());
    CppFixtureNoFailure();
    assert r.Success?;
    fns := r.value;
    CppFixtureBuild(fns);
  }

  /** The function built for entry i of the C++ fixture (f1 for 0, f2 for 1). */
  lemma CppFixtureFunction(f: Function, i: nat)
    requires i < 2 && Describes(f, CppIr(), CppBlocks(), CppNames(), CppEntries()[i])
    ensures !DereferencesNullName(CppIr(), CppNames(), CppEntries()[i])
    ensures f.GetUuid() == if i == 0 then F1 else F2
    ensures f.GetName() == Some(if i == 0 then Symbol(100, "f1") else Symbol(101, "f2"))
    ensures f.GetLongName() == if i == 0 then "f1" else "f2"
    ensures f.EntryBlocks() == if i == 0 then {0} else {4}
    ensures f.ExitBlocks() == if i == 0 then {2} else {4}
    ensures f.AllBlocks() == if i == 0 then {0, 1, 2} else {4, 5}
  {
    CppFixtureExits();
    CppFixtureResolved();
    CppFixtureNames();
    SingletonEnumeration(f.nameSymbols, if i == 0 then Symbol(100, "f1") else Symbol(101, "f2"));
  }

  /** Every id of the C++ fixture's tables names a code block. */
  lemma CppFixtureResolved()
    ensures ResolveCodeBlocks(CppIr(), {0, 1, 2}) == {0, 1, 2}
    ensures ResolveCodeBlocks(CppIr(), {4, 5}) == {4, 5}
    ensures ResolveCodeBlocks(CppIr(), {0}) == {0}
    ensures ResolveCodeBlocks(CppIr(), {4}) == {4}
  {
  }

  /** Each entry block of the C++ fixture is named by its one symbol. */
  lemma CppFixtureNames()
    ensures NameSymbolSetOf(CppIr(), {0}) == {Symbol(100, "f1")}
    ensures NameSymbolSetOf(CppIr(), {4}) == {Symbol(101, "f2")}
  {
    var ir := CppIr();
    assert SymbolsReferring(ir, [101], {0}) == [];
    assert SymbolsReferring(ir, [100, 101], {0}) == [Symbol(100, "f1")];
    assert SymbolsReferring(ir, [101], {4}) == [Symbol(101, "f2")];
    assert SymbolsReferring(ir, [100, 101], {4}) == [Symbol(101, "f2")];
  }

  /** A duplicate-free enumeration of a one-element set is that element alone. */
  lemma SingletonEnumeration(s: seq<Symbol>, x: Symbol)
    requires Distinct(s) && (set y | y in s) == {x}
    ensures s == [x]
  {
    DistinctCardinality(s);
    assert s[0] in (set y | y in s);
  }

  /** An entry id that names no node is left out; the function keeps its other entries. */
  lemma UnresolvedEntrySkipped()
    ensures ResolveCodeBlocks(CppIr(), {0, 999}) == {0}
    ensures ResolveCodeBlocks(CppIr(), {100}) == {}
  {
    assert 999 !in CppIr().nodes;
  }

  /** A block whose only edge is a call out of the function is an exit. */
  lemma CallOutIsExit()
    ensures ExitBlocksOf(Ir(map[4 := CodeBlockNode, 5 := CodeBlockNode], map[4 := [Successor(5, Label(Call, false))]], []), {4}) == {4}
  {
    var ir := Ir(map[4 := CodeBlockNode, 5 := CodeBlockNode], map[4 := [Successor(5, Label(Call, false))]], []);
    assert Qualifies(ir, Successors(ir, 4)[0], {4});
  }

  /** A call whose target is a block of the same function is not an exit edge. */
  lemma CallInsideIsNotExit()
    ensures ExitBlocksOf(Ir(map[4 := CodeBlockNode, 5 := CodeBlockNode], map[4 := [Successor(5, Label(Call, false))]], []), {4, 5}) == {}
  {
    var ir := Ir(map[4 := CodeBlockNode, 5 := CodeBlockNode], map[4 := [Successor(5, Label(Call, false))]], []);
    assert !IsExit(ir, 4, {4, 5}) by {
      assert Successors(ir, 4) == [Successor(5, Label(Call, false))];
    }
    assert Successors(ir, 5) == [];
  }

  /** Two aliases f3 (canonical) and f4, f4 visited last: "f3 (a.k.a f4)". */
  lemma AliasLast()
    ensures LongNameOf([Symbol(3, "f3"), Symbol(4, "f4")], Some(Symbol(3, "f3"))) == "f3 (a.k.a f4)"
  {
    var f3, f4 := Symbol(3, "f3"), Symbol(4, "f4");
    assert AkaItem([f3, f4], Some(f3), 0) == "" && AkaItem([f3, f4], Some(f3), 1) == "f4";
    assert AkaPart([f3, f4], Some(f3), 1) == "";
    assert AkaPart([f3, f4], Some(f3), 2) == "f4";
  }

  /** The same two symbols with the canonical f3 visited last: "f3 (a.k.a f4, )". */
  lemma CanonLast()
    ensures LongNameOf([Symbol(4, "f4"), Symbol(3, "f3")], Some(Symbol(3, "f3"))) == "f3 (a.k.a f4, )"
  {
    var f3, f4 := Symbol(3, "f3"), Symbol(4, "f4");
    assert AkaItem([f4, f3], Some(f3), 0) == "f4, " && AkaItem([f4, f3], Some(f3), 1) == "";
    assert AkaPart([f4, f3], Some(f3), 1) == "f4, ";
    assert AkaPart([f4, f3], Some(f3), 2) == "f4, ";
  }

  // ---------------------------------------------------------------------------
  // The Python fixture: f1 = {0, 1, 2} entered at 0 (block 3 is the return
  // target, outside f1), f2 = {10} entered at 10 (block 11 outside).
  // ---------------------------------------------------------------------------

  function PyIr(): Ir
  {
    Ir(
      map[0 := CodeBlockNode, 1 := CodeBlockNode, 2 := CodeBlockNode, 3 := CodeBlockNode,
          10 := CodeBlockNode, 11 := CodeBlockNode,
          100 := SymbolNode("f1", Some(0)), 101 := SymbolNode("f2", Some(10))],
      map[0 := [Successor(1, Label(Fallthrough, false)), Successor(2, Label(Branch, true))],
          1 := [Successor(2, Label(Fallthrough, false))],
          2 := [Successor(3, Label(Return, false))],
          10 := [Successor(11, Label(Return, false))]],
      [100, 101])
  }

  /** The Python test's exit expectations: exits {2} and {10}, and no unlabelled edge. */
  lemma {:induction false} PyFixture()
    ensures PyFunctions.AllLabelled(PyIr(), {0, 1, 2}) && PyFunctions.AllLabelled(PyIr(), {10})
    ensures PyFunctions.ReturnExitsOf(PyIr(), {0, 1, 2}) == {2}
    ensures PyFunctions.ReturnExitsOf(PyIr(), {10}) == {10}
  {
    var ir := PyIr();
    assert PyFunctions.IsReturn(Successors(ir, 2)[0]);
    assert PyFunctions.IsReturn(Successors(ir, 10)[0]);
    assert !PyFunctions.HasReturnEdge(ir, 0) by {
      assert Successors(ir, 0) == [Successor(1, Label(Fallthrough, false)), Successor(2, Label(Branch, true))];
    }
    assert !PyFunctions.HasReturnEdge(ir, 1) by {
      assert Successors(ir, 1) == [Successor(2, Label(Fallthrough, false))];
    }
  }

  /** The Python test's name expectations: "f1" and "f2". */
  lemma PyFixtureNames()
    ensures PyFunctions.DisplayName(NamesOf(PyFunctions.NameSymbolsFor(PyIr(), {0}))) == "f1"
    ensures PyFunctions.DisplayName(NamesOf(PyFunctions.NameSymbolsFor(PyIr(), {10}))) == "f2"
  {
    var ir := PyIr();
    assert SymbolsReferring(ir, [101], {0}) == [];
    assert SymbolsReferring(ir, [100, 101], {0}) == [Symbol(100, "f1")];
    assert SymbolsReferring(ir, [101], {10}) == [Symbol(101, "f2")];
    assert SymbolsReferring(ir, [100, 101], {10}) == [Symbol(101, "f2")];
  }

  /** Two name symbols give "<unknown>" in Python, three give an unclosed a.k.a. list. */
  lemma PyNameArity()
    ensures PyFunctions.DisplayName(["f3", "f4"]) == "<unknown>"
    ensures PyFunctions.DisplayName(["a", "b", "c"]) == "a (a.k.a. b,c"
  {
    assert ["a", "b", "c"][1..] == ["b", "c"];
    assert ["b", "c"][..1] == ["b"];
  }
}
