# gtirb-functions in Dafny

This project models how gtirb-functions turns three GTIRB auxiliary-data tables into `Function` records, in both of the repository's implementations. The tables are FunctionEntries (function id → entry-block ids), FunctionBlocks (function id → block ids) and FunctionNames (function id → canonical-name symbol id).

- **C++ library.** `Function::build_functions` resolves the ids to code blocks and symbols, and skips ids that do not resolve. It collects the symbols that refer to an entry block and computes the exit blocks with `findExitBlocks`. It then builds one read-only `Function` per FunctionEntries key. Each Function's display name is computed by `set_name`.
- **Python package.** `Function.build_functions` passes the tables' contents through unresolved. `get_name` has its own arity rules. `get_exit_blocks` computes the blocks with a `Return` edge on first use and caches them.

The IR is reduced to values (module `Gtirb`). A node directory maps each UUID to a code block, a symbol (with name and optional referent) or some other node; this stands in for `Node::getByUUID` followed by `dyn_cast`. Each block maps to its CFG successors, and each successor carries an optional `(conditional, direct, EdgeType)` label. The module's symbols are listed in module order. `Module::findSymbols` and the Python `module.symbols` filter become functions over these. Code blocks are represented by their UUIDs and symbols by `(uuid, name)` values.

Both `Function` classes are Dafny classes. The C++ one has only `const` fields, which are set in the constructor and never changed. The Python one has one mutable field, the exit-block cache. The unordered sets the C++ code iterates are represented by duplicate-free sequences in iteration order, because `set_name`'s output depends on that order. Loops over sets pick elements in an unspecified order, just as the source's hash-set iteration does. The C++ code tells the canonical symbol apart by pointer comparison; since a symbol is fixed by its UUID, the model compares UUIDs, and the name symbols are duplicate-free by UUID as a set of pointers is.

Module layout:
- `gtirb.dfy`: the IR view, `Option`/`Result`, `Join`.
- `cpp_functions.dfy`: `src/gtirb_functions.cpp` and `include/gtirb_functions/gtirb_functions.hpp`.
- `py_functions.dfy`: `gtirb_functions/function.py`.
- `scenarios.dfy`: the two test suites' fixtures and worked examples.

Behaviour of the code worth knowing, which the model reproduces:
- **Null canonical name.** With two or more name symbols and no canonical name, the code dereferences a null `CanonName` (src/gtirb_functions.cpp:18). The model makes the C++ build fail at the first such function (`BuildError.NullCanonName`).
- **Trailing separator.** The C++ a.k.a. list is not always a clean comma list. A stray `", "` precedes `')'` when the canonical symbol is the last one iterated (`CppFunctions.AkaPartShape`, `Scenarios.CanonLast`). So the text depends on hash-set order.
- **Missing FunctionBlocks entry in Python.** gtirb_functions/function.py:49 indexes functionBlocks directly, so a missing key raises `KeyError`. The C++ build gives the function empty blocks instead (src/gtirb_functions.cpp:95-105).
- **Python arity rules.** In Python, two name symbols give `"<unknown>"`, and more than two give an unclosed `"first (a.k.a. a,b"`.

## Model

| member | source | states |
|---|---|---|
| `Gtirb.SymbolAt` | src/gtirb_functions.cpp:107-112 | resolving an id as a symbol gives that symbol (id and name) exactly when the id names a symbol node, and nothing otherwise |
| `Gtirb.SymbolsReferring` | gtirb_functions/function.py:50-57 | the selected symbols are exactly the listed symbols whose referent is set and is one of the targets, and no duplicate is introduced |
| `Gtirb.SymbolsReferringAppend` | gtirb_functions/function.py:50-57 | the filter keeps module order: selecting from a concatenation gives the selection from the first part followed by that from the second |
| `Gtirb.SymbolsReferringOne` | gtirb_functions/function.py:53-54 | a single symbol is kept, with its name, exactly when its referent is set and is a target; with the concatenation lemma this fixes the result completely |
| `Gtirb.SymbolsReferringNone` | gtirb_functions/function.py:50-57 | when no listed symbol refers to a target, nothing is selected |
| `Gtirb.FirstSymbolReferring` | gtirb_functions/function.py:50-57 | the first selected symbol is the first listed symbol that refers to a target |
| `CppFunctions.OthersMembers` | src/gtirb_functions.cpp:20-21 | the names listed after "a.k.a" belong exactly to the name symbols that are not the canonical one (compared by identity, as the pointer test does) |
| `CppFunctions.OthersListsEachOnce` | src/gtirb_functions.cpp:20-28 | for distinct symbols, each non-canonical symbol is listed once; the list is one shorter than the set exactly when the canonical symbol is in it |
| `CppFunctions.AkaPartBeforeLast` | src/gtirb_functions.cpp:20-28 | until the loop reaches the last position, every listed name has been followed by ", " |
| `CppFunctions.AkaPartShape` | src/gtirb_functions.cpp:16-28 | the a.k.a. text is the ", "-join of the other names in iteration order, plus a stray ", " exactly when the canonical symbol is iterated last and some name was listed |
| `CppFunctions.LongNameAka` | src/gtirb_functions.cpp:15-30 | with two or more symbols the display name is the canonical name, " (a.k.a ", the joined other names, ", " if the canonical symbol (by identity) is last, and ")" |
| `CppFunctions.LongNameUnknownIff` | src/gtirb_functions.cpp:8-14 | the display name is "<unknown>" exactly when there are no name symbols or the sole one is named "<unknown>" |
| `CppFunctions.ExitBlocksOf` | src/gtirb_functions.cpp:33-65 | the exit blocks are a subset of the function's blocks, and empty when the blocks are |
| `CppFunctions.ExitBlocksIff` | src/gtirb_functions.cpp:42-63 | a block is an exit iff it is in the set and has a labelled Return/Sysret edge, or a labelled Call/Syscall edge whose target is not a code block of the set; a block without successors is never an exit |
| `CppFunctions.ReturnEdgeAlwaysExits` | src/gtirb_functions.cpp:49-52 | a block with a labelled Return or Sysret edge stays an exit however many blocks the function has |
| `CppFunctions.NameSymbolSetGrows` | src/gtirb_functions.cpp:87-92 | resolving one more entry block adds exactly the symbols `findSymbols` returns for it to the name symbols |
| `CppFunctions.BuiltFunctionsWellFormed` | src/gtirb_functions.cpp:95-121 | in every built function the exits are among its blocks; a function missing from FunctionBlocks has no blocks and no exits; ids are pairwise distinct |
| `CppFunctions.Function.constructor` | include/gtirb_functions/gtirb_functions.hpp:59-65 | stores id, entry, exit, all-block and name-symbol sets and the canonical name as given (canonical name defaults to None); the display name is the one set_name computes |
| `CppFunctions.Function.SetName` | src/gtirb_functions.cpp:7-31 | the switch on the number of name symbols yields exactly the display name LongNameOf describes, for the name symbols in iteration order |
| `CppFunctions.Function.AppendAliases` | src/gtirb_functions.cpp:16-28 | the loop with counter i appends to the text exactly the a.k.a. part AkaPart describes for all positions |
| `CppFunctions.Function.GetName` | include/gtirb_functions/gtirb_functions.hpp:166-167 | returns the stored canonical symbol (None when none was given) |
| `CppFunctions.Function.GetLongName` | include/gtirb_functions/gtirb_functions.hpp:171 | returns the display name computed at construction |
| `CppFunctions.Function.GetUuid` | include/gtirb_functions/gtirb_functions.hpp:174 | returns the id given at construction |
| `CppFunctions.Function.EntryBlocks` | include/gtirb_functions/gtirb_functions.hpp:102-107 | enumerates exactly the stored entry blocks |
| `CppFunctions.Function.ExitBlocks` | include/gtirb_functions/gtirb_functions.hpp:119-124 | enumerates exactly the stored exit blocks |
| `CppFunctions.Function.AllBlocks` | include/gtirb_functions/gtirb_functions.hpp:134-137 | enumerates exactly the stored blocks |
| `CppFunctions.Function.NameSymbols` | include/gtirb_functions/gtirb_functions.hpp:158-163 | enumerates exactly the stored name symbols |
| `CppFunctions.Function.FindExitBlocks` | src/gtirb_functions.cpp:33-65 | the nested loops with `break` return exactly the blocks ExitBlocksOf specifies |
| `CppFunctions.Function.ResolveEntries` | src/gtirb_functions.cpp:85-93 | entry ids that resolve to code blocks are kept, the others skipped; the name symbols are the union of `findSymbols` over the kept entry blocks, without repetition of a value or an id |
| `CppFunctions.ResolvedIdsDistinct` | src/gtirb_functions.cpp:88-90 | symbols resolved from the IR are fixed by their id, so a set of them without repeated values has no repeated ids, as a set of pointers has |
| `CppFunctions.Function.InsertAll` | src/gtirb_functions.cpp:88-90 | inserting each found symbol gives the set union and keeps the enumeration duplicate-free |
| `CppFunctions.Function.ResolveBlocks` | src/gtirb_functions.cpp:97-104 | block ids that resolve to code blocks are kept, the others skipped |
| `CppFunctions.Function.BuildFunction` | src/gtirb_functions.cpp:79-121 | for one FunctionEntries entry, fails exactly when set_name would dereference a null canonical name, and otherwise yields a fresh Function that Describes the entry |
| `CppFunctions.Function.BuildFunctions` | src/gtirb_functions.cpp:67-125 | on success, one fresh Function per FunctionEntries key in table order, with that key as id, resolved entries, the symbols naming them, resolved FunctionBlocks (empty when absent), exits among those blocks (empty when none), the resolved FunctionNames symbol, and its display name; when some function has two or more name symbols and no canonical symbol, the build fails at the first one |
| `PyFunctions.ReturnExitsOf` | gtirb_functions/function.py:87-93 | the Python exit blocks are the blocks with a Return edge, hence a subset of all blocks |
| `PyFunctions.Function.constructor` | gtirb_functions/function.py:21-38 | stores uuid, entry blocks, blocks and name symbols as given, with the exit-block cache empty |
| `PyFunctions.Function.GetName` | gtirb_functions/function.py:68-77 | one symbol gives its name; zero or exactly two give "<unknown>"; more than two give the first name, " (a.k.a. " and the other names joined by "," |
| `PyFunctions.HeadNameSymbol` | gtirb_functions/function.py:50-57 | the head name get_name shows is that of the first module symbol whose referent is an entry block |
| `PyFunctions.Function.GetEntryBlocks` | gtirb_functions/function.py:79-82 | returns the entry blocks given at construction |
| `PyFunctions.Function.GetAllBlocks` | gtirb_functions/function.py:97-100 | returns the blocks given at construction |
| `PyFunctions.Function.GetExitBlocks` | gtirb_functions/function.py:84-95 | a filled cache is returned unchanged, with nothing recomputed; otherwise the call succeeds iff every edge is labelled, and then returns and caches exactly the Return-edge blocks; an unlabelled edge raises AttributeError and leaves a partial cache |
| `PyFunctions.Function.BuildFunctions` | gtirb_functions/function.py:40-66 | one fresh Function per functionEntries item, in item order, with the item's key, its entry blocks, its functionBlocks entry and the module's symbols referring to an entry block; a key missing from functionBlocks raises KeyError at the first such item |
| `PyFunctions.DisplayNameUnknownIff` | gtirb_functions/function.py:72-77 | get_name gives "<unknown>" exactly for zero or two names, or a sole name that is "<unknown>" |
| `PyFunctions.DisplayNameUnclosed` | gtirb_functions/function.py:74-75 | with more than two names the text starts with the first name and " (a.k.a. " and ends with the last name, so no ')' is added |
| `PyFunctions.ReturnExitsAreExits` | gtirb_functions/function.py:87-93 | every Python exit block is also a C++ exit block of the same block set |
| `Scenarios.CppFixtureExits` | src/test/gtirb-functions.test.cpp:119-126 | the C++ test CFG gives exits {B2} for f1 and {B4} for f2 |
| `Scenarios.CppFixtureNoFailure` | src/test/gtirb-functions.test.cpp:142 | both test functions have a canonical name, so the build cannot fail on them |
| `Scenarios.CppFixtureRun` | src/test/gtirb-functions.test.cpp:142 | running build_functions on the test tables yields two functions (TEST_SIZE) with the ids f1 and f2 |
| `Scenarios.CppFixtureBuild` | src/test/gtirb-functions.test.cpp:142-163 | on the test tables no entry makes the build fail, and any two functions matching BuildFunctions' contract have the ids {f1, f2} |
| `Scenarios.CppFixtureFunction` | src/test/gtirb-functions.test.cpp:144-198 | the function built for each test entry has its symbol as name, f1 or f2 as display name, its one entry block, its one exit block and exactly its recorded blocks |
| `Scenarios.UnresolvedEntrySkipped` | src/gtirb_functions.cpp:85-87 | an entry id that names no node, or names a symbol, is skipped while the other entries stay |
| `Scenarios.CallOutIsExit` | src/gtirb_functions.cpp:53-58 | a block whose only edge is a Call to a block outside the function is an exit |
| `Scenarios.CallInsideIsNotExit` | src/gtirb_functions.cpp:53-55 | a Call to a block of the same function does not make its source an exit |
| `Scenarios.AliasLast` | src/gtirb_functions.cpp:15-30 | canonical f3 with alias f4 gives "f3 (a.k.a f4)" when f4 is iterated last |
| `Scenarios.CanonLast` | src/gtirb_functions.cpp:15-30 | the same symbols give "f3 (a.k.a f4, )" when the canonical f3 is iterated last |
| `Scenarios.PyFixture` | tests/test_functions.py:65-79 | the Python test CFG gives exits {2} and {10} with no unlabelled edge |
| `Scenarios.PyFixtureNames` | tests/test_functions.py:65-79 | the Python test's functions are named "f1" and "f2" |
| `Scenarios.PyNameArity` | gtirb_functions/function.py:72-77 | two names give "<unknown>"; three give "a (a.k.a. b,c" |

## Left out

- GTIRB's own code is not part of this model. That covers `Node::getByUUID`, `dyn_cast`, `Module::findSymbols`, `cfgSuccessors`, `getAuxData`, `Context` and the Python `gtirb` objects. The IR is given as the value described above. An id missing from the node directory is treated like an id of the wrong kind and skipped. What GTIRB's `dyn_cast` really does with the null pointer that `getByUUID` returns for an unknown id is part of the library, not of this model.
- The model assumes the aux-data tables exist. The C++ code dereferences the tables without a null check, and the Python code indexes `module.aux_data` directly. So the three tables are taken as given values.
- The order of FunctionEntries is abstracted. As a `std::map` it iterates in key order; the model keeps this as the precondition `InKeyOrder` on the entry list, with UUIDs as naturals. The Python dict order is the list order.
- `CppFunctions.Function.BuildFunctions`: it promises the name symbols only as a duplicate-free enumeration of the right set, not any particular order. That is because `std::unordered_set` iteration order is unspecified. The display name is proved for whatever order results.
- `CppFunctions.Describes`: it ties the display name to the same enumeration that `NameSymbols` returns. In the source, `set_name` walks the constructor's copy of the set, and `Fns.push_back(Fn)` (src/gtirb_functions.cpp:121) copies the `unordered_set` again. The C++ standard does not promise that a copy iterates in the same order, so the source may show names in a different order from the one its display name used.
- Python object aliasing is not modelled; the model has value semantics. `get_entry_blocks` and `get_all_blocks` return the very set objects taken from the aux-data tables (gtirb_functions/function.py:49, :61-62), and `get_exit_blocks` returns the cache object itself. A caller who mutates one of these changes the function or the table. The model's sets are values, so it cannot show that.
- `PyFunctions.Function.GetExitBlocks`: after an AttributeError it states only that the cache holds some subset of the Return-edge blocks. Which blocks were added before the failure depends on Python's set iteration order.
- `CppFunctions.Function.constructor`: Dafny has no private constructors. In the model only `BuildFunctions` calls it, which matches the source, where the constructor is private.
- `CppFunctions.Function.SetName` is a static method whose result the constructor stores; its loop is the helper `AppendAliases`. In the source it is a member that writes `LongName`. Making the field `const` is what states that nothing changes a Function after construction.
- The separate `const` and non-`const` overloads of the accessors and iterators collapse into one function each. Left out with them: the `*_begin`/`*_end` iterator pairs, Boost ranges, and the `const Symbol*` to `Symbol*` conversion.
- The caveat that mutating the Module invalidates a Function is a caller contract, not checkable behaviour.
- The Python constructor's default `None` arguments are not modelled; `build_functions` always passes all four. So is `Function.__repr__`, which is debug formatting over byte-interval addresses.
- The Python test reads `fun.uuid`, which gtirb_functions/function.py does not define. The model exposes the stored `uuid` field only.
- Also not modelled: the superseded drafts `gtirb_functions.h`, `cpp/include/gtirb_functions/gtirb_functions.hpp`, `cpp/src/gtirb_functions.cpp` and `cpp/src/test/gtirb-functions.test.cpp`, which do not compile. Also left out are the packaging files `conanfile.py` and `setup.py`, and the test harness in `src/test/main.test.cpp`.
