# Scope and reference resolution of the srclib C++ and Clojure front-ends, and RawDependency

A Dafny model of three pieces of the srclib toolchain:

- the C++ front-end's parse-tree listener (`CPPParseTreeListener`): a scope context, a
  type stack with an UNKNOWN sentinel, a stack of callees whose resolution waits for the
  call, the current class, a type-info registry keyed by (kind, name), and a sink of
  definitions and references keyed by dotted paths;
- the Clojure front-end's listener (`ClojureParseTreeListener`): function scopes, symbol
  lookup, and the two-pass gate that lets definitions through on the first pass and
  references on the second;
- `RawDependency`: its constructor, `equals`, `hashCode` and `toString`.

Files:

- `wrappers.dfy`: `Option`.
- `scopes.dfy`: scopes, def-key paths (`getPathTo`), anonymous child scopes (`next`), the
  scope stack and its innermost-first lookup.
- `signatures.dfy`: arity-only signatures `_,_,…`, call-keys `name(signature)`, the
  constructor name of a class path, and the `getSignature`/`getRepresentation` and
  `signature`/`processSignature` loops.
- `type_infos.dfy`: the registry of type infos (data scope and properties per type path).
- `cpp_model.dfy`: the records, type-stack entries and event inputs of the C++ listener, and
  pure functions for what a declaration records and how an expression resolves, with the
  lemmas about them.
- `cpp_listener.dfy`: the C++ listener as a class whose fields are its state, one method
  per handler; each method states its whole new state and keeps `Valid()`: the root scope
  stays at the bottom, the current class is registered, every registry entry holding a
  variable has a data scope, and every bound name has a definition at its path.
  A function's own scope is entered under the prefix of the scope the function is defined
  in, so it sits beside that scope: in `class A { void m(int x) {} };` the method is defined
  at `A.m(_)` but its parameter at `m(_).x`, the same path as the parameter of a method
  `m(int x) {}` of any sibling class (`SiblingMethodsShareParameterPaths`; see "Findings").
- `clojure_listener.dfy`: the Clojure listener as a step function over its state, the
  theorem that a second pass over the same tree only references what the first pass
  defined, and the listener class whose handlers are proved to take exactly that step.
- `raw_dependency.dfy`: `RawDependency` as a value with Java's null strings and 32-bit
  `int` arithmetic written out.

## Model

| member | source | states |
|---|---|---|
| Scopes.PathToInjective | toolchain-cpp/src/main/java/com/sourcegraph/toolchain/cpp/CPPParseTreeListener.java:83 | two names reached from the same scope have the same def-key path exactly when they are the same name |
| Scopes.PathToInjectiveInPath | toolchain-cpp/src/main/java/com/sourcegraph/toolchain/cpp/CPPParseTreeListener.java:139-143 | one name reached from two scopes has the same path exactly when the scopes have the same path |
| Scopes.Put | toolchain-cpp/src/main/java/com/sourcegraph/toolchain/cpp/CPPParseTreeListener.java:155 | binding a name sets it and leaves the prefix, the path, the counter and every other binding as they were (last write wins) |
| Scopes.Next | toolchain-cpp/src/main/java/com/sourcegraph/toolchain/cpp/CPPParseTreeListener.java:62-65 | an unnamed namespace bumps the parent's counter, keeps its prefix, path and bindings, and gets an empty scope under the parent's path named by the old counter |
| Scopes.DecimalRoundTrip | toolchain-cpp/src/main/java/com/sourcegraph/toolchain/cpp/CPPParseTreeListener.java:62-65 | the decimal name of an anonymous scope reads back as the counter it was made from |
| Scopes.AnonymousPathsDistinct | toolchain-cpp/src/main/java/com/sourcegraph/toolchain/cpp/CPPParseTreeListener.java:62-65 | anonymous children minted with different counters under one parent have different paths |
| Scopes.NextIsFresh | toolchain-cpp/src/main/java/com/sourcegraph/toolchain/cpp/CPPParseTreeListener.java:62-65 | two unnamed namespaces entered one after the other in the same scope get different paths |
| Scopes.Lookup | toolchain-cpp/src/main/java/com/sourcegraph/toolchain/cpp/CPPParseTreeListener.java:192-193 | the innermost scope binding the name, with its value, and no scope above it binds the name; None only when no scope binds it |
| Signatures.PlaceholdersShape | toolchain-cpp/src/main/java/com/sourcegraph/toolchain/cpp/CPPParseTreeListener.java:760-772 | n parameters give a signature of length 2n-1 (0 for none), with `_` at even and `,` at odd positions |
| Signatures.PlaceholdersCount | toolchain-cpp/src/main/java/com/sourcegraph/toolchain/cpp/CPPParseTreeListener.java:760-772 | the signature holds exactly n underscores and n-1 commas |
| Signatures.PlaceholdersInjective | toolchain-cpp/src/main/java/com/sourcegraph/toolchain/cpp/CPPParseTreeListener.java:760-772 | signatures of different arities differ |
| Signatures.GetSignature | toolchain-cpp/src/main/java/com/sourcegraph/toolchain/cpp/CPPParseTreeListener.java:760-772 | the parameters' tokens joined by `,`; when every token is `_` that is the n-placeholder signature |
| Signatures.GetRepresentation | toolchain-cpp/src/main/java/com/sourcegraph/toolchain/cpp/CPPParseTreeListener.java:746-758 | the parameters' display forms joined by `, ` |
| Signatures.CallSignature | toolchain-cpp/src/main/java/com/sourcegraph/toolchain/cpp/CPPParseTreeListener.java:665-685 | one `_` per initializer clause joined by `,`, and the empty signature without an expression list |
| Signatures.CallKeyInjective | toolchain-cpp/src/main/java/com/sourcegraph/toolchain/cpp/CPPParseTreeListener.java:140 | a call-key determines both the function name and the signature |
| Signatures.CallKeyMatchesArity | toolchain-cpp/src/main/java/com/sourcegraph/toolchain/cpp/CPPParseTreeListener.java:708 | a call's key equals a declaration's key exactly when the names agree and the argument count equals the parameter count |
| Signatures.LastIndexOf | toolchain-cpp/src/main/java/com/sourcegraph/toolchain/cpp/CPPParseTreeListener.java:698 | the last position holding the character, with none after it; None when absent |
| Signatures.ConstructorName | toolchain-cpp/src/main/java/com/sourcegraph/toolchain/cpp/CPPParseTreeListener.java:697-703 | the suffix of the class path after its last `.`, containing no `.`, or the whole path when it has none |
| Signatures.ConstructorNameOfPath | toolchain-cpp/src/main/java/com/sourcegraph/toolchain/cpp/CPPParseTreeListener.java:697-703 | the constructor name of a class path `prefix.Name` is the declared simple name `Name` |
| TypeInfos.Get | toolchain-cpp/src/main/java/com/sourcegraph/toolchain/cpp/CPPParseTreeListener.java:240 | an entry exactly when the path is registered |
| TypeInfos.SetData | toolchain-cpp/src/main/java/com/sourcegraph/toolchain/cpp/CPPParseTreeListener.java:95 | the entry exists afterwards with the given data scope and its properties kept; other entries unchanged |
| TypeInfos.SetProperty | toolchain-cpp/src/main/java/com/sourcegraph/toolchain/cpp/CPPParseTreeListener.java:659 | the entry exists afterwards, the property reads back as written, every other property, the data scope and every other entry are unchanged |
| TypeInfos.FunctionPropKeepsData | toolchain-cpp/src/main/java/com/sourcegraph/toolchain/cpp/CPPParseTreeListener.java:157 | recording a function property never leaves a registry entry with variables but no data scope |
| CppModel.ToParameters | toolchain-cpp/src/main/java/com/sourcegraph/toolchain/cpp/CPPParseTreeListener.java:579-606 | one collected parameter per declared one, in the order `processFunctionParameters` visits them (the list node's own parameter before the nested list), with its name and type, and every signature token `_` |
| CppModel.BindParams | toolchain-cpp/src/main/java/com/sourcegraph/toolchain/cpp/CPPParseTreeListener.java:153-157 | the function scope binds exactly the parameter names |
| CppModel.ParamBound | toolchain-cpp/src/main/java/com/sourcegraph/toolchain/cpp/CPPParseTreeListener.java:153-157 | a parameter that no later parameter shadows is bound to its declared type |
| CppModel.ParamDefsCover | toolchain-cpp/src/main/java/com/sourcegraph/toolchain/cpp/CPPParseTreeListener.java:153-157 | a parameter definition is emitted at `function.name` exactly for the parameter names |
| CppModel.FunctionScopeDefined | toolchain-cpp/src/main/java/com/sourcegraph/toolchain/cpp/CPPParseTreeListener.java:139-157 | entering the function scope with its parameters bound, after their definitions, keeps every bound name defined |
| CppModel.BindNames | toolchain-cpp/src/main/java/com/sourcegraph/toolchain/cpp/CPPParseTreeListener.java:465-486 | the scope binds its old names plus exactly the declarators that have an identifier, each of those to `Variable` of the declaration's type, and keeps every other binding |
| CppModel.NameDefsCover | toolchain-cpp/src/main/java/com/sourcegraph/toolchain/cpp/CPPParseTreeListener.java:476-486 | a definition is emitted at `scope.name` exactly for the declarators with an identifier |
| CppModel.DeclaratorsDefined | toolchain-cpp/src/main/java/com/sourcegraph/toolchain/cpp/CPPParseTreeListener.java:476-486 | binding declarators in the current scope, after their definitions, keeps every bound name defined |
| CppModel.RecordNames | toolchain-cpp/src/main/java/com/sourcegraph/toolchain/cpp/CPPParseTreeListener.java:646-660 | recording member declarators touches only the class's entry and keeps its data scope; each named declarator reads back as a variable property with the declaration's type, every other variable property is unchanged |
| CppModel.BindMembers | toolchain-cpp/src/main/java/com/sourcegraph/toolchain/cpp/CPPParseTreeListener.java:611-641 | the class scope binds exactly the names of all member declarators, each to the type of its last declaration in visit order, and keeps every other binding |
| CppModel.MemberType | toolchain-cpp/src/main/java/com/sourcegraph/toolchain/cpp/CPPParseTreeListener.java:611-660 | a member name has a type exactly when some declaration of the class body names it |
| CppModel.RecordMembers | toolchain-cpp/src/main/java/com/sourcegraph/toolchain/cpp/CPPParseTreeListener.java:611-641 | recording a class body touches only the class's entry and keeps its data scope; each member reads back as a variable property with the type of its last declaration, every other variable property is unchanged |
| CppModel.RecordMembersProps | toolchain-cpp/src/main/java/com/sourcegraph/toolchain/cpp/CPPParseTreeListener.java:646-660 | after a class body the class has a variable property for a name exactly when it had one before or a member declares it |
| CppModel.MemberRecordsCover | toolchain-cpp/src/main/java/com/sourcegraph/toolchain/cpp/CPPParseTreeListener.java:646-660 | every declared member has a definition emitted at `class.member` |
| CppModel.ClassMembersRecorded | toolchain-cpp/src/main/java/com/sourcegraph/toolchain/cpp/CPPParseTreeListener.java:646-660 | every declared member is bound in the class scope, recorded as a variable property of the class path, and defined at `class.member` |
| CppModel.ClassScopeDefined | toolchain-cpp/src/main/java/com/sourcegraph/toolchain/cpp/CPPParseTreeListener.java:72-101 | entering the class scope with its members bound, after their definitions, keeps every bound name defined |
| CppModel.ResolveName | toolchain-cpp/src/main/java/com/sourcegraph/toolchain/cpp/CPPParseTreeListener.java:190-221 | a hit gives the innermost binding's type and a reference at that scope's path; a miss references a registered type: the bare name if registered, else the name under the current scope's path; UNKNOWN, with no reference, exactly when none of these exists |
| CppModel.ResolvedRefIsDefined | toolchain-cpp/src/main/java/com/sourcegraph/toolchain/cpp/CPPParseTreeListener.java:190-221 | a reference emitted for an identifier points at a definition already emitted or at a registered type |
| CppModel.MemberAccess | toolchain-cpp/src/main/java/com/sourcegraph/toolchain/cpp/CPPParseTreeListener.java:231-265 | UNKNOWN without a registry entry for the receiver; the receiver itself for a call; otherwise the variable property's type with a reference under the receiver's data scope, or UNKNOWN when the property is missing |
| CppModel.MemberRefHasDef | toolchain-cpp/src/main/java/com/sourcegraph/toolchain/cpp/CPPParseTreeListener.java:231-262 | for `obj.n` with `obj` of class `p`: a member declared with a type gives that type and a reference to `p.n`, the path at which the class body defined it; anything else gives UNKNOWN and no reference |
| CppModel.CallTarget | toolchain-cpp/src/main/java/com/sourcegraph/toolchain/cpp/CPPParseTreeListener.java:705-740 | the function property of the class in `className` decides first, with a reference under that class's data scope; failing that a constructor resolves to its class and any other call to the function property of the given entry, with a reference under that entry's data scope or the root; UNKNOWN exactly when nothing is emitted, never the null type |
| CppModel.CallOutcome | toolchain-cpp/src/main/java/com/sourcegraph/toolchain/cpp/CPPParseTreeListener.java:687-740 | a null callee pushes and emits nothing; any other callee is resolved by `CallTarget` under the call-key of the callee's name (the class's simple name for a constructor) and the signature, pushing exactly one type |
| CppModel.PlainCallSite | toolchain-cpp/src/main/java/com/sourcegraph/toolchain/cpp/CPPParseTreeListener.java:317-341 | a callee naming a registered type, bare or else under the current scope's path, is a constructor call of exactly that class, against its entry; anything else resolves against the current class and the root entry |
| CppModel.CtorCallMatchesCtorDef | toolchain-cpp/src/main/java/com/sourcegraph/toolchain/cpp/CPPParseTreeListener.java:697-740 | with the callee `C` on top of the callee stack, a constructor call of a class `p` declared as `C` references the path `p.C(_,…)` of the constructor `C` with as many parameters as the call has arguments |
| CppModel.FreeCallMatchesDefinition | toolchain-cpp/src/main/java/com/sourcegraph/toolchain/cpp/CPPParseTreeListener.java:718-735 | with the callee on top of the callee stack, a call of a root-level function with as many arguments as parameters pushes its return type and references its definition path |
| CppModel.MethodCallMatchesDefinition | toolchain-cpp/src/main/java/com/sourcegraph/toolchain/cpp/CPPParseTreeListener.java:705-740 | inside class `c`, with the callee `m` on top of the callee stack, a plain call `m(args)` of a method `c` declares with as many parameters is not a constructor call, is looked up in `c` first, pushes the method's return type and references `c.m(_,…)`, where the method was defined |
| CppModel.ReceiverCallMatchesDefinition | toolchain-cpp/src/main/java/com/sourcegraph/toolchain/cpp/CPPParseTreeListener.java:297-312 | a member call `a.f(args)` looked up in the entry of the receiver's class `a`, which declares `f` with as many parameters, pushes the method's return type and references `a.f(_,…)`, where the method was defined |
| CppModel.SiblingMethodsShareParameterPaths | toolchain-cpp/src/main/java/com/sourcegraph/toolchain/cpp/CPPParseTreeListener.java:139-155 | methods with the same call-key in sibling classes have different definition paths but define their parameters at the same paths, because the function scope is entered under the enclosing scope's prefix |
| CppModel.IntendedFunctionScopePath | toolchain-cpp/src/main/java/com/sourcegraph/toolchain/cpp/CPPParseTreeListener.java:139-143 | the function scope placed inside the enclosing scope, at the function's definition path; it coincides with the listener's placement exactly when the enclosing scope's path equals its prefix |
| CppModel.SiblingMethodsIntendedParameterPathsDiffer | toolchain-cpp/src/main/java/com/sourcegraph/toolchain/cpp/CPPParseTreeListener.java:139-155 | under the intended function scope, methods with the same call-key in sibling classes define every parameter name at different paths, so their parameter definitions differ |
| CppListener.Listener.constructor | toolchain-cpp/src/main/java/com/sourcegraph/toolchain/cpp/CPPParseTreeListener.java:26-40 | empty stacks, no current class, only the root scope, and the invariant established |
| CppListener.Listener.EnterNamespaceDefinition | toolchain-cpp/src/main/java/com/sourcegraph/toolchain/cpp/CPPParseTreeListener.java:42-55 | exactly one scope pushed, named under the current path |
| CppListener.Listener.EnterUnnamedNamespaceDefinition | toolchain-cpp/src/main/java/com/sourcegraph/toolchain/cpp/CPPParseTreeListener.java:62-65 | the current scope's counter bumped and one anonymous scope pushed under it |
| CppListener.Listener.ExitScope | toolchain-cpp/src/main/java/com/sourcegraph/toolchain/cpp/CPPParseTreeListener.java:47-49 | exactly one scope popped, never the root |
| CppListener.Listener.EnterClassSpecifier | toolchain-cpp/src/main/java/com/sourcegraph/toolchain/cpp/CPPParseTreeListener.java:72-101 | class definition, base references and member records emitted in that order; one scope pushed, under the current path, binding every member; the class's data scope set and its members recorded; the class made current |
| CppListener.Listener.ExitClassSpecifier | toolchain-cpp/src/main/java/com/sourcegraph/toolchain/cpp/CPPParseTreeListener.java:103-107 | one scope popped and no current class |
| CppListener.Listener.EnterSimpleDeclaration | toolchain-cpp/src/main/java/com/sourcegraph/toolchain/cpp/CPPParseTreeListener.java:109-114 | the type reference, then one variable definition per named declarator under the current path, each bound in the current scope with that type |
| CppListener.Listener.EnterFunctionDefinition | toolchain-cpp/src/main/java/com/sourcegraph/toolchain/cpp/CPPParseTreeListener.java:116-159 | return type (the enclosing path for a constructor), parameter type references, the function definition at `path.name(_,…)` under the current path, and the parameter definitions under the function scope emitted; the function scope pushed beside the current scope (under its prefix) binding the parameters; the function property recorded on the current path |
| CppListener.Listener.CollectFunction | toolchain-cpp/src/main/java/com/sourcegraph/toolchain/cpp/CPPParseTreeListener.java:128-157 | the call-key has one placeholder per parameter; the function is defined under the current scope's path, its parameters under the function scope, which sits under the current scope's prefix and binds the parameters |
| CppListener.Listener.ProcessFunctionParameters | toolchain-cpp/src/main/java/com/sourcegraph/toolchain/cpp/CPPParseTreeListener.java:579-606 | the parameters collected in order, with their type references |
| CppListener.Listener.BindParameters | toolchain-cpp/src/main/java/com/sourcegraph/toolchain/cpp/CPPParseTreeListener.java:153-157 | the parameter definitions and bindings, and a name bound exactly when its definition path was emitted |
| CppListener.Listener.ExitPrimaryPostfixExpression | toolchain-cpp/src/main/java/com/sourcegraph/toolchain/cpp/CPPParseTreeListener.java:166-222 | a callee only queues its name; `this` pushes the current class or UNKNOWN; no identifier pushes UNKNOWN; an identifier pushes and emits what `ResolveName` gives |
| CppListener.Listener.ExitMemberAccessExpression | toolchain-cpp/src/main/java/com/sourcegraph/toolchain/cpp/CPPParseTreeListener.java:224-265 | exactly one type popped and one pushed, as `MemberAccess` gives, and the identifier queued exactly when it is called |
| CppListener.Listener.ExitCastPostfixExpression | toolchain-cpp/src/main/java/com/sourcegraph/toolchain/cpp/CPPParseTreeListener.java:267-276 | one type pushed: UNKNOWN without a type specifier, else the specifier's type with its reference |
| CppListener.Listener.ExitExplicitTypeConversionExpression | toolchain-cpp/src/main/java/com/sourcegraph/toolchain/cpp/CPPParseTreeListener.java:278-292 | one type pushed when there is a simple type specifier, nothing otherwise |
| CppListener.Listener.ExitFuncallExpression | toolchain-cpp/src/main/java/com/sourcegraph/toolchain/cpp/CPPParseTreeListener.java:294-343 | exactly one callee popped; when the function part is not a primary expression the type on top is taken as the receiver, and the call pushes UNKNOWN or what `CallOutcome` gives against the receiver's entry; a plain call resolves as `PlainCallSite` and `CallOutcome` say |
| CppListener.Listener.ProcessFnCallRef | toolchain-cpp/src/main/java/com/sourcegraph/toolchain/cpp/CPPParseTreeListener.java:687-741 | exactly one callee popped, and the type stack and sink grow by `CallOutcome` |
| CppListener.LiteralArgumentHidesCallee | toolchain-cpp/src/main/java/com/sourcegraph/toolchain/cpp/CPPParseTreeListener.java:185-189 | for `Foo(3)`: after the callee, the literal argument and the call, UNKNOWN is the only type pushed, nothing is emitted, and `Foo` is left on the callee stack |
| CppListener.ArgumentTypeTakenAsReceiver | toolchain-cpp/src/main/java/com/sourcegraph/toolchain/cpp/CPPParseTreeListener.java:298-312 | for `a.f(b)` with `a` of a registered type: the callee stack ends as it began, the type stack keeps `a`'s type beneath the call's result, and the call's result and reference are those of looking `f` up in the entry of `b`'s type (UNKNOWN and no reference when `b`'s type has no entry) |
| ClojureListener.Forwarded | toolchain-clojure/src/main/java/com/sourcegraph/toolchain/clojure/ClojureParseTreeListener.java:58-72 | a definition passes exactly on the first pass, a reference exactly on the second, and nothing else is emitted |
| ClojureListener.Step | toolchain-clojure/src/main/java/com/sourcegraph/toolchain/clojure/ClojureParseTreeListener.java:28-56 | entering a function pushes one scope, leaving pops one, a symbol pushes none; enclosing scopes untouched; the sink only grows, by records of the pass's kind |
| ClojureListener.ScopesIgnorePass | toolchain-clojure/src/main/java/com/sourcegraph/toolchain/clojure/ClojureParseTreeListener.java:36-39 | the scopes evolve identically on both passes |
| ClojureListener.ExitRestoresDepth | toolchain-clojure/src/main/java/com/sourcegraph/toolchain/clojure/ClojureParseTreeListener.java:38-45 | leaving a function restores the stack depth and leaves the function's name bound to true in the enclosing scope |
| ClojureListener.StepKeepsDefinitions | toolchain-clojure/src/main/java/com/sourcegraph/toolchain/clojure/ClojureParseTreeListener.java:28-56 | one event keeps every bound name defined on the first pass and every second-pass reference pointing at a first-pass definition |
| ClojureListener.RunKeepsDefinitions | toolchain-clojure/src/main/java/com/sourcegraph/toolchain/clojure/ClojureParseTreeListener.java:28-56 | the same over any nested sequence of events |
| ClojureListener.SecondPassRefsDefined | toolchain-clojure/src/main/java/com/sourcegraph/toolchain/clojure/ClojureParseTreeListener.java:50-72 | walking the same tree twice, every reference of the second pass points at a definition of the first |
| ClojureListener.RunGated | toolchain-clojure/src/main/java/com/sourcegraph/toolchain/clojure/ClojureParseTreeListener.java:58-72 | the first pass emits only definitions and the second only references |
| ClojureListener.Listener.constructor | toolchain-clojure/src/main/java/com/sourcegraph/toolchain/clojure/ClojureParseTreeListener.java:21-26 | the root scope alone and an empty sink |
| ClojureListener.Listener.EmitDef | toolchain-clojure/src/main/java/com/sourcegraph/toolchain/clojure/ClojureParseTreeListener.java:58-64 | the sink grows by the definition on the first pass and is unchanged otherwise |
| ClojureListener.Listener.EmitRef | toolchain-clojure/src/main/java/com/sourcegraph/toolchain/clojure/ClojureParseTreeListener.java:66-72 | the sink grows by the reference on the second pass and is unchanged otherwise |
| ClojureListener.Listener.EnterFunctionDef | toolchain-clojure/src/main/java/com/sourcegraph/toolchain/clojure/ClojureParseTreeListener.java:28-40 | the new state is exactly the `EnterFunction` step: `defn` definition at `scope.name`, name bound to true, function scope pushed |
| ClojureListener.Listener.ExitFunctionDef | toolchain-clojure/src/main/java/com/sourcegraph/toolchain/clojure/ClojureParseTreeListener.java:42-45 | the new state is exactly the `ExitFunction` step |
| ClojureListener.Listener.EnterSymbol | toolchain-clojure/src/main/java/com/sourcegraph/toolchain/clojure/ClojureParseTreeListener.java:47-56 | the new state is exactly the `Symbol` step: a reference at the resolving scope's path on a hit, nothing on a miss |
| RawDependencies.New | toolchain-core/src/main/java/com/sourcegraph/toolchain/core/objects/RawDependency.java:43-49 | group, artifact, version, scope and file set; classifier, type and repository URI null |
| RawDependencies.NullSafeEquals | toolchain-core/src/main/java/com/sourcegraph/toolchain/core/objects/RawDependency.java:58-75 | two nulls are equal, null and a string are not, strings compare by content |
| RawDependencies.Equals | toolchain-core/src/main/java/com/sourcegraph/toolchain/core/objects/RawDependency.java:51-77 | false for null and for another class; otherwise true exactly when group, artifact, version, scope, type and classifier agree |
| RawDependencies.EqualsReflexive | toolchain-core/src/main/java/com/sourcegraph/toolchain/core/objects/RawDependency.java:53 | every dependency equals itself |
| RawDependencies.EqualsSymmetric | toolchain-core/src/main/java/com/sourcegraph/toolchain/core/objects/RawDependency.java:56-76 | equality is symmetric |
| RawDependencies.EqualsTransitive | toolchain-core/src/main/java/com/sourcegraph/toolchain/core/objects/RawDependency.java:56-76 | equality is transitive |
| RawDependencies.EqualsIgnoresFileAndRepo | toolchain-core/src/main/java/com/sourcegraph/toolchain/core/objects/RawDependency.java:56-76 | the file and the repository URI never affect equality, on either side |
| RawDependencies.ToInt32 | toolchain-core/src/main/java/com/sourcegraph/toolchain/core/objects/RawDependency.java:82 | the result is a 32-bit `int` congruent to the exact value modulo 2^32, and the value itself when it fits |
| RawDependencies.CongruentStep | toolchain-core/src/main/java/com/sourcegraph/toolchain/core/objects/RawDependency.java:82-86 | a hash step in `int` arithmetic preserves congruence with the exact step |
| RawDependencies.Base31Snoc | toolchain-core/src/main/java/com/sourcegraph/toolchain/core/objects/RawDependency.java:82-86 | appending a digit to a base-31 number multiplies it by 31 and adds the digit |
| RawDependencies.Fold | toolchain-core/src/main/java/com/sourcegraph/toolchain/core/objects/RawDependency.java:80-88 | the fold stays in `int` range |
| RawDependencies.FoldIsBase31 | toolchain-core/src/main/java/com/sourcegraph/toolchain/core/objects/RawDependency.java:80-88 | the `int` fold equals the exact base-31 value modulo 2^32 |
| RawDependencies.HashCode | toolchain-core/src/main/java/com/sourcegraph/toolchain/core/objects/RawDependency.java:79-87 | `hashCode` as written, five wrapping steps `31 * result + h` over the field hashes; the result is a 32-bit `int` |
| RawDependencies.HashCodeIsFold | toolchain-core/src/main/java/com/sourcegraph/toolchain/core/objects/RawDependency.java:80-88 | the straight-line `hashCode` is the fold over the six field hashes in order |
| RawDependencies.HashCodeIsBase31 | toolchain-core/src/main/java/com/sourcegraph/toolchain/core/objects/RawDependency.java:80-88 | `hashCode` is the base-31 value of the six field hashes, null counting 0, modulo 2^32 |
| RawDependencies.HashConsistentWithEquals | toolchain-core/src/main/java/com/sourcegraph/toolchain/core/objects/RawDependency.java:79-88 | equal dependencies have equal hash codes |
| RawDependencies.ToString | toolchain-core/src/main/java/com/sourcegraph/toolchain/core/objects/RawDependency.java:90-100 | the text is non-empty and ends in `}`; the body is the concatenation of the six compared fields, quoted, with a null field printed as `null` |
| RawDependencies.ToStringConsistentWithEquals | toolchain-core/src/main/java/com/sourcegraph/toolchain/core/objects/RawDependency.java:90-100 | equal dependencies print the same |

## Left out

- ANTLR parse-tree contexts and the grammar-navigation helpers (`getIdentifier`, `getParametersAndQualifiers`, `getDeclTypeSpecifier`, `getTypeSpecifier`, `processTypeSpecifier`, `processDeclarationType`, `processTypeRef`): each handler takes what they would extract as plain values (identifier text, a resolved `TypeSpec`, parameter and declarator lists, flags such as "is the callee of a call").
- `LanguageImpl.def`/`ref`/`emit` and the Def, DefData, DefKey and Ref objects: the sink is a sequence of records carrying a kind and a def-key path. The `format(...)` display strings of the C++ definitions are not modelled; the Clojure definition keeps its keyword, representation and kind.
- `Context`, `Scope`, `TypeInfos` and `TypeInfo` are not part of this model; they are modelled as far as the listeners use them. A scope keeps the prefix it was constructed with; `context.getPrefix(sep)` and `context.getPath(sep)` are the current scope's path, while `Scope.getPrefix()` is the current scope's own prefix. `next` names its child by the decimal counter, and the one-argument `Scope` constructor used by the Clojure listener is taken to give an empty prefix, so the bare name as path.
- The registry's data scope is kept as its path, the only thing the listener reads from it; `getRoot()` is the entry at the root path.
- The `isInFunction` field: no handler reads or writes it.
- Java exceptions: popping or peeking an empty stack, leaving the root scope, and reading the current class's entry when it is missing are excluded by preconditions; a parameter without a type specifier or declarator (a null-pointer dereference in `processFunctionParameters`) cannot be expressed with the `Param` input.
- `processMembers`, `processDeclarationVariables` and `emitBaseClasses` recurse over the grammar's lists; the model applies their whole effect in one update (`BindMembers`, `RecordMembers`, `MemberRecords`, `BindNames`, `NameDefs`, `BaseRefs`), so the intermediate states inside one handler are not observable. Their inputs are sequences in the order the listener visits the grammar's list nodes: each node's own element before its nested list.
- Argument expressions push onto the type stack and, for literals and `this`, a null callee onto the callee stack, and nothing pops them. The model keeps this as written; see "Findings".
- RawDependencies.StringHash: character codes are taken as Unicode scalar values; Java hashes UTF-16 code units, which differs for characters outside the Basic Multilingual Plane.
- RawDependencies.Equals: the `this == o` shortcut is not a separate case; it gives the same answer as the field comparison. Subclasses of `RawDependency` count as another class, as `getClass()` makes them.
- RawDependency's public fields are assignable in Java; the model treats a dependency as a value.

## Findings

| source | as written | input that shows it | evidently intended | confidence | as-written member | corrected member |
|---|---|---|---|---|---|---|
| toolchain-cpp/src/main/java/com/sourcegraph/toolchain/cpp/CPPParseTreeListener.java:185-189 | a primary expression without an identifier, such as a literal, pushes a null callee; the call then peeks the top of the callee stack (line 316) and `processFnCallRef` pops it and returns on null (lines 691-693), so the call is never resolved and its own callee stays queued | `class Foo { Foo(int a) {} }; Foo(3);` | the call resolves against its own callee: `Foo(3)` references the constructor `Foo.Foo(_)` | high; not executed | CppListener.LiteralArgumentHidesCallee | CppModel.CtorCallMatchesCtorDef |
| toolchain-cpp/src/main/java/com/sourcegraph/toolchain/cpp/CPPParseTreeListener.java:298-312 | a member call pops the top of the type stack as its receiver (line 300), but each argument has pushed its own type on top (lines 187-188 and 221) and nothing pops it, so a call with arguments is looked up in the last argument's type while the receiver's type stays on the stack | `class A { int f(int x) {} }; A a; B b; a.f(b);` | the call is looked up in the receiver's class: `a.f(b)` pushes `int` and references `A.f(_)` | high; not executed | CppListener.ArgumentTypeTakenAsReceiver | CppModel.ReceiverCallMatchesDefinition |
| toolchain-cpp/src/main/java/com/sourcegraph/toolchain/cpp/CPPParseTreeListener.java:143 | the function scope is entered under `currentScope().getPrefix()`, the enclosing scope's own prefix, while the function is defined under the enclosing scope's path (line 140), so a method's parameters are defined beside its class rather than under the method | `class O { class A { void m(int x) {} }; class B { void m(int x) {} }; };` defines both parameters at `O.m(_).x` | the parameters are defined under the method's own path: `O.A.m(_).x` and `O.B.m(_).x` | medium; not executed; depends on `Scope.getPrefix()` returning the prefix the scope was constructed with (`Scope` is not part of this model) | CppModel.SiblingMethodsShareParameterPaths | CppModel.SiblingMethodsIntendedParameterPathsDiffer |

For the first row, the corrected behaviour is what a call does when its own callee is on top of the callee stack. `CppModel.CtorCallMatchesCtorDef` proves this for constructors and `CppModel.FreeCallMatchesDefinition` and `CppModel.MethodCallMatchesDefinition` prove it for free functions and methods. For the second row, `CppModel.ReceiverCallMatchesDefinition` proves what a member call does when it is looked up in its receiver's class. For the third row, `CppModel.IntendedFunctionScopePath` places the function scope at the function's definition path and `CppModel.SiblingMethodsIntendedParameterPathsDiffer` proves that sibling methods' parameters then no longer share paths. The listener itself keeps all three behaviours as written.
