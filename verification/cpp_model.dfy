/**
 * Values and pure parts of the C++ front-end's listener: the entries of the type stack,
 * the records it emits, the abstract inputs of its declaration events, and the functions
 * that say what a declaration records and how an expression resolves.
 */
module CppModel {
  import opened Wrappers
  import opened Scopes
  import opened Signatures
  import opened TypeInfos

  /** What a declaration binds a name to: its declared type, None where the source records a null type. */
  datatype Variable = Variable(typ: Option<string>)

  /**
   * An entry of the type stack: the UNKNOWN sentinel, a type path, or the null type that a
   * declaration without a resolvable type specifier leaves behind.
   */
  datatype Inferred = Unknown | Known(name: string) | NoType

  function Declared(t: Option<string>): Inferred
  {
    if t.Some? then Known(t.value) else NoType
  }

  /** The registry entry of an inferred type; UNKNOWN and the null type have none. */
  function InfoOf(infos: Registry, t: Inferred): Option<TypeInfo>
  {
    if t.Known? then Get(infos, t.name) else None
  }

  datatype DefKind = ClassKey(key: string) | FunctionDef | ArgumentDef | VariableDef | MemberDef

  /** What the listener hands to the sink: a definition or a reference, with its def-key path. */
  datatype Record = Def(kind: DefKind, path: string) | Ref(path: string)

  /** The paths of the definitions among the records. */
  function DefPaths(sink: seq<Record>): set<string>
  {
    if sink == [] then {}
    else DefPaths(sink[..|sink| - 1]) + (if sink[|sink| - 1].Def? then {sink[|sink| - 1].path} else {})
  }

  lemma {:induction false} DefPathsAppend(s: seq<Record>, t: seq<Record>)
    ensures DefPaths(s + t) == DefPaths(s) + DefPaths(t)
  {
    if t == [] {
      assert s + t == s;
    } else {
      assert (s + t)[..|s + t| - 1] == s + t[..|t| - 1];
      DefPathsAppend(s, t[..|t| - 1]);
    }
  }

  /** Every name bound in a scope of the stack has a definition at that scope's path. */
  ghost predicate BoundNamesDefined(scopes: seq<Scope<Variable>>, sink: seq<Record>)
  {
    forall i, n :: 0 <= i < |scopes| && n in scopes[i].bindings ==> PathTo(scopes[i].path, n) in DefPaths(sink)
  }

  /** Emitting more records keeps every bound name defined. */
  lemma BoundNamesGrow(scopes: seq<Scope<Variable>>, sink: seq<Record>, extra: seq<Record>)
    requires BoundNamesDefined(scopes, sink)
    ensures BoundNamesDefined(scopes, sink + extra)
  {
    DefPathsAppend(sink, extra);
  }

  /**
   * What the listener keeps true between events: the root scope at the bottom of a
   * non-empty context, a registered current class, data scopes for every entry with
   * variables, and a definition for every bound name.
   */
  ghost predicate Invariant(scopes: seq<Scope<Variable>>, currentClass: Option<string>, infos: Registry, sink: seq<Record>)
  {
    && |scopes| > 0
    && scopes[0].path == RootPath
    && (currentClass.Some? ==> currentClass.value in infos)
    && DataForVariables(infos)
    && BoundNamesDefined(scopes, sink)
  }

  // ---------------------------------------------------------------------------
  // Type specifiers
  // ---------------------------------------------------------------------------

  /**
   * What a type specifier turns out to be: a basic type spelled by its text, a class, enum,
   * typedef or template name (which is also referenced), or a shape the listener cannot
   * name (its type is then null).
   */
  datatype TypeSpec = Basic(text: string) | TypeName(name: string) | Unresolved

  /** The type a (possibly absent) type specifier gives; None for the null type. */
  function SpecType(spec: Option<TypeSpec>): Option<string>
  {
    match spec
    case None => None
    case Some(Basic(t)) => Some(t)
    case Some(TypeName(n)) => Some(n)
    case Some(Unresolved) => None
  }

  /** The reference a type specifier emits: one to the type's own name when it names a type. */
  function SpecRefs(spec: Option<TypeSpec>): seq<Record>
  {
    if spec.Some? && spec.value.TypeName? then [Ref(spec.value.name)] else []
  }

  /** The references to the base classes of a class head, in order. */
  function BaseRefs(bases: seq<string>): seq<Record>
  {
    seq(|bases|, i requires 0 <= i < |bases| => Ref(bases[i]))
  }

  // ---------------------------------------------------------------------------
  // Function parameters
  // ---------------------------------------------------------------------------

  /** A declared parameter: its name and its type specifier. */
  datatype Param = Param(name: string, spec: TypeSpec)

  /** The collected form of a parameter: display `type name`, signature token `_`. */
  function ToParameter(p: Param): FunctionParameter
  {
    var t := SpecType(Some(p.spec));
    FunctionParameter(p.name, t, JavaText(t) + " " + p.name, "_")
  }

  /** The collected parameters: one per declared parameter, in order, each with signature token `_`. */
  function ToParameters(ps: seq<Param>): (r: seq<FunctionParameter>)
    ensures |r| == |ps|
    ensures forall i :: 0 <= i < |ps| ==> r[i].name == ps[i].name && r[i].typ == SpecType(Some(ps[i].spec))
    ensures forall p :: p in r ==> p.signature == "_"
  {
    if ps == [] then [] else ToParameters(ps[..|ps| - 1]) + [ToParameter(ps[|ps| - 1])]
  }

  /** The references the parameters' type specifiers emit, in order. */
  function ParamRefs(ps: seq<Param>): seq<Record>
  {
    if ps == [] then [] else ParamRefs(ps[..|ps| - 1]) + SpecRefs(Some(ps[|ps| - 1].spec))
  }

  /** The parameter definitions, each under the function's scope. */
  function ParamDefs(fnPath: string, ps: seq<Param>): seq<Record>
  {
    if ps == [] then [] else ParamDefs(fnPath, ps[..|ps| - 1]) + [Def(ArgumentDef, PathTo(fnPath, ps[|ps| - 1].name))]
  }

  function ParamNames(ps: seq<Param>): set<string>
  {
    set p | p in ps :: p.name
  }

  /** The function scope's bindings: each parameter bound, in order, to its type. */
  function BindParams(b: map<string, Variable>, ps: seq<Param>): (r: map<string, Variable>)
    ensures r.Keys == b.Keys + ParamNames(ps)
  {
    if ps == [] then b
    else
      var r := BindParams(b, ps[..|ps| - 1])[ps[|ps| - 1].name := Variable(SpecType(Some(ps[|ps| - 1].spec)))];
      assert ps == ps[..|ps| - 1] + [ps[|ps| - 1]];
      r
  }

  /** A parameter no later parameter shadows is bound to its own declared type. */
  lemma {:induction false} ParamBound(b: map<string, Variable>, ps: seq<Param>, i: nat)
    requires i < |ps|
    requires forall j :: i < j < |ps| ==> ps[j].name != ps[i].name
    ensures ps[i].name in BindParams(b, ps)
    ensures BindParams(b, ps)[ps[i].name] == Variable(SpecType(Some(ps[i].spec)))
  {
    if i < |ps| - 1 {
      ParamBound(b, ps[..|ps| - 1], i);
    }
  }

  /** A name is bound in the function scope exactly when a parameter definition was emitted at its path. */
  lemma {:induction false} ParamDefsCover(fnPath: string, ps: seq<Param>, n: string)
    ensures PathTo(fnPath, n) in DefPaths(ParamDefs(fnPath, ps)) <==> n in ParamNames(ps)
  {
    if ps != [] {
      var init := ps[..|ps| - 1];
      var last := ps[|ps| - 1];
      assert ps == init + [last];
      assert ParamNames(ps) == ParamNames(init) + {last.name};
      DefPathsAppend(ParamDefs(fnPath, init), [Def(ArgumentDef, PathTo(fnPath, last.name))]);
      assert DefPaths([Def(ArgumentDef, PathTo(fnPath, last.name))]) == {PathTo(fnPath, last.name)} by {
        assert [Def(ArgumentDef, PathTo(fnPath, last.name))][..0] == [];
      }
      PathToInjective(fnPath, n, last.name);
      ParamDefsCover(fnPath, init, n);
    }
  }

  /**
   * Entering a function scope whose bindings are its parameters, after emitting their
   * definitions under the function's path, keeps every bound name defined.
   */
  lemma FunctionScopeDefined(scopes: seq<Scope<Variable>>, sink: seq<Record>, head: seq<Record>,
                             prefix: string, fnPath: string, ps: seq<Param>)
    requires BoundNamesDefined(scopes, sink)
    ensures BoundNamesDefined(scopes + [Scope(prefix, fnPath, 0, BindParams(map[], ps))], sink + (head + ParamDefs(fnPath, ps)))
  {
    var sink' := sink + (head + ParamDefs(fnPath, ps));
    DefPathsAppend(sink, head + ParamDefs(fnPath, ps));
    DefPathsAppend(head, ParamDefs(fnPath, ps));
    forall n | n in ParamNames(ps)
      ensures PathTo(fnPath, n) in DefPaths(sink')
    {
      ParamDefsCover(fnPath, ps, n);
    }
  }

  /**
   * The path of a function's own scope: `new Scope<>(key, currentScope().getPrefix())` puts
   * it under the prefix of the scope the function is defined in, beside that scope rather
   * than inside it.  The function's definition itself is at `current.key`.
   */
  function FunctionScopePath(current: Scope<Variable>, key: string): string
  {
    PathTo(current.prefix, key)
  }

  /**
   * Two methods with the same call-key in sibling classes `outer.a` and `outer.b` get
   * different definition paths, but their parameters are defined at the same paths.
   */
  lemma SiblingMethodsShareParameterPaths(outer: string, a: string, b: string, key: string, ps: seq<Param>)
    requires a != b
    ensures PathTo(PathTo(outer, a), key) != PathTo(PathTo(outer, b), key)
    ensures ParamDefs(FunctionScopePath(NewScope(a, outer), key), ps) == ParamDefs(FunctionScopePath(NewScope(b, outer), key), ps)
  {
    PathToInjective(outer, a, b);
    PathToInjectiveInPath(PathTo(outer, a), PathTo(outer, b), key);
  }

  /**
   * The function scope as the enclosing scope's own path would place it: inside the scope
   * the function is defined in, at the function's definition path `current.key`.
   */
  function IntendedFunctionScopePath(current: Scope<Variable>, key: string): (r: string)
    ensures r == FunctionScopePath(current, key) <==> current.path == current.prefix
  {
    PathToInjectiveInPath(current.path, current.prefix, key);
    PathTo(current.path, key)
  }

  /**
   * Under the intended function scope, the parameters of two methods with the same call-key
   * in sibling classes `outer.a` and `outer.b` get different paths, each under its own
   * method's definition path.
   */
  lemma SiblingMethodsIntendedParameterPathsDiffer(outer: string, a: string, b: string, key: string, ps: seq<Param>)
    requires a != b && |ps| > 0
    ensures forall x :: PathTo(IntendedFunctionScopePath(NewScope(a, outer), key), x)
                          != PathTo(IntendedFunctionScopePath(NewScope(b, outer), key), x)
    ensures ParamDefs(IntendedFunctionScopePath(NewScope(a, outer), key), ps)
              != ParamDefs(IntendedFunctionScopePath(NewScope(b, outer), key), ps)
  {
    PathToInjective(outer, a, b);
    PathToInjectiveInPath(PathTo(outer, a), PathTo(outer, b), key);
    DistinctScopesDistinctParamDefs(IntendedFunctionScopePath(NewScope(a, outer), key),
                                    IntendedFunctionScopePath(NewScope(b, outer), key), ps);
  }

  /** Parameters defined under two different function scopes never share a path. */
  lemma DistinctScopesDistinctParamDefs(pa: string, pb: string, ps: seq<Param>)
    requires pa != pb && |ps| > 0
    ensures forall x :: PathTo(pa, x) != PathTo(pb, x)
    ensures ParamDefs(pa, ps) != ParamDefs(pb, ps)
  {
    forall x
      ensures PathTo(pa, x) != PathTo(pb, x)
    {
      PathToInjectiveInPath(pa, pb, x);
    }
    var da, db := ParamDefs(pa, ps), ParamDefs(pb, ps);
    var last := |ps| - 1;
    ParamDefsLast(pa, ps);
    ParamDefsLast(pb, ps);
    assert da[last] != db[last];
  }

  /** One definition per parameter, the last one for the last parameter. */
  lemma {:induction false} ParamDefsLast(fnPath: string, ps: seq<Param>)
    ensures |ParamDefs(fnPath, ps)| == |ps|
    ensures |ps| > 0 ==> ParamDefs(fnPath, ps)[|ps| - 1] == Def(ArgumentDef, PathTo(fnPath, ps[|ps| - 1].name))
  {
    if ps != [] {
      ParamDefsLast(fnPath, ps[..|ps| - 1]);
    }
  }

  // ---------------------------------------------------------------------------
  // Declarators: class members and simple declarations
  // ---------------------------------------------------------------------------

  /** A member declaration: its type specifier, if any, and its declarators' identifiers (None where a declarator has none). */
  datatype MemberDecl = MemberDecl(spec: Option<TypeSpec>, names: seq<Option<string>>)

  function DeclaredNames(names: seq<Option<string>>): set<string>
  {
    set o | o in names && o.Some? :: o.value
  }

  function MemberNames(ms: seq<MemberDecl>): set<string>
  {
    if ms == [] then {} else DeclaredNames(ms[0].names) + MemberNames(ms[1..])
  }

  /** The definitions of the named declarators, under `owner`. */
  function NameDefs(kind: DefKind, owner: string, names: seq<Option<string>>): seq<Record>
  {
    if names == [] then []
    else (if names[0].Some? then [Def(kind, PathTo(owner, names[0].value))] else []) + NameDefs(kind, owner, names[1..])
  }

  /** Each named declarator bound, in order, to `t`. */
  function BindNames(b: map<string, Variable>, names: seq<Option<string>>, t: Option<string>): (r: map<string, Variable>)
    ensures r.Keys == b.Keys + DeclaredNames(names)
    ensures forall n :: n in DeclaredNames(names) ==> r[n] == Variable(t)
    ensures forall n :: n in b && n !in DeclaredNames(names) ==> r[n] == b[n]
    decreases names
  {
    if names == [] then b
    else
      assert DeclaredNames(names) == (if names[0].Some? then {names[0].value} else {}) + DeclaredNames(names[1..]);
      BindNames(if names[0].Some? then b[names[0].value := Variable(t)] else b, names[1..], t)
  }

  /** Each named declarator recorded, in order, as a variable property of `owner` with type `t`. */
  function RecordNames(infos: Registry, owner: string, names: seq<Option<string>>, t: Option<string>): (r: Registry)
    ensures infos.Keys <= r.Keys <= infos.Keys + {owner}
    ensures forall p :: p in infos && p != owner ==> r[p] == infos[p]
    ensures Entry(r, owner).data == Entry(infos, owner).data
    ensures DataForVariables(infos) && Entry(infos, owner).data.Some? ==> DataForVariables(r)
    ensures forall n :: n in DeclaredNames(names) ==> GetProperty(Entry(r, owner), VariableProp, n) == t
    ensures forall n :: n !in DeclaredNames(names) ==>
              GetProperty(Entry(r, owner), VariableProp, n) == GetProperty(Entry(infos, owner), VariableProp, n)
    decreases names
  {
    if names == [] then infos
    else
      assert DeclaredNames(names) == (if names[0].Some? then {names[0].value} else {}) + DeclaredNames(names[1..]);
      var next := if names[0].Some? then SetProperty(infos, owner, PropKey(VariableProp, names[0].value), t) else infos;
      RecordNames(next, owner, names[1..], t)
  }

  /** The records `processMembers` emits: per declaration, its type reference and then its member definitions. */
  function MemberRecords(owner: string, ms: seq<MemberDecl>): seq<Record>
  {
    if ms == [] then [] else SpecRefs(ms[0].spec) + NameDefs(MemberDef, owner, ms[0].names) + MemberRecords(owner, ms[1..])
  }

  /**
   * The type a class body gives a member name: that of the last declaration naming it,
   * since later declarations overwrite earlier ones; None when no declaration names it.
   */
  function MemberType(ms: seq<MemberDecl>, n: string): (r: Option<Option<string>>)
    ensures r.Some? <==> n in MemberNames(ms)
  {
    if ms == [] then None
    else if MemberType(ms[1..], n).Some? then MemberType(ms[1..], n)
    else if n in DeclaredNames(ms[0].names) then Some(SpecType(ms[0].spec))
    else None
  }

  /** The class scope's bindings: each member bound to the type of its last declaration. */
  function BindMembers(b: map<string, Variable>, ms: seq<MemberDecl>): (r: map<string, Variable>)
    ensures r.Keys == b.Keys + MemberNames(ms)
    ensures forall n :: n in MemberNames(ms) ==> r[n] == Variable(MemberType(ms, n).value)
    ensures forall n :: n in b && n !in MemberNames(ms) ==> r[n] == b[n]
    decreases ms
  {
    if ms == [] then b else BindMembers(BindNames(b, ms[0].names, SpecType(ms[0].spec)), ms[1..])
  }

  /** The class's registry entry after its body: each member a variable property with the type of its last declaration. */
  function RecordMembers(infos: Registry, owner: string, ms: seq<MemberDecl>): (r: Registry)
    ensures infos.Keys <= r.Keys <= infos.Keys + {owner}
    ensures forall p :: p in infos && p != owner ==> r[p] == infos[p]
    ensures Entry(r, owner).data == Entry(infos, owner).data
    ensures DataForVariables(infos) && Entry(infos, owner).data.Some? ==> DataForVariables(r)
    ensures forall n :: n in MemberNames(ms) ==> GetProperty(Entry(r, owner), VariableProp, n) == MemberType(ms, n).value
    ensures forall n :: n !in MemberNames(ms) ==>
              GetProperty(Entry(r, owner), VariableProp, n) == GetProperty(Entry(infos, owner), VariableProp, n)
    decreases ms
  {
    if ms == [] then infos else RecordMembers(RecordNames(infos, owner, ms[0].names, SpecType(ms[0].spec)), owner, ms[1..])
  }

  /** The variable properties of `owner` after recording are the earlier ones plus the declared names. */
  lemma {:induction false} RecordNamesProps(infos: Registry, owner: string, names: seq<Option<string>>, t: Option<string>, n: string)
    ensures PropKey(VariableProp, n) in Entry(RecordNames(infos, owner, names, t), owner).props
        <==> PropKey(VariableProp, n) in Entry(infos, owner).props || n in DeclaredNames(names)
    decreases names
  {
    if names != [] {
      assert DeclaredNames(names) == (if names[0].Some? then {names[0].value} else {}) + DeclaredNames(names[1..]);
      var next := if names[0].Some? then SetProperty(infos, owner, PropKey(VariableProp, names[0].value), t) else infos;
      RecordNamesProps(next, owner, names[1..], t, n);
    }
  }

  lemma {:induction false} RecordMembersProps(infos: Registry, owner: string, ms: seq<MemberDecl>, n: string)
    ensures PropKey(VariableProp, n) in Entry(RecordMembers(infos, owner, ms), owner).props
        <==> PropKey(VariableProp, n) in Entry(infos, owner).props || n in MemberNames(ms)
    decreases ms
  {
    if ms != [] {
      RecordNamesProps(infos, owner, ms[0].names, SpecType(ms[0].spec), n);
      RecordMembersProps(RecordNames(infos, owner, ms[0].names, SpecType(ms[0].spec)), owner, ms[1..], n);
    }
  }

  /** Every declared name has a definition at its path under `owner`. */
  lemma {:induction false} NameDefsCover(kind: DefKind, owner: string, names: seq<Option<string>>, n: string)
    ensures PathTo(owner, n) in DefPaths(NameDefs(kind, owner, names)) <==> n in DeclaredNames(names)
  {
    if names != [] {
      var head := if names[0].Some? then [Def(kind, PathTo(owner, names[0].value))] else [];
      DefPathsAppend(head, NameDefs(kind, owner, names[1..]));
      assert head == [] || DefPaths(head) == {PathTo(owner, names[0].value)} by {
        if head != [] { assert head[..0] == []; }
      }
      assert DeclaredNames(names) == (if names[0].Some? then {names[0].value} else {}) + DeclaredNames(names[1..]);
      if names[0].Some? { PathToInjective(owner, n, names[0].value); }
      NameDefsCover(kind, owner, names[1..], n);
    }
  }

  lemma {:induction false} MemberRecordsCover(owner: string, ms: seq<MemberDecl>, n: string)
    requires n in MemberNames(ms)
    ensures PathTo(owner, n) in DefPaths(MemberRecords(owner, ms))
  {
    var head := SpecRefs(ms[0].spec);
    var defs := NameDefs(MemberDef, owner, ms[0].names);
    DefPathsAppend(head + defs, MemberRecords(owner, ms[1..]));
    DefPathsAppend(head, defs);
    if n in DeclaredNames(ms[0].names) {
      NameDefsCover(MemberDef, owner, ms[0].names, n);
    } else {
      MemberRecordsCover(owner, ms[1..], n);
    }
  }

  /**
   * Entering a class scope whose bindings are its members, after emitting its member
   * definitions, keeps every bound name defined.
   */
  lemma ClassScopeDefined(scopes: seq<Scope<Variable>>, sink: seq<Record>, head: seq<Record>,
                          prefix: string, p: string, ms: seq<MemberDecl>)
    requires BoundNamesDefined(scopes, sink)
    ensures BoundNamesDefined(scopes + [Scope(prefix, p, 0, BindMembers(map[], ms))], sink + (head + MemberRecords(p, ms)))
  {
    var sink' := sink + (head + MemberRecords(p, ms));
    DefPathsAppend(sink, head + MemberRecords(p, ms));
    DefPathsAppend(head, MemberRecords(p, ms));
    forall n | n in MemberNames(ms)
      ensures PathTo(p, n) in DefPaths(sink')
    {
      MemberRecordsCover(p, ms, n);
    }
  }

  /**
   * Binding the named declarators in the top scope, after emitting their definitions
   * under its path, keeps every bound name defined.
   */
  lemma DeclaratorsDefined(scopes: seq<Scope<Variable>>, sink: seq<Record>, head: seq<Record>, kind: DefKind,
                           names: seq<Option<string>>, t: Option<string>)
    requires |scopes| > 0 && BoundNamesDefined(scopes, sink)
    ensures var top := scopes[|scopes| - 1];
            BoundNamesDefined(scopes[..|scopes| - 1] + [top.(bindings := BindNames(top.bindings, names, t))],
                              sink + (head + NameDefs(kind, top.path, names)))
  {
    var top := scopes[|scopes| - 1];
    var sink' := sink + (head + NameDefs(kind, top.path, names));
    DefPathsAppend(sink, head + NameDefs(kind, top.path, names));
    DefPathsAppend(head, NameDefs(kind, top.path, names));
    forall n | n in DeclaredNames(names)
      ensures PathTo(top.path, n) in DefPaths(sink')
    {
      NameDefsCover(kind, top.path, names, n);
    }
  }

  /**
   * Processing a class body binds every declared member in the class scope, records it as a
   * variable property of the class path, and emits its definition at `class.member`.
   */
  lemma ClassMembersRecorded(b: map<string, Variable>, infos: Registry, owner: string, ms: seq<MemberDecl>, n: string)
    requires n in MemberNames(ms)
    ensures n in BindMembers(b, ms)
    ensures PropKey(VariableProp, n) in Entry(RecordMembers(infos, owner, ms), owner).props
    ensures PathTo(owner, n) in DefPaths(MemberRecords(owner, ms))
  {
    RecordMembersProps(infos, owner, ms, n);
    MemberRecordsCover(owner, ms, n);
  }

  // ---------------------------------------------------------------------------
  // Expression resolution
  // ---------------------------------------------------------------------------

  /**
   * `exitPrimarypostfixexpression` on an identifier that is not a callee: the innermost
   * binding gives the type and a reference at the binding scope's path; failing that, a
   * registered type of that bare name, then one under the current scope, is referenced as a
   * type; anything else is UNKNOWN with no reference.
   */
  function ResolveName(scopes: seq<Scope<Variable>>, infos: Registry, name: string): (r: (Inferred, seq<Record>))
    requires |scopes| > 0
    ensures r.1 == [] <==> r.0 == Unknown
    ensures r.0 == Unknown <==> Lookup(scopes, name).None? && name !in infos && PathTo(scopes[|scopes| - 1].path, name) !in infos
    ensures Lookup(scopes, name).Some? ==>
              var f := Lookup(scopes, name).value;
              r == (Declared(f.value.typ), [Ref(PathTo(scopes[f.index].path, name))])
    ensures Lookup(scopes, name).None? && name in infos ==> r == (Known(name), [Ref(name)])
    ensures Lookup(scopes, name).None? && name !in infos && PathTo(scopes[|scopes| - 1].path, name) in infos ==>
              var inner := PathTo(scopes[|scopes| - 1].path, name);
              r == (Known(inner), [Ref(inner)])
    ensures Lookup(scopes, name).None? && r.0 != Unknown ==> r.0.Known? && r.0.name in infos && r.1 == [Ref(r.0.name)]
  {
    match Lookup(scopes, name)
    case Some(f) => (Declared(f.value.typ), [Ref(PathTo(scopes[f.index].path, name))])
    case None =>
      if name in infos then (Known(name), [Ref(name)])
      else
        var inner := PathTo(scopes[|scopes| - 1].path, name);
        if inner in infos then (Known(inner), [Ref(inner)]) else (Unknown, [])
  }

  /**
   * A reference emitted for an identifier points at a definition already emitted or at a
   * registered type, as long as every bound name has its definition.
   */
  lemma ResolvedRefIsDefined(scopes: seq<Scope<Variable>>, sink: seq<Record>, infos: Registry, name: string)
    requires |scopes| > 0
    requires BoundNamesDefined(scopes, sink)
    ensures forall q :: Ref(q) in ResolveName(scopes, infos, name).1 ==> q in DefPaths(sink) || q in infos
  {
    var found := Lookup(scopes, name);
    if found.Some? {
      assert name in scopes[found.value.index].bindings;
    }
  }

  /**
   * `exitMemberaccessexpression` on `receiver.ident`: the type it leaves on the stack and the
   * reference it emits.  UNKNOWN when the receiver has no registry entry; the receiver
   * itself, for the call to resolve, when the access is a callee; otherwise the variable
   * property's type with a reference under the receiver's data scope, or UNKNOWN.
   */
  function MemberAccess(infos: Registry, receiver: Inferred, isCall: bool, ident: string): (r: (Inferred, seq<Record>))
    requires DataForVariables(infos)
    ensures InfoOf(infos, receiver).None? ==> r == (Unknown, [])
    ensures InfoOf(infos, receiver).Some? && isCall ==> r == (receiver, [])
    ensures InfoOf(infos, receiver).Some? && !isCall ==>
              var info := InfoOf(infos, receiver).value;
              var t := GetProperty(info, VariableProp, ident);
              && (t.None? ==> r == (Unknown, []))
              && (t.Some? ==> r == (Known(t.value), [Ref(PathTo(info.data.value, ident))]))
  {
    match InfoOf(infos, receiver)
    case None => (Unknown, [])
    case Some(info) =>
      if isCall then (receiver, [])
      else
        match GetProperty(info, VariableProp, ident)
        case None => (Unknown, [])
        case Some(t) => (Known(t), [Ref(PathTo(info.data.value, ident))])
  }

  /**
   * A member access `obj.n` on an object of class `p` whose body was `ms`: a member declared
   * with a type resolves to that type and references `p.n`, exactly where the member was
   * defined; anything else is UNKNOWN with no reference.
   */
  lemma MemberRefHasDef(infos: Registry, p: string, ms: seq<MemberDecl>, n: string)
    requires DataForVariables(infos)
    requires forall k :: k in Entry(infos, p).props ==> k.kind != VariableProp
    ensures var classInfos := RecordMembers(SetData(infos, p, p), p, ms);
            && DataForVariables(classInfos)
            && MemberAccess(classInfos, Known(p), false, n)
                 == if MemberType(ms, n).Some? && MemberType(ms, n).value.Some?
                    then (Known(MemberType(ms, n).value.value), [Ref(PathTo(p, n))])
                    else (Unknown, [])
    ensures MemberType(ms, n).Some? ==> PathTo(p, n) in DefPaths(MemberRecords(p, ms))
  {
    var withData := SetData(infos, p, p);
    var classInfos := RecordMembers(withData, p, ms);
    RecordMembersProps(withData, p, ms, n);
    if n in MemberNames(ms) {
      MemberRecordsCover(p, ms, n);
    }
  }

  /** The scope a resolved call is referenced under: the entry's data scope, else the root. */
  function ScopeOf(info: TypeInfo, rootPath: string): string
  {
    if info.data.Some? then info.data.value else rootPath
  }

  /**
   * The function a call resolves to, once its call-key is known (`processFnCallRef` after
   * the pop): the function property of the class in `className`, else the constructor's
   * own class (a constructor always resolves), else the function property of `props`; the
   * reference goes under the data scope of the entry that matched, or the root scope.
   */
  function CallTarget(infos: Registry, rootPath: string, props: TypeInfo, key: string,
                      isCtor: bool, className: Option<string>): (r: (Inferred, seq<Record>))
    requires className.Some? ==> className.value in infos
    requires isCtor ==> className.Some?
    ensures r.0 != NoType
    ensures r.0 == Unknown <==> r.1 == []
    ensures r.1 == [] || (|r.1| == 1 && r.1[0].Ref?)
    ensures isCtor ==> r.0 != Unknown
    ensures className.Some? && GetProperty(infos[className.value], FunctionProp, key).Some? ==>
              var own := infos[className.value];
              r == (Known(GetProperty(own, FunctionProp, key).value), [Ref(PathTo(ScopeOf(own, rootPath), key))])
    ensures className.None? || GetProperty(infos[className.value], FunctionProp, key).None? ==>
              var t := if isCtor then className else GetProperty(props, FunctionProp, key);
              r == if t.Some? then (Known(t.value), [Ref(PathTo(ScopeOf(props, rootPath), key))]) else (Unknown, [])
  {
    var own := if className.Some? then GetProperty(infos[className.value], FunctionProp, key) else None;
    var owner := if own.Some? then infos[className.value] else props;
    var t := if own.Some? then own else if isCtor then className else GetProperty(props, FunctionProp, key);
    if t.Some? then (Known(t.value), [Ref(PathTo(ScopeOf(owner, rootPath), key))])
    else (Unknown, [])
  }

  /**
   * `processFnCallRef` as a whole: nothing when the popped callee is null; otherwise the
   * callee's call-key (the constructor name of `className` for a constructor) resolved by
   * `CallTarget`.  Gives the types pushed and the records emitted.
   */
  function CallOutcome(infos: Registry, rootPath: string, props: TypeInfo, signature: string,
                       isCtor: bool, className: Option<string>, callee: Option<string>): (r: (seq<Inferred>, seq<Record>))
    requires className.Some? ==> className.value in infos
    requires isCtor ==> className.Some?
    ensures callee.None? ==> r == ([], [])
    ensures callee.Some? ==> |r.0| == 1 && (r.0[0] == Unknown <==> r.1 == [])
    ensures callee.Some? ==>
              var key := CallKey(if isCtor then ConstructorName(className.value) else callee.value, signature);
              r == ([CallTarget(infos, rootPath, props, key, isCtor, className).0], CallTarget(infos, rootPath, props, key, isCtor, className).1)
  {
    match callee
    case None => ([], [])
    case Some(ident) =>
      var methodName := if isCtor then ConstructorName(className.value) else ident;
      var target := CallTarget(infos, rootPath, props, CallKey(methodName, signature), isCtor, className);
      ([target.0], target.1)
  }

  /** How a plain call `f(...)` chooses what to resolve against. */
  datatype CallSite = CallSite(isCtor: bool, className: Option<string>, props: TypeInfo)

  /**
   * `exitFuncallexpression` for a plain callee: a callee naming a registered type, bare or
   * under the current scope, is a constructor of that type; anything else is looked up in
   * the current class and then the root entry.
   */
  function PlainCallSite(infos: Registry, currentPath: string, currentClass: Option<string>, callee: Option<string>): (r: CallSite)
    requires currentClass.Some? ==> currentClass.value in infos
    ensures r.className.Some? ==> r.className.value in infos
    ensures r.isCtor ==> r.className.Some? && r.props == infos[r.className.value]
    ensures r.isCtor <==> callee.Some? && (callee.value in infos || PathTo(currentPath, callee.value) in infos)
    ensures r.isCtor && callee.value in infos ==> r.className == callee
    ensures r.isCtor && callee.value !in infos ==> r.className == Some(PathTo(currentPath, callee.value))
    ensures !r.isCtor ==> r.props == Root(infos) && r.className == currentClass
  {
    match callee
    case Some(name) =>
      if name in infos then CallSite(true, Some(name), infos[name])
      else if PathTo(currentPath, name) in infos then CallSite(true, Some(PathTo(currentPath, name)), infos[PathTo(currentPath, name)])
      else CallSite(false, currentClass, Root(infos))
    case None => CallSite(false, currentClass, Root(infos))
  }

  /**
   * With the callee `C` on top of the callee stack, a constructor call of the class `p`
   * declared as `C` references the path `p.C(_,…)` of a constructor `C` with as many
   * parameters as the call has arguments.
   */
  lemma CtorCallMatchesCtorDef(infos: Registry, rootPath: string, cur: string, c: string, n: nat, callee: string)
    requires '.' !in c
    requires PathTo(cur, c) in infos && infos[PathTo(cur, c)].data == Some(PathTo(cur, c))
    ensures var p := PathTo(cur, c);
            CallOutcome(infos, rootPath, infos[p], Placeholders(n), true, Some(p), Some(callee)).1
              == [Ref(PathTo(p, CallKey(c, Placeholders(n))))]
  {
    ConstructorNameOfPath(cur, c);
  }

  /**
   * With the callee on top of the callee stack, a call with `n` arguments of a free function
   * declared at the root with `n` parameters resolves to that function's definition path
   * and pushes its return type.
   */
  lemma FreeCallMatchesDefinition(infos: Registry, name: string, n: nat, ret: string)
    requires RootPath in infos ==> infos[RootPath].data.None?
    ensures var key := CallKey(name, Placeholders(n));
            var declared := SetProperty(infos, RootPath, PropKey(FunctionProp, key), Some(ret));
            CallOutcome(declared, RootPath, Root(declared), Placeholders(n), false, None, Some(name))
              == ([Known(ret)], [Ref(PathTo(RootPath, key))])
  {
  }

  /**
   * Inside the body of class `c`, with the callee `m` on top of the callee stack, a plain
   * call `m(args)` of a method that `c` declares with as many parameters is looked up in the
   * class first: it pushes the method's return type and references `c.m(_,…)`, the path at
   * which the method was defined.
   */
  lemma MethodCallMatchesDefinition(infos: Registry, cur: string, c: string, m: string, n: nat, ret: string)
    requires c in infos && infos[c].data == Some(c)
    requires m !in infos && PathTo(cur, m) !in infos && m != c && PathTo(cur, m) != c
    ensures var key := CallKey(m, Placeholders(n));
            var declared := SetProperty(infos, c, PropKey(FunctionProp, key), Some(ret));
            var site := PlainCallSite(declared, cur, Some(c), Some(m));
            && !site.isCtor && site.className == Some(c)
            && CallOutcome(declared, RootPath, site.props, Placeholders(n), site.isCtor, site.className, Some(m))
                 == ([Known(ret)], [Ref(PathTo(c, key))])
  {
  }

  /**
   * A member call `a.f(args)` looked up in the entry of the receiver's class `a`, which
   * declares `f` with as many parameters: it pushes the method's return type and references
   * `a.f(_,…)`, the path at which the method was defined.
   */
  lemma ReceiverCallMatchesDefinition(infos: Registry, a: string, f: string, n: nat, ret: string)
    requires a in infos && infos[a].data == Some(a)
    ensures var key := CallKey(f, Placeholders(n));
            var declared := SetProperty(infos, a, PropKey(FunctionProp, key), Some(ret));
            CallOutcome(declared, RootPath, declared[a], Placeholders(n), false, None, Some(f))
              == ([Known(ret)], [Ref(PathTo(a, key))])
  {
  }
}
