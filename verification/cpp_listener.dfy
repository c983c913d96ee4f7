/**
 * The C++ front-end's parse-tree listener as a state machine over its own fields: the scope
 * context, the type stack, the stack of pending callees, the current class, the type-info
 * registry and the sink of emitted definitions and references.  Each handler takes the
 * facts of its parse-tree node as parameters.
 */
module CppListener {
  import opened Wrappers
  import opened Scopes
  import opened Signatures
  import opened TypeInfos
  import opened CppModel

  class Listener {
    /** The scope context; index 0 is the root scope. */
    var scopes: seq<Scope<Variable>>
    /** Types of the sub-expressions exited so far. */
    var typeStack: seq<Inferred>
    /** Callee names awaiting their call; None for sub-expressions that cannot be callees. */
    var fnCallStack: seq<Option<string>>
    /** Path of the class whose body is being walked. */
    var currentClass: Option<string>
    /** The shared type-info registry. */
    var infos: Registry
    /** Everything emitted, in order. */
    var sink: seq<Record>

    ghost predicate Valid()
      reads this
    {
      Invariant(scopes, currentClass, infos, sink)
    }

    function Top(): Scope<Variable>
      reads this
      requires |scopes| > 0
    {
      scopes[|scopes| - 1]
    }

    /** `context.currentScope().getPath()`, also `context.getPath(sep)` and `context.getPrefix(sep)`. */
    function CurrentPath(): string
      reads this
      requires |scopes| > 0
    {
      Top().path
    }

    constructor (registry: Registry)
      requires DataForVariables(registry)
      ensures Valid()
      ensures scopes == [RootScope()] && typeStack == [] && fnCallStack == []
      ensures currentClass == None && infos == registry && sink == []
    {
      scopes := [RootScope()];
      typeStack := [];
      fnCallStack := [];
      currentClass := None;
      infos := registry;
      sink := [];
    }

    // -------------------------------------------------------------------------
    // Namespaces and scope exits
    // -------------------------------------------------------------------------

    /** `enterOriginalnamespacedefinition` and `enterExtensionnamespacedefinition`: a named scope under the current one. */
    method EnterNamespaceDefinition(name: string)
      requires Valid()
      modifies this`scopes
      ensures Valid()
      ensures scopes == old(scopes) + [NewScope(name, old(CurrentPath()))]
    {
      scopes := scopes + [NewScope(name, CurrentPath())];
    }

    /** `enterUnnamednamespacedefinition`: a fresh anonymous child of the current scope. */
    method EnterUnnamedNamespaceDefinition()
      requires Valid()
      modifies this`scopes
      ensures Valid()
      ensures var n := Next(old(Top()));
              scopes == old(scopes[..|scopes| - 1]) + [n.0, n.1]
      ensures CurrentPath() == PathTo(old(CurrentPath()), Decimal(old(Top().counter)))
    {
      var n := Next(Top());
      scopes := scopes[..|scopes| - 1] + [n.0, n.1];
      assert forall i :: 0 <= i < |scopes| - 1 ==> scopes[i].path == old(scopes)[i].path && scopes[i].bindings == old(scopes)[i].bindings;
    }

    /**
     * The exits of the three namespace kinds and `exitFunctiondefinition`: leave the
     * current scope; the root scope is never left.
     */
    method ExitScope()
      requires Valid() && |scopes| > 1
      modifies this`scopes
      ensures Valid()
      ensures scopes == old(scopes[..|scopes| - 1])
    {
      scopes := scopes[..|scopes| - 1];
    }

    // -------------------------------------------------------------------------
    // Classes
    // -------------------------------------------------------------------------

    /**
     * `enterClassspecifier`: defines the class at its path, references its base classes,
     * enters the class scope, registers the scope as the class's data, makes it the
     * current class and processes the member declarations (`processMembers`): per
     * declaration a reference to its type, then per declarator with an identifier a member
     * definition, a binding in the class scope and a variable property of the class.
     */
    method EnterClassSpecifier(className: string, classKey: string, bases: seq<string>, members: seq<MemberDecl>)
      requires Valid()
      modifies this`scopes, this`sink, this`infos, this`currentClass
      ensures Valid()
      ensures var p := PathTo(old(CurrentPath()), className);
              && sink == old(sink) + ([Def(ClassKey(classKey), p)] + BaseRefs(bases) + MemberRecords(p, members))
              && scopes == old(scopes) + [Scope(old(CurrentPath()), p, 0, BindMembers(map[], members))]
              && infos == RecordMembers(SetData(old(infos), p, p), p, members)
              && currentClass == Some(p)
    {
      var p := PathTo(CurrentPath(), className);
      var head := [Def(ClassKey(classKey), p)] + BaseRefs(bases);
      ClassScopeDefined(scopes, sink, head, CurrentPath(), p, members);
      sink := sink + (head + MemberRecords(p, members));
      scopes := scopes + [Scope(CurrentPath(), p, 0, BindMembers(map[], members))];
      infos := RecordMembers(SetData(infos, p, p), p, members);
      currentClass := Some(p);
    }

    /** `exitClassspecifier`: leaves the class scope; no class is current any more. */
    method ExitClassSpecifier()
      requires Valid() && |scopes| > 1
      modifies this`scopes, this`currentClass
      ensures Valid()
      ensures scopes == old(scopes[..|scopes| - 1]) && currentClass == None
    {
      scopes := scopes[..|scopes| - 1];
      currentClass := None;
    }

    // -------------------------------------------------------------------------
    // Declarations and function definitions
    // -------------------------------------------------------------------------

    /**
     * `enterSimpledeclaration` (with `processDeclarationVariables`): references the declared
     * type, then defines and binds each declarator with an identifier in the current
     * scope, with that type.
     */
    method EnterSimpleDeclaration(spec: Option<TypeSpec>, names: seq<Option<string>>)
      requires Valid()
      modifies this`scopes, this`sink
      ensures Valid()
      ensures sink == old(sink) + (SpecRefs(spec) + NameDefs(VariableDef, old(CurrentPath()), names))
      ensures scopes == old(scopes[..|scopes| - 1]) + [old(Top()).(bindings := BindNames(old(Top().bindings), names, SpecType(spec)))]
    {
      DeclaratorsDefined(scopes, sink, SpecRefs(spec), VariableDef, names, SpecType(spec));
      sink := sink + (SpecRefs(spec) + NameDefs(VariableDef, CurrentPath(), names));
      scopes := scopes[..|scopes| - 1] + [Top().(bindings := BindNames(Top().bindings, names, SpecType(spec)))];
    }

    /**
     * `enterFunctiondefinition`: the return type (the enclosing scope's path for a
     * constructor without one), the parameters collected with their type references, the
     * function defined at `name(_,…,_)` under the current scope, its scope entered (under
     * the current scope's prefix, so beside the current scope) with each parameter defined
     * and bound there, and the return type recorded as a function property of the current
     * scope's path.
     */
    method EnterFunctionDefinition(name: string, retSpec: Option<TypeSpec>, params: seq<Param>)
      requires Valid()
      modifies this`scopes, this`sink, this`infos
      ensures Valid()
      ensures var cur := old(CurrentPath());
              var key := CallKey(name, Placeholders(|params|));
              var fnPath := FunctionScopePath(old(Top()), key);
              var ret := if retSpec.Some? then SpecType(retSpec) else Some(cur);
              && sink == old(sink) + (SpecRefs(retSpec) + ParamRefs(params) + [Def(FunctionDef, PathTo(cur, key))] + ParamDefs(fnPath, params))
              && scopes == old(scopes) + [Scope(old(Top().prefix), fnPath, 0, BindParams(map[], params))]
              && infos == SetProperty(old(infos), cur, PropKey(FunctionProp, key), ret)
    {
      var cur := CurrentPath();
      var ret := if retSpec.Some? then SpecType(retSpec) else Some(cur);
      var key, emitted, fnScope := CollectFunction(Top(), name, retSpec, params);
      FunctionScopeDefined(scopes, sink, SpecRefs(retSpec) + ParamRefs(params) + [Def(FunctionDef, PathTo(cur, key))],
                           Top().prefix, FunctionScopePath(Top(), key), params);
      FunctionPropKeepsData(infos, cur, key, ret);
      sink := sink + emitted;
      scopes := scopes + [fnScope];
      infos := SetProperty(infos, cur, PropKey(FunctionProp, key), ret);
    }

    /**
     * The part of `enterFunctiondefinition` that only computes, in the scope `current` the
     * function is defined in: the parameters collected with their type references, the
     * call-key from their signature, the definitions of the function (under `current`) and
     * of its parameters (under the function scope), and the function scope, a sibling of
     * `current`, with the parameters bound.
     */
    method CollectFunction(current: Scope<Variable>, name: string, retSpec: Option<TypeSpec>, params: seq<Param>)
      returns (key: string, emitted: seq<Record>, fnScope: Scope<Variable>)
      ensures key == CallKey(name, Placeholders(|params|))
      ensures emitted == SpecRefs(retSpec) + ParamRefs(params) + [Def(FunctionDef, PathTo(current.path, key))]
                         + ParamDefs(FunctionScopePath(current, key), params)
      ensures fnScope == Scope(current.prefix, FunctionScopePath(current, key), 0, BindParams(map[], params))
    {
      var collected, refs := ProcessFunctionParameters(params);
      var signature := GetSignature(collected);
      key := CallKey(name, signature);
      var fnPath := PathTo(current.prefix, key);
      var bindings, defs := BindParameters(fnPath, params);
      emitted := SpecRefs(retSpec) + refs + [Def(FunctionDef, PathTo(current.path, key))] + defs;
      fnScope := Scope(current.prefix, fnPath, 0, bindings);
    }

    /**
     * `processFunctionParameters`: the parameters collected in order, each with signature
     * token `_`, and the type references emitted on the way.
     */
    method ProcessFunctionParameters(params: seq<Param>) returns (collected: seq<FunctionParameter>, refs: seq<Record>)
      ensures collected == ToParameters(params) && refs == ParamRefs(params)
    {
      collected := [];
      refs := [];
      for i := 0 to |params|
        invariant collected == ToParameters(params[..i])
        invariant refs == ParamRefs(params[..i])
      {
        assert params[..i + 1][..i] == params[..i];
        refs := refs + SpecRefs(Some(params[i].spec));
        collected := collected + [ToParameter(params[i])];
      }
      assert params[..|params|] == params;
    }

    /**
     * The loop of `enterFunctiondefinition` over the parameters: each defined under the
     * function's path and bound, last write winning, in the function scope.
     */
    method BindParameters(fnPath: string, params: seq<Param>) returns (bindings: map<string, Variable>, defs: seq<Record>)
      ensures bindings == BindParams(map[], params) && defs == ParamDefs(fnPath, params)
      ensures forall n :: n in bindings <==> PathTo(fnPath, n) in DefPaths(defs)
    {
      bindings := map[];
      defs := [];
      for i := 0 to |params|
        invariant bindings == BindParams(map[], params[..i])
        invariant defs == ParamDefs(fnPath, params[..i])
      {
        assert params[..i + 1][..i] == params[..i];
        defs := defs + [Def(ArgumentDef, PathTo(fnPath, params[i].name))];
        bindings := bindings[params[i].name := Variable(SpecType(Some(params[i].spec)))];
      }
      assert params[..|params|] == params;
      forall n
        ensures n in bindings <==> PathTo(fnPath, n) in DefPaths(defs)
      {
        ParamDefsCover(fnPath, params, n);
      }
    }

    // -------------------------------------------------------------------------
    // Expressions
    // -------------------------------------------------------------------------

    /**
     * `exitPrimarypostfixexpression`.  A callee (the expression is the function part of a
     * call) only queues its name, the identifier's text or else the whole expression's;
     * `this` gives the current class; an expression without an identifier gives UNKNOWN;
     * an identifier is resolved by `ResolveName`.  The two former cases queue a null callee.
     */
    method ExitPrimaryPostfixExpression(isCallee: bool, isThis: bool, ident: Option<string>, text: string)
      requires Valid()
      modifies this`typeStack, this`fnCallStack, this`sink
      ensures Valid()
      ensures isCallee ==> typeStack == old(typeStack) && sink == old(sink)
                           && fnCallStack == old(fnCallStack) + [Some(if ident.Some? then ident.value else text)]
      ensures !isCallee && isThis ==>
                && typeStack == old(typeStack) + [if currentClass.Some? then Known(currentClass.value) else Unknown]
                && fnCallStack == old(fnCallStack) + [None] && sink == old(sink)
      ensures !isCallee && !isThis && ident.None? ==>
                typeStack == old(typeStack) + [Unknown] && fnCallStack == old(fnCallStack) + [None] && sink == old(sink)
      ensures !isCallee && !isThis && ident.Some? ==>
                var r := ResolveName(scopes, infos, ident.value);
                typeStack == old(typeStack) + [r.0] && sink == old(sink) + r.1 && fnCallStack == old(fnCallStack)
    {
      if isCallee {
        fnCallStack := fnCallStack + [Some(if ident.Some? then ident.value else text)];
        return;
      }
      if isThis {
        typeStack := typeStack + [if currentClass.Some? then Known(currentClass.value) else Unknown];
        fnCallStack := fnCallStack + [None];
        return;
      }
      if ident.None? {
        typeStack := typeStack + [Unknown];
        fnCallStack := fnCallStack + [None];
        return;
      }
      var r := ResolveName(scopes, infos, ident.value);
      BoundNamesGrow(scopes, sink, r.1);
      typeStack := typeStack + [r.0];
      sink := sink + r.1;
    }

    /**
     * `exitMemberaccessexpression` on `receiver.ident` or `receiver->ident`: replaces the
     * receiver's type by what `MemberAccess` gives, and queues `ident` when the access is
     * the function part of a call.
     */
    method ExitMemberAccessExpression(isCall: bool, ident: string)
      requires Valid() && |typeStack| > 0
      modifies this`typeStack, this`fnCallStack, this`sink
      ensures Valid()
      ensures var r := MemberAccess(infos, old(typeStack[|typeStack| - 1]), isCall, ident);
              && typeStack == old(typeStack[..|typeStack| - 1]) + [r.0]
              && sink == old(sink) + r.1
              && fnCallStack == old(fnCallStack) + (if isCall then [Some(ident)] else [])
    {
      var receiver := typeStack[|typeStack| - 1];
      var r := MemberAccess(infos, receiver, isCall, ident);
      if isCall {
        fnCallStack := fnCallStack + [Some(ident)];
      }
      BoundNamesGrow(scopes, sink, r.1);
      typeStack := typeStack[..|typeStack| - 1] + [r.0];
      sink := sink + r.1;
    }

    /** `exitCastpostfixexpression`: the target type, UNKNOWN when the cast has no type specifier. */
    method ExitCastPostfixExpression(spec: Option<TypeSpec>)
      requires Valid()
      modifies this`typeStack, this`sink
      ensures Valid()
      ensures typeStack == old(typeStack) + [if spec.None? then Unknown else Declared(SpecType(spec))]
      ensures sink == old(sink) + SpecRefs(spec)
    {
      BoundNamesGrow(scopes, sink, SpecRefs(spec));
      sink := sink + SpecRefs(spec);
      typeStack := typeStack + [if spec.None? then Unknown else Declared(SpecType(spec))];
    }

    /** `exitExplicittypeconversionexpression`: the converted-to type; nothing without a simple type specifier. */
    method ExitExplicitTypeConversionExpression(spec: Option<TypeSpec>)
      requires Valid()
      modifies this`typeStack, this`sink
      ensures Valid()
      ensures typeStack == old(typeStack) + (if spec.None? then [] else [Declared(SpecType(spec))])
      ensures sink == old(sink) + SpecRefs(spec)
    {
      if spec.Some? {
        BoundNamesGrow(scopes, sink, SpecRefs(spec));
        sink := sink + SpecRefs(spec);
        typeStack := typeStack + [Declared(SpecType(spec))];
      }
    }

    /**
     * `exitFuncallexpression`.  `primaryCallee` says whether the function part of the call
     * is a primary postfix expression (`f(args)`) or any other postfix expression, such as
     * `receiver.f(args)`.  In the latter case the type on top of the type stack is popped:
     * with no registry entry the call is UNKNOWN and its callee dropped, otherwise the call
     * resolves against that entry.  For `f(args)` the queued callee on top decides, by
     * `PlainCallSite`, between a constructor call and a call resolved against the current
     * class and the root entry.  Either way `processFnCallRef` pops the callee and, unless it
     * is null, pushes the resolved type or UNKNOWN.
     */
    method ExitFuncallExpression(primaryCallee: bool, exprList: Option<seq<bool>>)
      requires Valid() && |fnCallStack| > 0
      requires !primaryCallee ==> |typeStack| > 0
      modifies this`typeStack, this`fnCallStack, this`sink
      ensures Valid()
      ensures fnCallStack == old(fnCallStack[..|fnCallStack| - 1])
      ensures var signature := Placeholders(if exprList.None? then 0 else ClauseCount(exprList.value));
              var callee := old(fnCallStack[|fnCallStack| - 1]);
              if !primaryCallee then
                var receiver := old(InfoOf(infos, typeStack[|typeStack| - 1]));
                if receiver.None? then
                  typeStack == old(typeStack[..|typeStack| - 1]) + [Unknown] && sink == old(sink)
                else
                  var out := CallOutcome(infos, RootPath, receiver.value, signature, false, None, callee);
                  typeStack == old(typeStack[..|typeStack| - 1]) + out.0 && sink == old(sink) + out.1
              else
                var site := PlainCallSite(infos, old(CurrentPath()), currentClass, callee);
                var out := CallOutcome(infos, RootPath, site.props, signature, site.isCtor, site.className, callee);
                typeStack == old(typeStack) + out.0 && sink == old(sink) + out.1
    {
      var signature := CallSignature(exprList);
      var callee := fnCallStack[|fnCallStack| - 1];
      if !primaryCallee {
        var receiver := InfoOf(infos, typeStack[|typeStack| - 1]);
        typeStack := typeStack[..|typeStack| - 1];
        if receiver.None? {
          typeStack := typeStack + [Unknown];
          fnCallStack := fnCallStack[..|fnCallStack| - 1];
          return;
        }
        ProcessFnCallRef(receiver.value, signature, false, None);
        return;
      }
      var site := PlainCallSite(infos, CurrentPath(), currentClass, callee);
      ProcessFnCallRef(site.props, signature, site.isCtor, site.className);
    }

    /** `processFnCallRef`: pops the callee and resolves the call as `CallOutcome` says. */
    method ProcessFnCallRef(props: TypeInfo, signature: string, isCtor: bool, className: Option<string>)
      requires Valid() && |fnCallStack| > 0
      requires className.Some? ==> className.value in infos
      requires isCtor ==> className.Some?
      modifies this`typeStack, this`fnCallStack, this`sink
      ensures Valid()
      ensures fnCallStack == old(fnCallStack[..|fnCallStack| - 1])
      ensures var out := CallOutcome(infos, RootPath, props, signature, isCtor, className, old(fnCallStack[|fnCallStack| - 1]));
              typeStack == old(typeStack) + out.0 && sink == old(sink) + out.1
    {
      var fnIdent := fnCallStack[|fnCallStack| - 1];
      fnCallStack := fnCallStack[..|fnCallStack| - 1];
      if fnIdent.None? {
        return;
      }
      var methodName := if isCtor then ConstructorName(className.value) else fnIdent.value;
      var fnPath := CallKey(methodName, signature);
      var typ: Option<string> := None;
      var owner := props;
      if className.Some? {
        var currentProps := infos[className.value];
        typ := GetProperty(currentProps, FunctionProp, fnPath);
        if typ.Some? {
          owner := currentProps;
        }
      }
      if typ.None? {
        if isCtor {
          typ := className;
        } else {
          typ := GetProperty(props, FunctionProp, fnPath);
        }
      }
      if typ.Some? {
        var scope := if owner.data.Some? then owner.data.value else RootPath;
        BoundNamesGrow(scopes, sink, [Ref(PathTo(scope, fnPath))]);
        sink := sink + [Ref(PathTo(scope, fnPath))];
        typeStack := typeStack + [Known(typ.value)];
      } else {
        typeStack := typeStack + [Unknown];
      }
    }
  }

  /**
   * `Foo(3)` as the listener walks it: the callee `Foo` is queued, the literal argument `3`
   * pushes UNKNOWN and a null callee, and the call then peeks and pops that null.  The call
   * resolves to nothing, emits nothing, and leaves `Foo` queued.
   */
  method LiteralArgumentHidesCallee(l: Listener, callee: string)
    requires l.Valid()
    modifies l`typeStack, l`fnCallStack, l`sink
    ensures l.Valid()
    ensures l.sink == old(l.sink)
    ensures l.typeStack == old(l.typeStack) + [Unknown]
    ensures l.fnCallStack == old(l.fnCallStack) + [Some(callee)]
  {
    l.ExitPrimaryPostfixExpression(true, false, Some(callee), callee);
    l.ExitPrimaryPostfixExpression(false, false, None, "3");
    l.ExitFuncallExpression(true, Some([true]));
  }

  /**
   * `a.f(b)` as the listener walks it: `a` pushes its type, the member access `.f` keeps
   * that type and queues `f`, the argument `b` pushes its own type, and the call then pops
   * the top of the type stack as the receiver.  That is `b`'s type, so `f` is looked up in
   * `b`'s entry (or the call gives UNKNOWN when `b` has none), and `a`'s type stays on the
   * stack beneath the call's result.
   */
  method ArgumentTypeTakenAsReceiver(l: Listener, a: string, f: string, b: string)
    requires l.Valid()
    requires InfoOf(l.infos, ResolveName(l.scopes, l.infos, a).0).Some?
    modifies l`typeStack, l`fnCallStack, l`sink
    ensures l.Valid()
    ensures l.fnCallStack == old(l.fnCallStack)
    ensures var ra := ResolveName(l.scopes, l.infos, a);
            var rb := ResolveName(l.scopes, l.infos, b);
            var arg := InfoOf(l.infos, rb.0);
            var out := if arg.None? then ([Unknown], [])
                       else CallOutcome(l.infos, RootPath, arg.value, Placeholders(1), false, None, Some(f));
            && l.typeStack == old(l.typeStack) + [ra.0] + out.0
            && l.sink == old(l.sink) + (ra.1 + rb.1 + out.1)
  {
    l.ExitPrimaryPostfixExpression(false, false, Some(a), a);
    l.ExitMemberAccessExpression(true, f);
    l.ExitPrimaryPostfixExpression(false, false, Some(b), b);
    l.ExitFuncallExpression(false, Some([true]));
  }
}
