/**
 * The Clojure front-end's parse-tree listener: function definitions open a scope named
 * after the function, symbols resolve through the scope context, and a pass flag decides
 * what reaches the sink (definitions on the first pass, references on the second).
 */
module ClojureListener {
  import opened Wrappers
  import opened Scopes

  /** The display data of a definition: keyword, representation and kind. */
  datatype DefData = DefData(keyword: string, repr: string, kind: string)

  /** A function definition: keyword `defn`, empty representation, kind `defn`. */
  const FunctionDefData: DefData := DefData("defn", "", "defn")

  /** What the listener hands to the sink, with its def-key path. */
  datatype Record = DefRecord(data: DefData, path: string) | RefRecord(path: string)

  /** The two `emit` gates: a definition passes only on the first pass, a reference only on the second. */
  function Forwarded(firstPass: bool, r: Record): (out: seq<Record>)
    ensures out == [] || out == [r]
    ensures out != [] <==> r.DefRecord? == firstPass
  {
    if r.DefRecord? == firstPass then [r] else []
  }

  function DefPaths(sink: seq<Record>): set<string>
  {
    set r | r in sink && r.DefRecord? :: r.path
  }

  /**
   * `new Scope<Boolean>(name)`: the scope of a function body.  Its path is taken to be the
   * bare name (an empty prefix).
   */
  function FunctionScope(name: string): Scope<bool>
  {
    NewScope(name, "")
  }

  // ---------------------------------------------------------------------------
  // The listener's state and its events
  // ---------------------------------------------------------------------------

  datatype State = State(scopes: seq<Scope<bool>>, sink: seq<Record>)

  const Initial: State := State([RootScope()], [])

  datatype Event = EnterFunction(name: string) | ExitFunction | Symbol(ident: string)

  /** Whether an event can happen with `depth` scopes on the stack: the root scope is never left. */
  predicate Allowed(depth: nat, e: Event)
  {
    depth > 0 && (e.ExitFunction? ==> depth > 1)
  }

  /**
   * One handler.  `enterFunction_def` emits the function's definition at its path under
   * the current scope, binds the name to `true` there and enters the function's scope;
   * `exitFunction_def` leaves it; `enterSymbol` emits, on a hit, a reference at the path of
   * the name under the innermost scope that binds it, and nothing on a miss.
   */
  function Step(firstPass: bool, st: State, e: Event): (r: State)
    requires Allowed(|st.scopes|, e)
    ensures |r.scopes| == |st.scopes| + (if e.EnterFunction? then 1 else 0) - (if e.ExitFunction? then 1 else 0)
    ensures !e.ExitFunction? ==> r.scopes[..|st.scopes| - 1] == st.scopes[..|st.scopes| - 1]
    ensures e.ExitFunction? ==> r.scopes == st.scopes[..|st.scopes| - 1]
    ensures |r.sink| >= |st.sink| && r.sink[..|st.sink|] == st.sink
    ensures forall x :: x in r.sink[|st.sink|..] ==> x.DefRecord? == firstPass
  {
    var top := st.scopes[|st.scopes| - 1];
    match e
    case EnterFunction(name) =>
      State(st.scopes[..|st.scopes| - 1] + [Put(top, name, true), FunctionScope(name)],
            st.sink + Forwarded(firstPass, DefRecord(FunctionDefData, PathTo(top.path, name))))
    case ExitFunction =>
      State(st.scopes[..|st.scopes| - 1], st.sink)
    case Symbol(ident) =>
      match Lookup(st.scopes, ident)
      case None => st
      case Some(f) => State(st.scopes, st.sink + Forwarded(firstPass, RefRecord(PathTo(st.scopes[f.index].path, ident))))
  }

  /** The scopes evolve the same way on both passes. */
  lemma ScopesIgnorePass(st: State, t: State, e: Event)
    requires st.scopes == t.scopes && Allowed(|st.scopes|, e)
    ensures Step(true, st, e).scopes == Step(false, t, e).scopes
  {
  }

  /** Leaving a function restores the stack as it was, with the function's name now bound in the enclosing scope. */
  lemma ExitRestoresDepth(firstPass: bool, st: State, name: string)
    requires |st.scopes| > 0
    ensures var inner := Step(firstPass, st, EnterFunction(name));
            var after := Step(firstPass, inner, ExitFunction);
            && |after.scopes| == |st.scopes|
            && after.scopes == st.scopes[..|st.scopes| - 1] + [Put(st.scopes[|st.scopes| - 1], name, true)]
  {
    var inner := Step(firstPass, st, EnterFunction(name));
    assert inner.scopes[..|inner.scopes| - 1] == st.scopes[..|st.scopes| - 1] + [Put(st.scopes[|st.scopes| - 1], name, true)];
  }

  /** A sequence of events none of which leaves the root scope. */
  predicate Nested(depth: nat, events: seq<Event>)
    decreases |events|
  {
    events == [] || (Allowed(depth, events[0]) && Nested(depth + (if events[0].EnterFunction? then 1 else 0) - (if events[0].ExitFunction? then 1 else 0), events[1..]))
  }

  /** The listener's state after a walk. */
  function Run(firstPass: bool, st: State, events: seq<Event>): (r: State)
    requires Nested(|st.scopes|, events)
    decreases |events|
  {
    if events == [] then st else Run(firstPass, Step(firstPass, st, events[0]), events[1..])
  }

  /** Every name bound in a scope has been defined, on the first pass, at its path under that scope. */
  ghost predicate BoundNamesDefined(scopes: seq<Scope<bool>>, sink: seq<Record>)
  {
    forall i, n :: 0 <= i < |scopes| && n in scopes[i].bindings ==> PathTo(scopes[i].path, n) in DefPaths(sink)
  }

  /** Every reference of `refs` points at a definition of `defs`. */
  ghost predicate RefsDefined(refs: seq<Record>, defs: seq<Record>)
  {
    forall x :: x in refs && x.RefRecord? ==> x.path in DefPaths(defs)
  }

  lemma StepKeepsDefinitions(first: State, second: State, e: Event)
    requires first.scopes == second.scopes && Allowed(|first.scopes|, e)
    requires BoundNamesDefined(first.scopes, first.sink) && RefsDefined(second.sink, first.sink)
    ensures var first' := Step(true, first, e);
            var second' := Step(false, second, e);
            BoundNamesDefined(first'.scopes, first'.sink) && RefsDefined(second'.sink, first'.sink)
  {
    var first' := Step(true, first, e);
    var second' := Step(false, second, e);
    assert DefPaths(first.sink) <= DefPaths(first'.sink) by {
      assert forall x :: x in first.sink ==> x in first'.sink by {
        assert first'.sink[..|first.sink|] == first.sink;
      }
    }
    match e
    case EnterFunction(name) =>
      var top := first.scopes[|first.scopes| - 1];
      var d := DefRecord(FunctionDefData, PathTo(top.path, name));
      assert first'.sink == first.sink + [d];
      assert d in first'.sink;
      forall i, n | 0 <= i < |first'.scopes| && n in first'.scopes[i].bindings
        ensures PathTo(first'.scopes[i].path, n) in DefPaths(first'.sink)
      {
        if i < |first.scopes| - 1 {
          assert first'.scopes[i] == first.scopes[i];
        } else if i == |first.scopes| - 1 && n != name {
          assert n in top.bindings;
        }
      }
      assert second'.sink == second.sink;
    case ExitFunction =>
    case Symbol(ident) =>
      var found := Lookup(first.scopes, ident);
      if found.Some? {
        var q := PathTo(first.scopes[found.value.index].path, ident);
        assert q in DefPaths(first.sink);
        assert second'.sink == second.sink + [RefRecord(q)];
      }
  }

  lemma {:induction false} RunKeepsDefinitions(first: State, second: State, events: seq<Event>)
    requires first.scopes == second.scopes && Nested(|first.scopes|, events)
    requires BoundNamesDefined(first.scopes, first.sink) && RefsDefined(second.sink, first.sink)
    ensures RefsDefined(Run(false, second, events).sink, Run(true, first, events).sink)
    decreases |events|
  {
    if events != [] {
      StepKeepsDefinitions(first, second, events[0]);
      ScopesIgnorePass(first, second, events[0]);
      RunKeepsDefinitions(Step(true, first, events[0]), Step(false, second, events[0]), events[1..]);
    }
  }

  /**
   * The point of the two passes: walking the same tree twice, every reference the second
   * pass emits points at a definition the first pass emitted.
   */
  lemma SecondPassRefsDefined(events: seq<Event>)
    requires Nested(1, events)
    ensures RefsDefined(Run(false, Initial, events).sink, Run(true, Initial, events).sink)
  {
    RunKeepsDefinitions(Initial, Initial, events);
  }

  /** What each pass emits: only definitions on the first, only references on the second. */
  lemma {:induction false} RunGated(firstPass: bool, st: State, events: seq<Event>)
    requires Nested(|st.scopes|, events)
    requires forall x :: x in st.sink ==> x.DefRecord? == firstPass
    ensures forall x :: x in Run(firstPass, st, events).sink ==> x.DefRecord? == firstPass
    decreases |events|
  {
    if events != [] {
      var next := Step(firstPass, st, events[0]);
      assert next.sink == st.sink + next.sink[|st.sink|..];
      RunGated(firstPass, next, events[1..]);
    }
  }

  // ---------------------------------------------------------------------------
  // The listener object
  // ---------------------------------------------------------------------------

  class Listener {
    /** The scope context; index 0 is the root scope. */
    var scopes: seq<Scope<bool>>
    /** Everything emitted, in order. */
    var sink: seq<Record>
    /** `support.firstPass`. */
    const firstPass: bool

    function AsState(): State
      reads this
    {
      State(scopes, sink)
    }

    ghost predicate Valid()
      reads this
    {
      |scopes| > 0 && forall x :: x in sink ==> x.DefRecord? == firstPass
    }

    constructor (firstPass: bool)
      ensures Valid() && this.firstPass == firstPass && AsState() == Initial
    {
      this.firstPass := firstPass;
      scopes := [RootScope()];
      sink := [];
    }

    /** `emit(Def, path)`: forwarded only on the first pass. */
    method EmitDef(data: DefData, path: string)
      modifies this`sink
      ensures sink == old(sink) + Forwarded(firstPass, DefRecord(data, path))
    {
      if !firstPass {
        return;
      }
      sink := sink + [DefRecord(data, path)];
    }

    /** `emit(Ref, path)`: forwarded only on the second pass. */
    method EmitRef(path: string)
      modifies this`sink
      ensures sink == old(sink) + Forwarded(firstPass, RefRecord(path))
    {
      if firstPass {
        return;
      }
      sink := sink + [RefRecord(path)];
    }

    /** `enterFunction_def`. */
    method EnterFunctionDef(name: string)
      requires Valid()
      modifies this`scopes, this`sink
      ensures Valid()
      ensures AsState() == Step(firstPass, old(AsState()), EnterFunction(name))
    {
      var top := scopes[|scopes| - 1];
      EmitDef(FunctionDefData, PathTo(top.path, name));
      scopes := scopes[..|scopes| - 1] + [Put(top, name, true)];
      scopes := scopes + [FunctionScope(name)];
    }

    /** `exitFunction_def`: leaves the function's scope. */
    method ExitFunctionDef()
      requires Valid() && |scopes| > 1
      modifies this`scopes
      ensures Valid()
      ensures AsState() == Step(firstPass, old(AsState()), ExitFunction)
    {
      scopes := scopes[..|scopes| - 1];
    }

    /** `enterSymbol`. */
    method EnterSymbol(ident: string)
      requires Valid()
      modifies this`sink
      ensures Valid()
      ensures AsState() == Step(firstPass, old(AsState()), Symbol(ident))
    {
      var result := Lookup(scopes, ident);
      if result.None? {
        return;
      }
      EmitRef(PathTo(scopes[result.value.index].path, ident));
    }
  }
}
