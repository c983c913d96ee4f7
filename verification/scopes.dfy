/**
 * Lexical scopes and the scope stack (the `Scope`, `Context` and `LookupResult`
 * collaborators of both front-ends), modelled only as far as the listeners use them:
 * a scope has the prefix it was constructed with (fixed from then on), its own
 * dotted path, a counter for anonymous children and a
 * name-to-value map;
 * a context is a stack of scopes whose element 0 is the root.
 */
module Scopes {
  import opened Wrappers

  /** The path separator both front-ends pass to `getPathTo`. */
  const Separator: char := '.'

  /** `Scope.getPathTo(name, '.')`: the name on its own under the root, else `path.name`. */
  function PathTo(path: string, name: string): string
  {
    if path == [] then name else path + [Separator] + name
  }

  /** Two names reached from the same scope have the same path only if they are the same name. */
  lemma PathToInjective(path: string, a: string, b: string)
    ensures PathTo(path, a) == PathTo(path, b) <==> a == b
  {
    if PathTo(path, a) == PathTo(path, b) && path != [] {
      var n := |path| + 1;
      assert a == PathTo(path, a)[n..];
      assert b == PathTo(path, b)[n..];
    }
  }

  /** Two paths give the same path to one name only if they are the same path. */
  lemma PathToInjectiveInPath(p: string, q: string, name: string)
    ensures PathTo(p, name) == PathTo(q, name) <==> p == q
  {
    if PathTo(p, name) == PathTo(q, name) && p != [] && q != [] {
      assert p == PathTo(p, name)[..|p|];
      assert q == PathTo(q, name)[..|q|];
    }
  }

  /** A scope: `prefix` is what `Scope.getPrefix()` returns, `path` is `prefix.name`. */
  datatype Scope<V> = Scope(prefix: string, path: string, counter: nat, bindings: map<string, V>)

  /** `new Scope<>(name, prefix)`: an empty scope whose path is `name` under `prefix`. */
  function NewScope<V>(name: string, prefix: string): Scope<V>
  {
    Scope(prefix, PathTo(prefix, name), 0, map[])
  }

  /** The root scope every context starts with: empty prefix and empty path. */
  function RootScope<V>(): Scope<V>
  {
    Scope([], [], 0, map[])
  }

  /** `Scope.put`: last write wins. */
  function Put<V>(s: Scope<V>, name: string, value: V): (r: Scope<V>)
    ensures r.prefix == s.prefix && r.path == s.path && r.counter == s.counter
    ensures name in r.bindings && r.bindings[name] == value
    ensures forall n :: n != name ==> (n in r.bindings <==> n in s.bindings)
    ensures forall n :: n != name && n in s.bindings ==> r.bindings[n] == s.bindings[n]
  {
    s.(bindings := s.bindings[name := value])
  }

  // ---------------------------------------------------------------------------
  // Anonymous child scopes (`Scope.next`)
  // ---------------------------------------------------------------------------

  function Digit(d: nat): char
    requires d < 10
  {
    ('0' as int + d) as char
  }

  predicate IsDigits(s: string)
  {
    forall i :: 0 <= i < |s| ==> '0' <= s[i] <= '9'
  }

  /** The decimal spelling of a counter value, as used for anonymous scope names. */
  function Decimal(n: nat): (r: string)
    ensures |r| > 0 && IsDigits(r)
  {
    if n < 10 then [Digit(n)] else Decimal(n / 10) + [Digit(n % 10)]
  }

  /** Reads a decimal spelling back: the inverse of `Decimal`. */
  function ParseDecimal(s: string): nat
    requires IsDigits(s)
  {
    if s == [] then 0 else ParseDecimal(s[..|s| - 1]) * 10 + (s[|s| - 1] as int - '0' as int)
  }

  lemma {:induction false} DecimalRoundTrip(n: nat)
    ensures ParseDecimal(Decimal(n)) == n
  {
    if n >= 10 {
      var s := Decimal(n);
      assert s[..|s| - 1] == Decimal(n / 10);
      DecimalRoundTrip(n / 10);
    }
  }

  /**
   * `Scope.next('.')`: the parent with its counter advanced, and a fresh empty child
   * whose name is the old counter in decimal.
   */
  function Next<V>(s: Scope<V>): (r: (Scope<V>, Scope<V>))
    ensures r.0.prefix == s.prefix && r.0.path == s.path && r.0.bindings == s.bindings && r.0.counter == s.counter + 1
    ensures r.1.bindings == map[] && r.1.prefix == s.path && r.1.path == PathTo(s.path, Decimal(s.counter))
  {
    (s.(counter := s.counter + 1), NewScope(Decimal(s.counter), s.path))
  }

  /** Anonymous children minted under one parent with different counters have different paths. */
  lemma AnonymousPathsDistinct(path: string, i: nat, j: nat)
    requires i != j
    ensures PathTo(path, Decimal(i)) != PathTo(path, Decimal(j))
  {
    DecimalRoundTrip(i);
    DecimalRoundTrip(j);
    PathToInjective(path, Decimal(i), Decimal(j));
  }

  /** Two successive `Next` calls on the same scope give siblings with different paths. */
  lemma {:induction false} NextIsFresh<V>(s: Scope<V>)
    ensures Next(Next(s).0).1.path != Next(s).1.path
  {
    AnonymousPathsDistinct(s.path, s.counter + 1, s.counter);
  }

  // ---------------------------------------------------------------------------
  // Context lookup
  // ---------------------------------------------------------------------------

  /** `LookupResult`: the index of the resolving scope in the stack, and the bound value. */
  datatype Found<V> = Found(index: nat, value: V)

  /**
   * `Context.lookup`: the innermost scope that binds `name`, scanning from the top of
   * the stack outwards; None when no scope binds it.
   */
  function Lookup<V>(scopes: seq<Scope<V>>, name: string): (r: Option<Found<V>>)
    ensures r.Some? ==> r.value.index < |scopes|
                        && name in scopes[r.value.index].bindings
                        && r.value.value == scopes[r.value.index].bindings[name]
                        && forall j :: r.value.index < j < |scopes| ==> name !in scopes[j].bindings
    ensures r.None? ==> forall j :: 0 <= j < |scopes| ==> name !in scopes[j].bindings
  {
    if scopes == [] then None
    else if name in scopes[|scopes| - 1].bindings then
      Some(Found(|scopes| - 1, scopes[|scopes| - 1].bindings[name]))
    else Lookup(scopes[..|scopes| - 1], name)
  }
}
