/**
 * Call-keys of the C++ front-end: the arity-only signature of a declared function or of a
 * call site, the key `name(signature)` under which functions are recorded and looked up,
 * and the method name of a constructor call.
 */
module Signatures {
  import opened Wrappers

  /** Parts joined with a separator between neighbours (`StringUtils.join`, or a builder with a `first` flag). */
  function JoinWith(parts: seq<string>, sep: string): string
  {
    if |parts| == 0 then []
    else if |parts| == 1 then parts[0]
    else JoinWith(parts[..|parts| - 1], sep) + sep + parts[|parts| - 1]
  }

  /** `n` copies of the placeholder token `_`. */
  function Underscores(n: nat): seq<string>
  {
    seq(n, _ => "_")
  }

  /** The arity-only signature for `n` parameters or arguments. */
  function Placeholders(n: nat): string
  {
    JoinWith(Underscores(n), ",")
  }

  /**
   * The shape of a signature: `_` at even positions and `,` at odd ones, so `n`
   * placeholders give `n` underscores, `n - 1` commas, and the empty string for none.
   */
  lemma {:induction false} PlaceholdersShape(n: nat)
    ensures |Placeholders(n)| == if n == 0 then 0 else 2 * n - 1
    ensures forall i :: 0 <= i < |Placeholders(n)| ==>
              Placeholders(n)[i] == if i % 2 == 0 then '_' else ','
  {
    if n > 1 {
      assert Underscores(n)[..n - 1] == Underscores(n - 1);
      PlaceholdersShape(n - 1);
    }
  }

  /** The counts stated directly: `n` underscores and `n - 1` commas. */
  lemma {:induction false} PlaceholdersCount(n: nat)
    ensures multiset(Placeholders(n))['_'] == n
    ensures multiset(Placeholders(n))[','] == if n == 0 then 0 else n - 1
  {
    if n > 1 {
      assert Underscores(n)[..n - 1] == Underscores(n - 1);
      PlaceholdersCount(n - 1);
      assert Placeholders(n) == Placeholders(n - 1) + "," + "_";
    }
  }

  /** Different arities give different signatures. */
  lemma PlaceholdersInjective(n: nat, m: nat)
    ensures Placeholders(n) == Placeholders(m) <==> n == m
  {
    PlaceholdersShape(n);
    PlaceholdersShape(m);
  }

  /** `name + '(' + signature + ')'`. */
  function CallKey(name: string, signature: string): string
  {
    name + "(" + signature + ")"
  }

  /** The last `(` of a call-key is the one right after the name. */
  lemma LastParenOfCallKey(name: string, signature: string)
    requires '(' !in signature
    ensures LastIndexOf(CallKey(name, signature), '(') == Some(|name|)
  {
    var k := CallKey(name, signature);
    assert k[|name| + 1..] == signature + ")";
    assert k[|name|] == '(';
    forall j | 0 < j <= |name|
      ensures '(' in k[j..]
    {
      assert k[j..][|name| - j] == '(';
    }
  }

  /**
   * A call-key determines its name and its signature, whatever the name, as long as the
   * signature holds no `(`.
   */
  lemma CallKeyInjective(n1: string, s1: string, n2: string, s2: string)
    requires '(' !in s1 && '(' !in s2
    ensures CallKey(n1, s1) == CallKey(n2, s2) <==> n1 == n2 && s1 == s2
  {
    var k1, k2 := CallKey(n1, s1), CallKey(n2, s2);
    if k1 == k2 {
      LastParenOfCallKey(n1, s1);
      LastParenOfCallKey(n2, s2);
      assert n1 == k1[..|n1|] && n2 == k2[..|n2|];
      assert s1 == k1[|n1| + 1..|k1| - 1] && s2 == k2[|n2| + 1..|k2| - 1];
    }
  }

  /**
   * A call and a declaration produce the same call-key exactly when the names agree and
   * the number of arguments equals the number of parameters.
   */
  lemma CallKeyMatchesArity(name: string, n: nat, callee: string, m: nat)
    ensures CallKey(name, Placeholders(n)) == CallKey(callee, Placeholders(m)) <==> name == callee && n == m
  {
    PlaceholdersShape(n);
    PlaceholdersShape(m);
    assert '(' !in Placeholders(n) by {
      forall i | 0 <= i < |Placeholders(n)| ensures Placeholders(n)[i] != '(' { }
    }
    assert '(' !in Placeholders(m) by {
      forall i | 0 <= i < |Placeholders(m)| ensures Placeholders(m)[i] != '(' { }
    }
    CallKeyInjective(name, Placeholders(n), callee, Placeholders(m));
    PlaceholdersInjective(n, m);
  }

  // ---------------------------------------------------------------------------
  // Constructor names
  // ---------------------------------------------------------------------------

  /** `String.lastIndexOf(c)`: the last position holding `c`, None when there is none. */
  function LastIndexOf(s: string, c: char): (r: Option<nat>)
    ensures r.Some? ==> r.value < |s| && s[r.value] == c && c !in s[r.value + 1..]
    ensures r.None? ==> c !in s
  {
    if s == [] then None
    else if s[|s| - 1] == c then Some(|s| - 1)
    else
      var r := LastIndexOf(s[..|s| - 1], c);
      assert s == s[..|s| - 1] + [s[|s| - 1]];
      r
  }

  /**
   * The method name of a constructor call: what follows the last `.` of the class path,
   * or the whole path when it has no `.`.  It is the longest suffix without a `.`.
   */
  function ConstructorName(className: string): (r: string)
    ensures |r| <= |className| && r == className[|className| - |r|..]
    ensures '.' !in r
    ensures '.' !in className ==> r == className
    ensures '.' in className ==> |r| < |className| && className[|className| - |r| - 1] == '.'
  {
    match LastIndexOf(className, '.')
    case Some(pos) => className[pos + 1..]
    case None => className
  }

  /** The constructor name of a class path `prefix.Name` is the simple name the class was declared with. */
  lemma ConstructorNameOfPath(prefix: string, name: string)
    requires '.' !in name
    ensures ConstructorName(if prefix == [] then name else prefix + "." + name) == name
  {
    var p := if prefix == [] then name else prefix + "." + name;
    var r := ConstructorName(p);
    if prefix != [] {
      assert p[|prefix|] == '.';
      assert |r| == |name|;
      assert r == p[|p| - |name|..] == name;
    }
  }

  // ---------------------------------------------------------------------------
  // Declared parameters (`FunctionParameters`)
  // ---------------------------------------------------------------------------

  /**
   * One collected parameter: its name, its type (None for a null type), its display form
   * `type name`, and its signature token.
   */
  datatype FunctionParameter = FunctionParameter(name: string, typ: Option<string>, repr: string, signature: string)

  function SignatureParts(params: seq<FunctionParameter>): (r: seq<string>)
    ensures |r| == |params| && forall i :: 0 <= i < |params| ==> r[i] == params[i].signature
  {
    seq(|params|, i requires 0 <= i < |params| => params[i].signature)
  }

  function ReprParts(params: seq<FunctionParameter>): (r: seq<string>)
    ensures |r| == |params| && forall i :: 0 <= i < |params| ==> r[i] == params[i].repr
  {
    seq(|params|, i requires 0 <= i < |params| => params[i].repr)
  }

  /** `FunctionParameters.getSignature`: the parameters' signature tokens joined by `,`. */
  method GetSignature(params: seq<FunctionParameter>) returns (sig: string)
    ensures sig == JoinWith(SignatureParts(params), ",")
    ensures (forall p :: p in params ==> p.signature == "_") ==> sig == Placeholders(|params|)
  {
    sig := "";
    var first := true;
    for i := 0 to |params|
      invariant first <==> i == 0
      invariant sig == JoinWith(SignatureParts(params)[..i], ",")
    {
      if !first {
        sig := sig + ",";
      } else {
        first := false;
      }
      sig := sig + params[i].signature;
      assert SignatureParts(params)[..i + 1][..i] == SignatureParts(params)[..i];
    }
    assert SignatureParts(params)[..|params|] == SignatureParts(params);
    if forall p :: p in params ==> p.signature == "_" {
      assert SignatureParts(params) == Underscores(|params|);
    }
  }

  /** `FunctionParameters.getRepresentation`: the parameters' display forms joined by `, `. */
  method GetRepresentation(params: seq<FunctionParameter>) returns (repr: string)
    ensures repr == JoinWith(ReprParts(params), ", ")
  {
    repr := "";
    var first := true;
    for i := 0 to |params|
      invariant first <==> i == 0
      invariant repr == JoinWith(ReprParts(params)[..i], ", ")
    {
      if !first {
        repr := repr + ", ";
      } else {
        first := false;
      }
      repr := repr + params[i].repr;
      assert ReprParts(params)[..i + 1][..i] == ReprParts(params)[..i];
    }
    assert ReprParts(params)[..|params|] == ReprParts(params);
  }

  // ---------------------------------------------------------------------------
  // Call sites (`signature` and `processSignature`)
  // ---------------------------------------------------------------------------

  /** The number of initializer-list nodes that carry an initializer clause. */
  function ClauseCount(nodes: seq<bool>): nat
  {
    if nodes == [] then 0 else ClauseCount(nodes[..|nodes| - 1]) + (if nodes[|nodes| - 1] then 1 else 0)
  }

  /**
   * `signature(expressionlist)`: one `_` per initializer clause, joined by `,`; the empty
   * string when the call has no expression list.  Each element of `exprList` stands for one
   * node of the initializer list and says whether it carries a clause.
   */
  method CallSignature(exprList: Option<seq<bool>>) returns (sig: string)
    ensures sig == Placeholders(if exprList.None? then 0 else ClauseCount(exprList.value))
  {
    if exprList.None? {
      return "";
    }
    var nodes := exprList.value;
    var params: seq<string> := [];
    for i := 0 to |nodes|
      invariant params == Underscores(ClauseCount(nodes[..i]))
    {
      if nodes[i] {
        params := params + ["_"];
      }
      assert nodes[..i + 1][..i] == nodes[..i];
    }
    assert nodes[..|nodes|] == nodes;
    sig := JoinWith(params, ",");
  }
}
