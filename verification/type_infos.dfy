/**
 * The type-info registry (`TypeInfos` and `TypeInfo`) of the C++ front-end, as far as the
 * listener uses it: per type path, an optional data scope (stored as the scope's path, the
 * only thing the listener reads from it) and properties keyed by (kind, name).  A property
 * may hold a null type (None); reading it back is then indistinguishable from a miss.
 */
module TypeInfos {
  import opened Wrappers

  datatype PropKind = FunctionProp | VariableProp

  datatype PropKey = PropKey(kind: PropKind, name: string)

  datatype TypeInfo = TypeInfo(data: Option<string>, props: map<PropKey, Option<string>>)

  type Registry = map<string, TypeInfo>

  const EmptyInfo: TypeInfo := TypeInfo(None, map[])

  /** The path of the root scope, under which free functions are recorded. */
  const RootPath: string := ""

  /** `infos.get(path)`: None when nothing is registered under the path. */
  function Get(infos: Registry, path: string): (r: Option<TypeInfo>)
    ensures r.Some? <==> path in infos
    ensures r.Some? ==> r.value == infos[path]
  {
    if path in infos then Some(infos[path]) else None
  }

  /** `infos.getRoot()`: the entry of the root path, empty while nothing is recorded there. */
  function Root(infos: Registry): TypeInfo
  {
    if RootPath in infos then infos[RootPath] else EmptyInfo
  }

  /** `TypeInfo.getProperty(kind, name)`: None for a missing property and for a null one. */
  function GetProperty(info: TypeInfo, kind: PropKind, name: string): Option<string>
  {
    var key := PropKey(kind, name);
    if key in info.props then info.props[key] else None
  }

  /** The entry under `path`, or an empty one that a write is about to create. */
  function Entry(infos: Registry, path: string): TypeInfo
  {
    if path in infos then infos[path] else EmptyInfo
  }

  /** `infos.setData(path, scope)`: creates the entry if needed, keeps its properties. */
  function SetData(infos: Registry, path: string, scopePath: string): (r: Registry)
    ensures r.Keys == infos.Keys + {path}
    ensures r[path].data == Some(scopePath)
    ensures path in infos ==> r[path].props == infos[path].props
    ensures path !in infos ==> r[path].props == map[]
    ensures forall p :: p in infos && p != path ==> r[p] == infos[p]
  {
    infos[path := Entry(infos, path).(data := Some(scopePath))]
  }

  /**
   * `infos.setProperty(owner, kind, name, value)`: creates the entry if needed; reading the
   * property back gives `value`, and every other property and entry is as before.
   */
  function SetProperty(infos: Registry, owner: string, key: PropKey, value: Option<string>): (r: Registry)
    ensures r.Keys == infos.Keys + {owner}
    ensures key in r[owner].props
    ensures GetProperty(r[owner], key.kind, key.name) == value
    ensures forall k :: k != key ==> (k in r[owner].props <==> k in Entry(infos, owner).props)
    ensures forall k, n :: PropKey(k, n) != key ==>
              GetProperty(r[owner], k, n) == GetProperty(Entry(infos, owner), k, n)
    ensures r[owner].data == Entry(infos, owner).data
    ensures forall p :: p in infos && p != owner ==> r[p] == infos[p]
  {
    var e := Entry(infos, owner);
    infos[owner := e.(props := e.props[key := value])]
  }

  /**
   * Every entry holding a variable property has a data scope: variables are recorded only
   * on class paths, and a class path has its data scope set first.
   */
  ghost predicate DataForVariables(infos: Registry)
  {
    forall p, k :: p in infos && k in infos[p].props && k.kind == VariableProp ==> infos[p].data.Some?
  }

  /** Recording a function property never breaks `DataForVariables`: only variable properties need a data scope. */
  lemma FunctionPropKeepsData(infos: Registry, owner: string, name: string, value: Option<string>)
    requires DataForVariables(infos)
    ensures DataForVariables(SetProperty(infos, owner, PropKey(FunctionProp, name), value))
  {
    var r := SetProperty(infos, owner, PropKey(FunctionProp, name), value);
    forall p, k | p in r && k in r[p].props && k.kind == VariableProp
      ensures r[p].data.Some?
    {
      if p == owner {
        assert k in Entry(infos, owner).props;
      }
    }
  }
}
