/**
 Query: selection, optional fold and a named action, and its wire shape
 `{search: {select: "devices", filters: selection}, <action.name>: action.value}`.
 As written, `toJSON()` refers to a bare `fold` rather than `this.fold`; no
 such identifier is in scope, so a query with a fold cannot be serialised.
 */
module Queries {
  import opened JsValues

  /** `{name, value}`: the action key and its action-specific argument object. */
  datatype Action = Action(name: string, value: JsValue)

  /** `new Query(selection, fold, action)`: all three stored unchanged. */
  datatype Query = Query(selection: JsValue, fold: JsValue, action: Action)

  /** The `search` clause: `{select: "devices", filters: selection}`. */
  function SearchClause(selection: JsValue): (clause: JsValue) {
    Obj(map["select" := Str("devices"), "filters" := selection])
  }

  /**
   `toJSON()`. A fold that is neither undefined nor null makes it read the
   out-of-scope `fold` and throw; otherwise the result has the search clause
   and the action, the action written last so that it wins a name clash.
   */
  function ToJson(q: Query): (r: Completion<JsValue>)
    ensures r.Throw? <==> !Nullish(q.fold)
    ensures r.Throw? ==> r.error == ReferenceError("fold")
    ensures r.Normal? ==> r.value.Obj? && r.value.props.Keys == {"search", q.action.name}
    ensures r.Normal? ==> "fold" !in r.value.props || q.action.name == "fold"
    ensures r.Normal? ==> r.value.props[q.action.name] == q.action.value
    ensures r.Normal? && q.action.name != "search" ==> r.value.props["search"] == SearchClause(q.selection)
  {
    if !Nullish(q.fold) then Throw(ReferenceError("fold"))
    else Normal(Obj(map["search" := SearchClause(q.selection)][q.action.name := q.action.value]))
  }

  /**
   Reading the serialised query back as the server would: the selection comes
   back verbatim under `search.filters`, and the action's value under its name.
   */
  lemma WireShape(q: Query)
    requires Nullish(q.fold)
    requires q.action.name != "search"
    ensures var j := ToJson(q).value;
      && GetProp(j, q.action.name) == Normal(q.action.value)
      && GetProp(j, "search") == Normal(SearchClause(q.selection))
      && GetProp(SearchClause(q.selection), "select") == Normal(Str("devices"))
      && GetProp(SearchClause(q.selection), "filters") == Normal(q.selection)
      && |ForIn(j)| == 2
  {
    var j := ToJson(q).value;
    assert ForIn(j).Keys == {"search", q.action.name};
  }

  /** An action named `search` replaces the search clause altogether. */
  lemma ActionNamedSearchWins(selection: JsValue, value: JsValue)
    ensures ToJson(Query(selection, Null, Action("search", value))) == Normal(Obj(map["search" := value]))
  {
    assert map["search" := SearchClause(selection)]["search" := value] == map["search" := value];
  }
}
