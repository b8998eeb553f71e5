/**
 * The input-parameter list editor (`renderParamBuilder`), identical in
 * components/PromptDebugger.tsx and components/TaskList.tsx: add a blank row,
 * edit one field of the rows with a given id, remove the rows with a given id.
 */
module Params {
  import opened Lists

  datatype InputParam = InputParam(id: string, name: string, paramType: string, source: string, description: string)

  /** `keyof InputParam`: the field an edit targets. */
  datatype Field = Id | Name | ParamType | Source | Description

  function IdOf(p: InputParam): string {
    p.id
  }

  function Get(p: InputParam, field: Field): string {
    match field
    case Id => p.id
    case Name => p.name
    case ParamType => p.paramType
    case Source => p.source
    case Description => p.description
  }

  /** `{ ...p, [field]: value }`. */
  function With(p: InputParam, field: Field, value: string): (q: InputParam)
    ensures Get(q, field) == value
    ensures forall other: Field | other != field :: Get(q, other) == Get(p, other)
  {
    match field
    case Id => p.(id := value)
    case Name => p.(name := value)
    case ParamType => p.(paramType := value)
    case Source => p.(source := value)
    case Description => p.(description := value)
  }

  /** The row `addParam` appends: a fresh id, an empty name, a string quoted from upstream. */
  function BlankParam(freshId: string): InputParam {
    InputParam(freshId, "", "string", "引用", "")
  }

  /** `addParam`: exactly one blank row, at the end; `freshId` stands for `Date.now().toString()`. */
  function AddParam(params: seq<InputParam>, freshId: string): (r: seq<InputParam>)
    ensures |r| == |params| + 1 && r[..|params|] == params
    ensures r[|params|].id == freshId && r[|params|].name == ""
  {
    params + [BlankParam(freshId)]
  }

  /** `updateParam`: only the chosen field of the rows with that id changes; length and order are kept. */
  function UpdateParam(params: seq<InputParam>, id: string, field: Field, value: string): (r: seq<InputParam>)
    ensures |r| == |params|
    ensures forall k | 0 <= k < |params| && params[k].id == id :: r[k] == With(params[k], field, value)
    ensures forall k | 0 <= k < |params| && params[k].id != id :: r[k] == params[k]
  {
    MapById(params, IdOf, id, p => With(p, field, value))
  }

  /** `removeParam`: drops exactly the rows with that id, keeping every other row and their order. */
  function RemoveParam(params: seq<InputParam>, id: string): (r: seq<InputParam>)
    ensures |r| <= |params|
    ensures forall p | p in r :: p in params && p.id != id
    ensures forall p | p in params && p.id != id :: multiset(r)[p] == multiset(params)[p]
  {
    WithoutId(params, IdOf, id)
  }

  /** One action of the builder: its add button, a field's input, or a row's delete button. */
  datatype ParamEdit =
    | Add(freshId: string)
    | Update(id: string, field: Field, value: string)
    | Remove(id: string)

  /** The list after one builder action. */
  function Apply(params: seq<InputParam>, edit: ParamEdit): (r: seq<InputParam>)
    ensures edit.Add? ==> |r| == |params| + 1 && r[..|params|] == params
    ensures edit.Update? ==> |r| == |params|
    ensures edit.Remove? ==> |r| <= |params| && forall p | p in r :: p in params && p.id != edit.id
  {
    match edit
    case Add(freshId) => AddParam(params, freshId)
    case Update(id, field, value) => UpdateParam(params, id, field, value)
    case Remove(id) => RemoveParam(params, id)
  }

  /** Removing the row just added (under an id no other row has) restores the list. */
  lemma RemoveUndoesAdd(params: seq<InputParam>, freshId: string)
    requires forall p | p in params :: p.id != freshId
    ensures RemoveParam(AddParam(params, freshId), freshId) == params
  {
    WithoutIdAppend(params, [BlankParam(freshId)], IdOf, freshId);
    WithoutAbsentId(params, IdOf, freshId);
    assert WithoutId([BlankParam(freshId)], IdOf, freshId) == [];
  }

  /** Removing rows keeps the others in their relative order: removal commutes with concatenation. */
  lemma RemoveKeepsOrder(front: seq<InputParam>, back: seq<InputParam>, id: string)
    ensures RemoveParam(front + back, id) == RemoveParam(front, id) + RemoveParam(back, id)
  {
    WithoutIdAppend(front, back, IdOf, id);
  }

  /** Setting a field to the same value twice is the same as setting it once. */
  lemma UpdateIdempotent(params: seq<InputParam>, id: string, field: Field, value: string)
    ensures UpdateParam(UpdateParam(params, id, field, value), id, field, value) == UpdateParam(params, id, field, value)
  {
    var once := UpdateParam(params, id, field, value);
    var twice := UpdateParam(once, id, field, value);
    forall k | 0 <= k < |params|
      ensures twice[k] == once[k]
    {
      if params[k].id == id && field != Id {
        assert once[k].id == id;
      }
    }
  }
}
