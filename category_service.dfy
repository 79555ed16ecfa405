/** The category service: an in-memory array of categories keyed by `Id`.
    Categories made through `create` are custom; only custom ones can be
    deleted. */
module CategoryService {
  import opened Base
  import opened Table

  datatype Category = Category(id: int, name: string, kind: Kind, isCustom: bool)

  /** What a caller hands to `create`; its `isCustom` is overridden. */
  datatype CategoryData = CategoryData(name: string, kind: Kind, isCustom: bool)

  /** A partial category for `update`. */
  datatype CategoryPatch = CategoryPatch(name: Option<string>, kind: Option<Kind>, isCustom: Option<bool>)

  function CategoryId(c: Category): int {
    c.id
  }

  /** `{ Id: id, ...data, isCustom: true }`: whatever the input says, a
      created category is custom. */
  function NewCategory(id: int, data: CategoryData): (c: Category)
    ensures c.id == id && c.isCustom
    ensures c.name == data.name && c.kind == data.kind
  {
    Category(id, data.name, data.kind, true)
  }

  /** The shallow merge `{ ...c, ...p }`: only the fields present in the
      patch change, and the Id never does. */
  function Merge(c: Category, p: CategoryPatch): (r: Category)
    ensures r.id == c.id
    ensures r.name == (if p.name.Some? then p.name.value else c.name)
    ensures r.kind == (if p.kind.Some? then p.kind.value else c.kind)
    ensures r.isCustom == (if p.isCustom.Some? then p.isCustom.value else c.isCustom)
  {
    c.(name := if p.name.Some? then p.name.value else c.name,
       kind := if p.kind.Some? then p.kind.value else c.kind,
       isCustom := if p.isCustom.Some? then p.isCustom.value else c.isCustom)
  }

  /** The guard of `delete`: the Id is present and its category is custom. */
  predicate Deletable(s: seq<Category>, id: int) {
    var index := IndexOfId(s, CategoryId, id);
    index.Some? && s[index.value].isCustom
  }

  /** The array after `delete(id)`: unchanged unless the category is
      present and custom, in which case exactly it is spliced out. */
  function Deleted(s: seq<Category>, id: int): (r: seq<Category>)
    ensures !Deletable(s, id) ==> r == s
    ensures Deletable(s, id) ==> r == DeleteById(s, CategoryId, id)
  {
    if Deletable(s, id) then DeleteById(s, CategoryId, id) else s
  }

  predicate IsBuiltIn(c: Category) {
    !c.isCustom
  }

  /** The built-in (non-custom) categories, in order. */
  function BuiltIns(s: seq<Category>): seq<Category> {
    Filter(s, IsBuiltIn)
  }

  /** A delete never touches a built-in category: the built-ins before and
      after are the same list. */
  lemma DeleteKeepsBuiltIns(s: seq<Category>, id: int)
    ensures BuiltIns(Deleted(s, id)) == BuiltIns(s)
  {
    if Deletable(s, id) {
      var k := IndexOfId(s, CategoryId, id).value;
      var before, after := s[..k], s[k + 1..];
      assert s == (before + [s[k]]) + after;
      assert Deleted(s, id) == before + after;
      FilterSnoc(before, s[k], IsBuiltIn);
      FilterConcat(before + [s[k]], after, IsBuiltIn);
      FilterConcat(before, after, IsBuiltIn);
    }
  }

  /** The array after a sequence of `delete` calls. */
  function DeletedAll(s: seq<Category>, ids: seq<int>): seq<Category>
    decreases |ids|
  {
    if ids == [] then s else DeletedAll(Deleted(s, ids[0]), ids[1..])
  }

  /** No sequence of deletes removes a built-in category. */
  lemma {:induction false} DeletesKeepBuiltIns(s: seq<Category>, ids: seq<int>)
    ensures BuiltIns(DeletedAll(s, ids)) == BuiltIns(s)
    decreases |ids|
  {
    if ids != [] {
      DeleteKeepsBuiltIns(s, ids[0]);
      DeletesKeepBuiltIns(Deleted(s, ids[0]), ids[1..]);
    }
  }

  /** `c => c.type === kind`, the `getByType` test. */
  function OfKind(kind: Kind): Category -> bool {
    (c: Category) => c.kind == kind
  }

  class CategoryStore {
    var categories: seq<Category>

    /** The store over its seed records. */
    constructor (seed: seq<Category>)
      ensures categories == seed
    {
      categories := seed;
    }

    /** `getAll`: a copy of the array in stored order. */
    method GetAll() returns (r: seq<Category>)
      ensures r == categories
    {
      r := categories;
    }

    /** `getById`: the record with that Id, or `null` when there is none. */
    method GetById(id: int) returns (r: Option<Category>)
      ensures r.None? <==> forall i :: 0 <= i < |categories| ==> categories[i].id != id
      ensures r.Some? ==> r.value in categories && r.value.id == id
      ensures UniqueIds(categories, CategoryId) ==>
                forall i :: 0 <= i < |categories| && categories[i].id == id ==> r == Some(categories[i])
    {
      r := FindById(categories, CategoryId, id);
    }

    /** `create`: the new category takes the next Id, is custom, and is appended. */
    method Create(data: CategoryData) returns (r: Category)
      modifies this
      ensures r == NewCategory(NextId(old(categories), CategoryId), data)
      ensures categories == old(categories) + [r]
      ensures old(UniqueIds(categories, CategoryId)) ==> UniqueIds(categories, CategoryId)
    {
      var newId := NextId(categories, CategoryId);
      r := NewCategory(newId, data);
      if UniqueIds(categories, CategoryId) {
        AppendNextIdKeepsUnique(categories, r, CategoryId);
      }
      categories := categories + [r];
    }

    /** `update`: `null` and no change for an absent Id; otherwise the patch
      is merged into that one record. */
    method Update(id: int, patch: CategoryPatch) returns (r: Option<Category>)
      modifies this
      ensures match IndexOfId(old(categories), CategoryId, id)
                case None => r == None && categories == old(categories)
                case Some(k) => categories == old(categories)[k := Merge(old(categories)[k], patch)] &&
                                r == Some(categories[k])
      ensures old(UniqueIds(categories, CategoryId)) ==> UniqueIds(categories, CategoryId)
    {
      var index := IndexOfId(categories, CategoryId, id);
      if index.None? {
        return None;
      }
      var k := index.value;
      if UniqueIds(categories, CategoryId) {
        ReplaceKeepingIdKeepsUnique(categories, k, Merge(categories[k], patch), CategoryId);
      }
      categories := categories[k := Merge(categories[k], patch)];
      r := Some(categories[k]);
    }

    /** `delete`: `false` and no change when the Id is absent or names a
      built-in category; otherwise that category is spliced out. */
    method Delete(id: int) returns (ok: bool)
      modifies this
      ensures ok == Deletable(old(categories), id)
      ensures categories == Deleted(old(categories), id)
      ensures BuiltIns(categories) == BuiltIns(old(categories))
    {
      DeleteKeepsBuiltIns(categories, id);
      var index := IndexOfId(categories, CategoryId, id);
      if index.None? || !categories[index.value].isCustom {
        return false;
      }
      categories := RemoveAt(categories, index.value);
      ok := true;
    }

    /** `getByType`: the categories of that kind, in stored order. */
    method GetByType(kind: Kind) returns (r: seq<Category>)
      ensures r == Filter(categories, OfKind(kind))
    {
      r := Filter(categories, OfKind(kind));
    }
  }
}
