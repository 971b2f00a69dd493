/** The `categories` table and `CategoriesService`: global (not per-user)
    create/read/update/delete, the listing by name, and the one-time seeding
    of the eight default categories. */
module Categories {
  import opened Wrappers
  import opened Table
  import opened Sorting
  import Tx = Transactions

  /** A row of the `categories` table. */
  datatype Category = Category(
    id: Id,
    name: string,
    icon: string,
    color: string,
    kind: Tx.TxType,
    isDefault: bool)

  datatype CreateCategoryDto = CreateCategoryDto(
    name: string,
    icon: Option<string>,
    color: Option<string>,
    kind: Tx.TxType)

  /** A validated update request: `None` for a field not supplied. */
  datatype UpdateCategoryDto = UpdateCategoryDto(
    name: Option<string>,
    icon: Option<string>,
    color: Option<string>,
    kind: Option<Tx.TxType>)

  /** Column defaults of `icon` and `color`. */
  const DefaultIcon := "tag"
  const DefaultColor := "#6B7280"

  /** The row `create` builds: column defaults fill what the request leaves
      out, and a created category is never a default one. */
  function NewCategory(id: Id, dto: CreateCategoryDto): (c: Category)
    ensures c.id == id && c.name == dto.name && c.kind == dto.kind && !c.isDefault
    ensures c.icon == (if dto.icon.Some? then dto.icon.value else DefaultIcon)
    ensures c.color == (if dto.color.Some? then dto.color.value else DefaultColor)
  {
    Category(id, dto.name, Supplied(dto.icon, DefaultIcon), Supplied(dto.color, DefaultColor), dto.kind, false)
  }

  /** The row after `repo.update(id, dto)`: a field changes only when the
      request supplies it, and then takes the supplied value; the
      identity and the default flag kept. */
  function ApplyPatch(c: Category, p: UpdateCategoryDto): (r: Category)
    ensures r.id == c.id && r.isDefault == c.isDefault
    ensures p.name.Some? ==> r.name == p.name.value
    ensures r.name != c.name ==> p.name == Some(r.name)
    ensures p.icon.Some? ==> r.icon == p.icon.value
    ensures r.icon != c.icon ==> p.icon == Some(r.icon)
    ensures p.color.Some? ==> r.color == p.color.value
    ensures r.color != c.color ==> p.color == Some(r.color)
    ensures p.kind.Some? ==> r.kind == p.kind.value
    ensures r.kind != c.kind ==> p.kind == Some(r.kind)
  {
    c.(name := Supplied(p.name, c.name),
       icon := Supplied(p.icon, c.icon),
       color := Supplied(p.color, c.color),
       kind := Supplied(p.kind, c.kind))
  }

  /** Name order: strings compared character by character, a proper prefix
      first. */
  predicate NameAtMost(a: string, b: string) {
    if a == [] then true
    else if b == [] then false
    else if a[0] != b[0] then a[0] < b[0]
    else NameAtMost(a[1..], b[1..])
  }

  lemma {:induction false} NameOrderTotal(a: string, b: string)
    ensures NameAtMost(a, b) || NameAtMost(b, a)
  {
    if a != [] && b != [] && a[0] == b[0] {
      NameOrderTotal(a[1..], b[1..]);
    }
  }

  lemma {:induction false} NameOrderTransitive(a: string, b: string, c: string)
    requires NameAtMost(a, b) && NameAtMost(b, c)
    ensures NameAtMost(a, c)
  {
    if a != [] && b != [] && c != [] && a[0] == b[0] && b[0] == c[0] {
      NameOrderTransitive(a[1..], b[1..], c[1..]);
    }
  }

  /** The listing order: `name` ascending. */
  predicate ByName(x: Category, y: Category) {
    NameAtMost(x.name, y.name)
  }

  lemma ByNameIsTotalPreorder()
    ensures TotalPreorder(ByName)
  {
    forall x: Category, y: Category
      ensures ByName(x, y) || ByName(y, x)
    {
      NameOrderTotal(x.name, y.name);
    }
    forall x: Category, y: Category, z: Category | ByName(x, y) && ByName(y, z)
      ensures ByName(x, z)
    {
      NameOrderTransitive(x.name, y.name, z.name);
    }
  }

  /** `findAll()`: every category, ordered by name. */
  function FindAll(rows: seq<Category>): (r: seq<Category>)
    ensures Sorted(r, ByName)
    ensures multiset(r) == multiset(rows)
  {
    ByNameIsTotalPreorder();
    Sort(rows, ByName)
  }

  function WithId(id: Id): Category -> bool {
    (c: Category) => c.id == id
  }

  function IndexOf(rows: seq<Category>, id: Id): Option<nat> {
    FirstIndex(rows, WithId(id))
  }

  /** `findOne(id)`: the category with that id, or NotFound. */
  function FindOne(rows: seq<Category>, id: Id): (r: Result<Category>)
    ensures r.Ok? <==> exists i :: 0 <= i < |rows| && rows[i].id == id
    ensures r.Ok? ==> r.value in rows && r.value.id == id
    ensures r.Err? ==> r.error == NotFound
  {
    match IndexOf(rows, id)
    case None => Err(NotFound)
    case Some(k) => Ok(rows[k])
  }

  /** The eight defaults of `seedDefaults`, as (name, icon, color, type). */
  const Defaults: seq<(string, string, string, Tx.TxType)> := [
    ("Salary", "briefcase", "#2ECC71", Tx.Income),
    ("Food", "utensils", "#E74C3C", Tx.Expense),
    ("Transport", "car", "#3498DB", Tx.Expense),
    ("Shopping", "shopping-bag", "#9B59B6", Tx.Expense),
    ("Bills", "file-text", "#F39C12", Tx.Expense),
    ("Health", "medkit", "#1ABC9C", Tx.Expense),
    ("Giving", "heart", "#E91E63", Tx.Expense),
    ("Entertainment", "film", "#673AB7", Tx.Expense)]

  /** The rows `seedDefaults` saves, with ids drawn from `firstId` on. */
  function DefaultCategories(firstId: Id): (r: seq<Category>)
    ensures |r| == |Defaults|
    ensures forall i :: 0 <= i < |r| ==> r[i].id == firstId + i && r[i].isDefault
  {
    seq(|Defaults|, i requires 0 <= i < |Defaults| =>
      Category(firstId + i, Defaults[i].0, Defaults[i].1, Defaults[i].2, Defaults[i].3, true))
  }

  /** Seeding inserts eight default categories: Salary, the only income one,
      and seven expense ones, all with distinct names. */
  lemma DefaultsShape(firstId: Id)
    ensures |DefaultCategories(firstId)| == 8
    ensures forall i :: 0 <= i < 8 ==> DefaultCategories(firstId)[i].isDefault
    ensures forall i :: 0 <= i < 8 ==>
      (DefaultCategories(firstId)[i].kind == Tx.Income <==> DefaultCategories(firstId)[i].name == "Salary")
    ensures forall i, j :: 0 <= i < j < 8 ==> DefaultCategories(firstId)[i].name != DefaultCategories(firstId)[j].name
  ensures DefaultCategories(firstId)[0].name == "Salary" && DefaultCategories(firstId)[0].kind == Tx.Income
  ensures forall i :: 1 <= i < 8 ==> DefaultCategories(firstId)[i].kind == Tx.Expense
  {
  }

  function IdOf(r: Category): Id {
    r.id
  }

  /** The in-memory `categories` table behind `CategoriesService`. */
  class CategoriesService {
    var table: seq<Category>
    var nextId: Id

    ghost predicate Valid()
      reads this
    {
      UniqueKeys(table, IdOf) && KeysBelow(table, IdOf, nextId)
    }

    constructor ()
      ensures Valid() && table == []
    {
      table := [];
      nextId := 0;
    }

    lemma OnlyMatch(id: Id, k: nat)
      requires Valid() && k < |table| && table[k].id == id
      ensures forall j :: 0 <= j < |table| && j != k ==> !WithId(id)(table[j])
    {
    }

    /** `create(dto)`: appends a fresh category. */
    method Create(dto: CreateCategoryDto) returns (c: Category)
      requires Valid()
      modifies this
      ensures Valid()
      ensures c == NewCategory(old(nextId), dto)
      ensures table == old(table) + [c]
    {
      c := NewCategory(nextId, dto);
      table := table + [c];
      nextId := nextId + 1;
    }

    /** `update(id, dto)`: NotFound and no change for an unknown id;
        otherwise only that category takes the supplied fields, and the
        fresh row is returned. */
    method Update(id: Id, dto: UpdateCategoryDto) returns (r: Result<Category>)
      requires Valid()
      modifies this
      ensures Valid() && nextId == old(nextId)
      ensures IndexOf(old(table), id).None? ==> r == Err(NotFound) && table == old(table)
      ensures IndexOf(old(table), id).Some? ==>
        var k := IndexOf(old(table), id).value;
        && table == old(table)[k := ApplyPatch(old(table)[k], dto)]
        && r == Ok(table[k])
    {
      var found := FindOne(table, id);
      if found.Err? {
        return Err(NotFound);
      }
      var k := IndexOf(table, id).value;
      OnlyMatch(id, k);
      ghost var before := table;
      var patched := ApplyPatch(table[k], dto);
      table := MapWhere(table, WithId(id), (c: Category) => ApplyPatch(c, dto));
      assert table == before[k := patched];
      assert forall j :: 0 <= j < |table| ==> table[j].id == before[j].id;
      FirstIndexOfUnique(table, WithId(id), k);
      r := FindOne(table, id);
    }

    /** `remove(id)`: NotFound and no change for an unknown id; otherwise
        exactly that category is deleted. */
    method Remove(id: Id) returns (r: Result<Deleted>)
      requires Valid()
      modifies this
      ensures Valid() && nextId == old(nextId)
      ensures IndexOf(old(table), id).None? ==> r == Err(NotFound) && table == old(table)
      ensures IndexOf(old(table), id).Some? ==>
        var k := IndexOf(old(table), id).value;
        && table == old(table)[..k] + old(table)[k + 1..]
        && r == Ok(Deleted(true))
    {
      var found := FindOne(table, id);
      if found.Err? {
        return Err(NotFound);
      }
      var k := IndexOf(table, id).value;
      OnlyMatch(id, k);
      ghost var before := table;
      var keep := (c: Category) => !WithId(id)(c);
      FilterDropsOne(table, keep, k);
      table := Filter(table, keep);
      RemoveAtKeeps(before, k, IdOf, nextId);
      r := Ok(Deleted(true));
    }

    /** `seedDefaults()`: when the table holds any category, nothing happens
        and nothing is returned; on an empty table the eight defaults are
        saved and returned. */
    method SeedDefaults() returns (r: Option<seq<Category>>)
      requires Valid()
      modifies this
      ensures Valid()
      ensures old(table) != [] ==> r == None && table == old(table) && nextId == old(nextId)
      ensures old(table) == [] ==> table == DefaultCategories(old(nextId)) && r == Some(table)
    {
      var count := |table|;
      if count > 0 {
        return None;
      }
      var categories := DefaultCategories(nextId);
      table := table + categories;
      nextId := nextId + |categories|;
      r := Some(categories);
    }
  }

  /** Seeding twice leaves the table as seeding once does: eight categories
      on a table that started empty, never sixteen. */
  method SeedDefaultsTwice(service: CategoriesService)
    requires service.Valid()
    modifies service
    ensures service.Valid()
    ensures old(service.table) == [] ==> |service.table| == 8
    ensures service.table == if old(service.table) == [] then DefaultCategories(old(service.nextId)) else old(service.table)
  {
    var first := service.SeedDefaults();
    var second := service.SeedDefaults();
  }
}
