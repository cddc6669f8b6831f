/** `categoryService`: the record `create` and `update` send, and how the
    store's replies become a category, `null`, `[]` or a rejection. Every
    reply is a parameter. */
module CategoryService {
  import opened Common
  import Store

  /** A stored category. */
  datatype Category = Category(
    id: int,
    name: string,
    tags: string,
    color: Option<string>,
    icon: Option<string>,
    orderIndex: Option<int>)

  /** What `create` and `update` are given; any key may be missing.
      `orderIndex` is a number, where `None` is `undefined` (and `NaN` is
      not modelled). */
  datatype CategoryData = CategoryData(
    name: Option<string>,
    tags: Option<string>,
    color: Option<string>,
    icon: Option<string>,
    orderIndex: Option<int>)

  /** The record `create` sends. */
  datatype CategoryRecord = CategoryRecord(
    name: Option<string>,
    tags: string,
    color: Option<string>,
    icon: Option<string>,
    orderIndex: int)

  /** The record `update` sends: the id and the given keys as they are. */
  datatype CategoryPatch = CategoryPatch(
    id: int,
    name: Option<string>,
    tags: string,
    color: Option<string>,
    icon: Option<string>,
    orderIndex: Option<int>)

  /** JavaScript truthiness of an optional number: absent and `0` are falsy. */
  predicate TruthyNumber(n: Option<int>) {
    n.Some? && n.value != 0
  }

  /** `order_index || 1`. */
  function OrderIndexOr1(n: Option<int>): (r: int)
    ensures TruthyNumber(n) ==> r == n.value
    ensures !TruthyNumber(n) ==> r == 1
    ensures r != 0
  {
    if TruthyNumber(n) then n.value else 1
  }

  /** The record built by `create(categoryData)`. */
  function CreateRecord(d: CategoryData): (r: CategoryRecord)
    ensures r.name == d.name && r.color == d.color && r.icon == d.icon
    ensures Truthy(d.tags) ==> r.tags == d.tags.value
    ensures !Truthy(d.tags) ==> r.tags == ""
  {
    CategoryRecord(d.name, Or(d.tags, ""), d.color, d.icon, OrderIndexOr1(d.orderIndex))
  }

  /** The order index defaults to 1 exactly when the given one is falsy,
      so an explicit 0 becomes 1 as well; a created category never has
      index 0. */
  lemma CreateOrderIndexDefault(d: CategoryData)
    ensures CreateRecord(d).orderIndex != 0
    ensures CreateRecord(d).orderIndex == (if d.orderIndex.Some? && d.orderIndex.value != 0 then d.orderIndex.value else 1)
    ensures d.orderIndex == Some(0) ==> CreateRecord(d).orderIndex == 1
    ensures d.orderIndex.None? ==> CreateRecord(d).orderIndex == 1
  {
  }

  /** The record built by `update(id, updateData)`. */
  function UpdateRecord(id: int, u: CategoryData): (p: CategoryPatch)
    ensures p.id == id
    ensures p.name == u.name && p.color == u.color && p.icon == u.icon && p.orderIndex == u.orderIndex
    ensures Truthy(u.tags) ==> p.tags == u.tags.value
    ensures !Truthy(u.tags) ==> p.tags == ""
  {
    CategoryPatch(id, u.name, Or(u.tags, ""), u.color, u.icon, u.orderIndex)
  }

  /** `create` and `update` send the same keys from the same data, except
      that `create` fills a falsy order index with 1 and `update` carries
      the id. */
  lemma CreateAndUpdateAgree(id: int, d: CategoryData)
    ensures var c, p := CreateRecord(d), UpdateRecord(id, d);
            c.name == p.name && c.tags == p.tags && c.color == p.color && c.icon == p.icon
            && (TruthyNumber(d.orderIndex) <==> p.orderIndex == Some(c.orderIndex))
  {
  }

  /** `getAll()`: the store's categories, or `[]` on any failure. */
  function GetAll(reply: Store.ReadReply<seq<Category>>): (cs: seq<Category>)
    ensures reply.ReadThrew? || !reply.success ==> cs == []
    ensures reply.ReadReplied? && reply.success && reply.data.Some? ==> cs == reply.data.value
    ensures reply.ReadReplied? && reply.success && reply.data.None? ==> cs == []
  {
    Store.ListRead(reply)
  }

  /** `getById(id)`: the store's message is rethrown on failure. */
  function GetById(reply: Store.ReadReply<Category>): (res: Result<Option<Category>>)
    ensures res.Err? <==> reply.ReadThrew? || !reply.success
    ensures res.Err? ==> res.message == reply.message
    ensures res.Ok? ==> res.value == reply.data
  {
    Store.ReadOne(reply)
  }

  /** The two read policies differ: on the same failed reply the list read
      yields `[]` while the single read rejects. */
  lemma ReadPoliciesDiffer(message: string)
    ensures GetAll(Store.ReadReplied(false, message, Some([]))) == []
    ensures GetById(Store.ReadReplied(false, message, None)) == Err(message)
  {
  }

  /** `create(categoryData)`: the record sent and what the call resolves to. */
  function Create(d: CategoryData, reply: Store.WriteReply<Category>): (c: (CategoryRecord, Result<Option<Category>>))
    ensures c.0.orderIndex != 0
    ensures c.1.Ok? <==> Store.AllSucceeded(reply)
    ensures c.1.Err? && reply.WriteReplied? && reply.success ==> c.1.message == "Failed to create category"
    ensures c.1.Err? && (reply.WriteThrew? || !reply.success) ==> c.1.message == reply.message
    ensures c.1.Ok? && reply.results.Some? && reply.results.value != [] ==> c.1.value == reply.results.value[0].data
    ensures c.1.Ok? && (reply.results.None? || reply.results.value == []) ==> c.1.value.None?
  {
    (CreateRecord(d), Store.WriteResult(reply, "Failed to create category"))
  }

  /** `update(id, updateData)`: the record sent and what the call resolves to. */
  function Update(id: int, u: CategoryData, reply: Store.WriteReply<Category>): (c: (CategoryPatch, Result<Option<Category>>))
    ensures c.0.id == id
    ensures c.1.Ok? <==> Store.AllSucceeded(reply)
    ensures c.1.Err? && reply.WriteReplied? && reply.success ==> c.1.message == "Failed to update category"
    ensures c.1.Err? && (reply.WriteThrew? || !reply.success) ==> c.1.message == reply.message
    ensures c.1.Ok? && reply.results.Some? && reply.results.value != [] ==> c.1.value == reply.results.value[0].data
    ensures c.1.Ok? && (reply.results.None? || reply.results.value == []) ==> c.1.value.None?
  {
    (UpdateRecord(id, u), Store.WriteResult(reply, "Failed to update category"))
  }

  /** `delete(id)`: `{ success: true }` exactly when the store succeeded and
      no entry failed. */
  function Delete(reply: Store.WriteReply<Category>): (res: Result<()>)
    ensures res.Ok? <==> Store.AllSucceeded(reply)
    ensures res.Err? && reply.WriteReplied? && reply.success ==> res.message == "Failed to delete category"
    ensures reply.WriteThrew? || !reply.success ==> res == Err(reply.message)
  {
    Store.DeleteResult(reply, "Failed to delete category")
  }
}
