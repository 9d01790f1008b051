/**
 * The category facade (src/api/categoryService.ts): sixteen operations over
 * categories, category attributes, addons and variant attributes. Each one builds
 * a single request and hands back the response body untouched; deletes hand back nothing.
 */
module CategoryService {
  import opened Wrappers
  import opened Types
  import opened Http

  datatype CategoryOp =
    | GetCategories
    | CreateCategory(name: string)
    | UpdateCategory(id: int, name: string)
    | DeleteCategory(id: int)
    | GetCategoryAttributes(categoryId: int)
    | CreateAttribute(categoryId: int, attribute: AttributePayload)
    | UpdateAttribute(id: int, attribute: AttributePayload)
    | DeleteAttribute(id: int)
    | GetAddons(storeId: int, categoryId: int)
    | CreateAddon(storeId: int, categoryId: int, addon: AddonForm)
    | UpdateAddon(id: int, addon: AddonForm)
    | DeleteAddon(id: int)
    | GetVariantAttributes(categoryId: int)
    | CreateVariantAttribute(categoryId: int, info: VariantAttribute)
    | UpdateVariantAttribute(attributeId: int, info: VariantAttribute)
    | DeleteVariantAttribute(attributeId: int)
  {
    predicate IsDelete() {
      DeleteCategory? || DeleteAttribute? || DeleteAddon? || DeleteVariantAttribute?
    }

    predicate IsList() {
      GetCategories? || GetCategoryAttributes? || GetAddons? || GetVariantAttributes?
    }

    predicate IsCreate() {
      CreateCategory? || CreateAttribute? || CreateAddon? || CreateVariantAttribute?
    }

    predicate IsUpdate() {
      UpdateCategory? || UpdateAttribute? || UpdateAddon? || UpdateVariantAttribute?
    }
  }

  function CategoriesPath(): Path { [Lit("categories")] }
  function AttributesPath(categoryId: int): Path { [Lit("categories"), Id(categoryId), Lit("attributes")] }
  function AddonsPath(storeId: int, categoryId: int): Path {
    [Lit("stores"), Id(storeId), Lit("categories"), Id(categoryId), Lit("addons")]
  }
  function VariantAttributesPath(categoryId: int): Path { [Lit("categories"), Id(categoryId), Lit("variant-attributes")] }
  function ItemPath(collection: string, id: int): Path { [Lit(collection), Id(id)] }

  /** The request each operation issues. */
  function Route(op: CategoryOp): (r: Request)
    ensures op.IsList() <==> r.verb == Get
    ensures op.IsDelete() <==> r.verb == Delete
    ensures op.IsCreate() <==> r.verb == Post
    ensures op.IsUpdate() <==> r.verb == Put
    ensures r.body == NoBody <==> op.IsList() || op.IsDelete()
  {
    match op
    case GetCategories => Request(Get, CategoriesPath(), NoBody)
    case CreateCategory(name) => Request(Post, CategoriesPath(), NameBody(name))
    case UpdateCategory(id, name) => Request(Put, ItemPath("categories", id), NameBody(name))
    case DeleteCategory(id) => Request(Delete, ItemPath("categories", id), NoBody)
    case GetCategoryAttributes(categoryId) => Request(Get, AttributesPath(categoryId), NoBody)
    case CreateAttribute(categoryId, attribute) => Request(Post, AttributesPath(categoryId), AttributeBody(attribute))
    case UpdateAttribute(id, attribute) => Request(Put, ItemPath("attributes", id), AttributeBody(attribute))
    case DeleteAttribute(id) => Request(Delete, ItemPath("attributes", id), NoBody)
    case GetAddons(storeId, categoryId) => Request(Get, AddonsPath(storeId, categoryId), NoBody)
    case CreateAddon(storeId, categoryId, addon) => Request(Post, AddonsPath(storeId, categoryId), AddonBody(addon))
    case UpdateAddon(id, addon) => Request(Put, ItemPath("addons", id), AddonBody(addon))
    case DeleteAddon(id) => Request(Delete, ItemPath("addons", id), NoBody)
    case GetVariantAttributes(categoryId) => Request(Get, VariantAttributesPath(categoryId), NoBody)
    case CreateVariantAttribute(categoryId, info) => Request(Post, VariantAttributesPath(categoryId), VariantBody(info))
    case UpdateVariantAttribute(attributeId, info) => Request(Put, ItemPath("variant-attributes", attributeId), VariantBody(info))
    case DeleteVariantAttribute(attributeId) => Request(Delete, ItemPath("variant-attributes", attributeId), NoBody)
  }

  /**
   * Calling an operation: `send` stands for the shared HTTP client and the server.
   * A failure propagates unchanged; otherwise the response body comes back as it
   * was received, except that a delete returns nothing.
   */
  function Call<D>(op: CategoryOp, send: Request -> Reply<D>): (r: Reply<Option<D>>)
    ensures r.Rejected? <==> send(Route(op)).Rejected?
    ensures r.Rejected? ==> r.message == send(Route(op)).message
    ensures r.Resolved? ==> (r.data.None? <==> op.IsDelete())
    ensures r.Resolved? && r.data.Some? ==> r.data.value == send(Route(op)).data
  {
    match send(Route(op))
    case Rejected(message) => Rejected(message)
    case Resolved(data) => if op.IsDelete() then Resolved(None) else Resolved(Some(data))
  }

  /** List and create address the same collection and differ only in verb, for all four resources. */
  lemma ListAndCreateShareCollection(storeId: int, categoryId: int, name: string,
                                     attribute: AttributePayload, addon: AddonForm, info: VariantAttribute)
    ensures Route(GetCategories).path == Route(CreateCategory(name)).path
    ensures Route(GetCategoryAttributes(categoryId)).path == Route(CreateAttribute(categoryId, attribute)).path
    ensures Route(GetAddons(storeId, categoryId)).path == Route(CreateAddon(storeId, categoryId, addon)).path
    ensures Route(GetVariantAttributes(categoryId)).path == Route(CreateVariantAttribute(categoryId, info)).path
    ensures Route(GetCategories).verb == Get && Route(CreateCategory(name)).verb == Post
    ensures Route(GetCategoryAttributes(categoryId)).verb == Get && Route(CreateAttribute(categoryId, attribute)).verb == Post
    ensures Route(GetAddons(storeId, categoryId)).verb == Get && Route(CreateAddon(storeId, categoryId, addon)).verb == Post
    ensures Route(GetVariantAttributes(categoryId)).verb == Get && Route(CreateVariantAttribute(categoryId, info)).verb == Post
  {
  }

  /** Update and delete of an item address the same item path and differ only in verb. */
  lemma UpdateAndDeleteShareItem(id: int, name: string, attribute: AttributePayload, addon: AddonForm, info: VariantAttribute)
    ensures Route(UpdateCategory(id, name)).path == Route(DeleteCategory(id)).path
    ensures Route(UpdateAttribute(id, attribute)).path == Route(DeleteAttribute(id)).path
    ensures Route(UpdateAddon(id, addon)).path == Route(DeleteAddon(id)).path
    ensures Route(UpdateVariantAttribute(id, info)).path == Route(DeleteVariantAttribute(id)).path
    ensures Route(UpdateCategory(id, name)).verb == Put && Route(DeleteCategory(id)).verb == Delete
    ensures Route(UpdateAttribute(id, attribute)).verb == Put && Route(DeleteAttribute(id)).verb == Delete
    ensures Route(UpdateAddon(id, addon)).verb == Put && Route(DeleteAddon(id)).verb == Delete
    ensures Route(UpdateVariantAttribute(id, info)).verb == Put && Route(DeleteVariantAttribute(id)).verb == Delete
  {
  }

  /** Category create and update send exactly `{ name }`. */
  lemma CategoryBodyIsName(id: int, name: string)
    ensures Route(CreateCategory(name)).body == NameBody(name)
    ensures Route(UpdateCategory(id, name)).body == NameBody(name)
  {
  }

  /** Create and update send the caller's payload as given. */
  lemma PayloadPassedThrough(op: CategoryOp)
    ensures op.CreateAttribute? || op.UpdateAttribute? ==> Route(op).body == AttributeBody(op.attribute)
    ensures op.CreateAddon? || op.UpdateAddon? ==> Route(op).body == AddonBody(op.addon)
    ensures op.CreateVariantAttribute? || op.UpdateVariantAttribute? ==> Route(op).body == VariantBody(op.info)
  {
  }

  /** The ids interpolated into the add-on collection path: the store's, then the category's. */
  lemma AddonsPathIds(storeId: int, categoryId: int)
    ensures Ids(AddonsPath(storeId, categoryId)) == [storeId, categoryId]
  {
    var p := AddonsPath(storeId, categoryId);
    var p2, p4 := p[2..], p[4..];
    assert p[1..] == [Id(storeId)] + p2;
    assert p2 == [Lit("categories"), Id(categoryId)] + p4;
    assert p2[1..] == [Id(categoryId)] + p4;
    assert p2[1..][1..] == p4;
    assert p4 == [Lit("addons")] && p4[1..] == [];
    assert Ids(p4) == [];
    assert Ids(p2[1..]) == [categoryId];
    assert Ids(p2) == [categoryId];
  }

  /** The ids interpolated into an item path: the item's own only. */
  lemma ItemPathIds(collection: string, id: int)
    ensures Ids(ItemPath(collection, id)) == [id]
  {
    var p := ItemPath(collection, id);
    assert p[1..] == [Id(id)] && p[1..][1..] == [];
  }

  /** Addon list and create paths carry the store id and then the category id; nothing else. */
  lemma AddonPathIds(storeId: int, categoryId: int, addon: AddonForm)
    ensures Ids(Route(GetAddons(storeId, categoryId)).path) == [storeId, categoryId]
    ensures Ids(Route(CreateAddon(storeId, categoryId, addon)).path) == [storeId, categoryId]
  {
    assert Route(GetAddons(storeId, categoryId)).path == AddonsPath(storeId, categoryId);
    assert Route(CreateAddon(storeId, categoryId, addon)).path == AddonsPath(storeId, categoryId);
    AddonsPathIds(storeId, categoryId);
  }

  /** Item-level attribute, addon and variant-attribute paths carry the item id only, never a category or store id. */
  lemma ItemPathsCarryOnlyItemId(op: CategoryOp)
    requires op.UpdateAttribute? || op.DeleteAttribute? || op.UpdateAddon? || op.DeleteAddon?
          || op.UpdateVariantAttribute? || op.DeleteVariantAttribute? || op.UpdateCategory? || op.DeleteCategory?
    ensures |Route(op).path| == 2
    ensures Ids(Route(op).path) == [if op.UpdateVariantAttribute? || op.DeleteVariantAttribute? then op.attributeId else op.id]
  {
    match op
    case UpdateAttribute(id, _) => ItemPathIds("attributes", id);
    case DeleteAttribute(id) => ItemPathIds("attributes", id);
    case UpdateAddon(id, _) => ItemPathIds("addons", id);
    case DeleteAddon(id) => ItemPathIds("addons", id);
    case UpdateVariantAttribute(id, _) => ItemPathIds("variant-attributes", id);
    case DeleteVariantAttribute(id) => ItemPathIds("variant-attributes", id);
    case UpdateCategory(id, _) => ItemPathIds("categories", id);
    case DeleteCategory(id) => ItemPathIds("categories", id);
  }
}
