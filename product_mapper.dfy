/** `ProductRequest.toEntity` and `Product.toResponse`. */
module ProductMapper {
  import opened Wrappers
  import opened Entities
  import opened Repositories
  import Text

  datatype ProductRequest = ProductRequest(
    name: string,
    description: Option<string>,
    price: Money,
    stock: int,
    categoryId: int)

  datatype ProductResponse = ProductResponse(
    id: Option<int>,
    name: Option<string>,
    description: Option<string>,
    price: Money,
    stock: int,
    categoryName: Option<string>,
    categoryId: Option<int>)

  /** The failure of loading a referenced row that is not there. */
  function Unresolved(entity: string, id: int): string {
    "Unable to find " + entity + " with id " + Text.IntToString(id)
  }

  /** A new, unsaved product (no id) in the given category. */
  function ToEntity(req: ProductRequest, category: Category): (p: Product)
    ensures p.id == None && p.category == Some(category.id)
    ensures p.name == Some(req.name) && p.description == req.description
    ensures p.price == req.price && p.stock == req.stock
  {
    Product(None, Some(req.name), req.description, req.price, req.stock, Some(category.id))
  }

  /**
   * The product's response: its own columns, and the name and id of its
   * category, or null for both when it has none. Reading the name of a
   * category that is no longer stored fails.
   */
  function ToResponse(p: Product, categories: seq<Category>): (r: Result<ProductResponse, string>)
    ensures r.Ok? ==> r.value.id == p.id && r.value.name == p.name && r.value.description == p.description
    ensures r.Ok? ==> r.value.price == p.price && r.value.stock == p.stock
    ensures p.category.None? ==> r.Ok? && r.value.categoryName == None && r.value.categoryId == None
    ensures p.category.Some? ==>
      match CategoryIndex(categories, p.category.value)
      case Some(k) => r.Ok? && r.value.categoryName == categories[k].name && r.value.categoryId == Some(categories[k].id)
      case None => r.Err?
  {
    match p.category
    case None => Ok(ProductResponse(p.id, p.name, p.description, p.price, p.stock, None, None))
    case Some(cid) =>
      match CategoryIndex(categories, cid)
      case None => Err(Unresolved("Category", cid))
      case Some(k) =>
        var c := categories[k];
        Ok(ProductResponse(p.id, p.name, p.description, p.price, p.stock, c.name, Some(c.id)))
  }

  /** A saved request reads back as the request: price, stock and category survive the round trip. */
  lemma ToEntityRoundTrip(req: ProductRequest, categories: seq<Category>, k: nat, id: int)
    requires k < |categories| && categories[k].id == req.categoryId
    requires CategoryIndex(categories, req.categoryId) == Some(k)
    ensures var r := ToResponse(ToEntity(req, categories[k]).(id := Some(id)), categories);
      r.Ok? && r.value == ProductResponse(Some(id), Some(req.name), req.description, req.price,
                                         req.stock, categories[k].name, Some(req.categoryId))
  {
  }
}
