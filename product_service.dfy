/** `ProductServiceImpl`: listing, lookup, creation, update and deletion of products. */
module ProductServiceImpl {
  import opened Wrappers
  import opened Text
  import opened Entities
  import opened Repositories
  import opened ProductMapper

  function NotFound(id: int): string {
    "Product with id " + IntToString(id) + " not found"
  }

  function CategoryNotFound(id: int): string {
    "Category with id " + IntToString(id) + " not found"
  }

  /** `findAll`: one response per stored product, in table order; fails if a category reference fails. */
  function FindAll(products: seq<Product>, categories: seq<Category>): (r: Result<seq<ProductResponse>, string>)
    ensures r.Ok? <==> forall i :: 0 <= i < |products| ==> ToResponse(products[i], categories).Ok?
    ensures r.Ok? ==> |r.value| == |products|
    ensures r.Ok? ==> forall i :: 0 <= i < |products| ==> r.value[i] == ToResponse(products[i], categories).value
  {
    MapAll(products, (p: Product) => ToResponse(p, categories))
  }

  function FindById(products: seq<Product>, categories: seq<Category>, id: int): (r: Result<ProductResponse, string>)
    ensures (forall j :: 0 <= j < |products| ==> products[j].id != Some(id)) ==> r == Err(NotFound(id))
    ensures r.Ok? ==> r.value.id == Some(id)
    ensures r.Ok? ==> exists j :: 0 <= j < |products| && Ok(r.value) == ToResponse(products[j], categories)
    ensures ProductIndex(products, id).Some? ==> r == ToResponse(products[ProductIndex(products, id).value], categories)
  {
    match ProductIndex(products, id)
    case None => Err(NotFound(id))
    case Some(k) => ToResponse(products[k], categories)
  }

  /** The update: every column from the request, the category by id; the id is kept. */
  function ApplyRequest(p: Product, req: ProductRequest, category: Category): (r: Product)
    ensures r.id == p.id && r.category == Some(category.id)
    ensures r.name == Some(req.name) && r.description == req.description
    ensures r.price == req.price && r.stock == req.stock
  {
    p.(name := Some(req.name), description := req.description, stock := req.stock,
       price := req.price, category := Some(category.id))
  }

  /** `save`: refuses an unknown category; otherwise stores a new product under the next id. */
  method Save(db: Database, req: ProductRequest) returns (r: Result<ProductResponse, string>)
    requires db.Valid()
    modifies db`products, db`nextProductId
    ensures db.Valid()
    ensures CategoryIndex(db.categories, req.categoryId).None? ==>
      r == Err(CategoryNotFound(req.categoryId)) && db.products == old(db.products)
    ensures CategoryIndex(db.categories, req.categoryId).Some? ==>
      var c := db.categories[CategoryIndex(db.categories, req.categoryId).value];
      var p := ToEntity(req, c).(id := Some(old(db.nextProductId)));
      && db.products == old(db.products) + [p]
      && db.nextProductId == old(db.nextProductId) + 1
      && r == ToResponse(p, db.categories) && r.Ok?
      && r.value.categoryId == Some(req.categoryId) && r.value.categoryName == c.name
  {
    var found := CategoryIndex(db.categories, req.categoryId);
    if found.None? {
      return Err(CategoryNotFound(req.categoryId));
    }
    var c := db.categories[found.value];
    var p := ToEntity(req, c).(id := Some(db.nextProductId));
    db.products := db.products + [p];
    db.nextProductId := db.nextProductId + 1;
    r := ToResponse(p, db.categories);
  }

  /**
   * `update`: refuses an unknown product, then an unknown category;
   * otherwise overwrites name, description, stock, price and category.
   */
  method Update(db: Database, req: ProductRequest, id: int) returns (r: Result<ProductResponse, string>)
    requires db.Valid()
    modifies db`products
    ensures db.Valid()
    ensures ProductIndex(old(db.products), id).None? ==> r == Err(NotFound(id)) && db.products == old(db.products)
    ensures ProductIndex(old(db.products), id).Some? && CategoryIndex(db.categories, req.categoryId).None? ==>
      r == Err("Category not found") && db.products == old(db.products)
    ensures ProductIndex(old(db.products), id).Some? && CategoryIndex(db.categories, req.categoryId).Some? ==>
      var k := ProductIndex(old(db.products), id).value;
      var c := db.categories[CategoryIndex(db.categories, req.categoryId).value];
      var p := ApplyRequest(old(db.products)[k], req, c);
      && db.products == old(db.products)[k := p]
      && r == ToResponse(p, db.categories) && r.Ok? && r.value.id == Some(id)
      && r.value.categoryId == Some(req.categoryId) && r.value.categoryName == c.name
  {
    var found := ProductIndex(db.products, id);
    if found.None? {
      return Err(NotFound(id));
    }
    var category := CategoryIndex(db.categories, req.categoryId);
    if category.None? {
      return Err("Category not found");
    }
    var k := found.value;
    var p := ApplyRequest(db.products[k], req, db.categories[category.value]);
    db.products := db.products[k := p];
    r := ToResponse(p, db.categories);
  }

  /** `delete`: removes the product with this id; an unknown id changes nothing. */
  method Delete(db: Database, id: int)
    requires db.Valid()
    modifies db`products
    ensures db.Valid()
    ensures ProductIndex(old(db.products), id).None? ==> db.products == old(db.products)
    ensures ProductIndex(old(db.products), id).Some? ==>
      var k := ProductIndex(old(db.products), id).value;
      db.products == old(db.products)[..k] + old(db.products)[k + 1..]
    ensures forall j :: 0 <= j < |db.products| ==> db.products[j].id != Some(id)
  {
    var found := ProductIndex(db.products, id);
    if found.Some? {
      var k := found.value;
      var rest := db.products[..k] + db.products[k + 1..];
      assert forall i :: 0 <= i < |rest| ==> rest[i] == db.products[if i < k then i else i + 1];
      db.products := rest;
    }
  }
}
