/** `CategoryServiceImpl`: listing, lookup, creation, update and deletion of categories. */
module CategoryServiceImpl {
  import opened Wrappers
  import opened Text
  import opened Entities
  import opened Repositories
  import opened CategoryMapper

  function NotFound(id: int): string {
    "Category with id " + IntToString(id) + " not found"
  }

  function GetAll(categories: seq<Category>): (r: seq<CategoryResponse>)
    ensures |r| == |categories|
    ensures forall i :: 0 <= i < |categories| ==> r[i] == ToResponse(categories[i])
  {
    if categories == [] then [] else [ToResponse(categories[0])] + GetAll(categories[1..])
  }

  function GetById(categories: seq<Category>, id: int): (r: Result<CategoryResponse, string>)
    ensures r.Err? <==> forall j :: 0 <= j < |categories| ==> categories[j].id != id
    ensures r.Err? ==> r.error == NotFound(id)
    ensures r.Ok? ==> r.value.id == id && exists j :: 0 <= j < |categories| && r.value == ToResponse(categories[j])
  {
    match CategoryIndex(categories, id)
    case None => Err(NotFound(id))
    case Some(k) => Ok(ToResponse(categories[k]))
  }

  /** The update: name and description from the request; the id is kept. */
  function ApplyRequest(c: Category, req: CategoryRequest): (r: Category)
    ensures r.id == c.id && r.name == Some(req.name) && r.description == Some(req.description)
  {
    c.(name := Some(req.name), description := Some(req.description))
  }

  /** `save`: stores the request as a new category under the next id. */
  method Save(db: Database, req: CategoryRequest) returns (r: CategoryResponse)
    requires db.Valid()
    modifies db`categories, db`nextCategoryId
    ensures db.Valid()
    ensures db.categories == old(db.categories) + [ToEntity(req).(id := old(db.nextCategoryId))]
    ensures db.nextCategoryId == old(db.nextCategoryId) + 1
    ensures r == CategoryResponse(old(db.nextCategoryId), Some(req.name), Some(req.description))
  {
    var c := ToEntity(req).(id := db.nextCategoryId);
    db.categories := db.categories + [c];
    db.nextCategoryId := db.nextCategoryId + 1;
    r := ToResponse(c);
  }

  /** `update`: replaces name and description of the category with this id. */
  method Update(db: Database, req: CategoryRequest, id: int) returns (r: Result<CategoryResponse, string>)
    requires db.Valid()
    modifies db`categories
    ensures db.Valid()
    ensures CategoryIndex(old(db.categories), id).None? ==> r == Err(NotFound(id)) && db.categories == old(db.categories)
    ensures CategoryIndex(old(db.categories), id).Some? ==>
      var k := CategoryIndex(old(db.categories), id).value;
      var c := ApplyRequest(old(db.categories)[k], req);
      db.categories == old(db.categories)[k := c] && r == Ok(ToResponse(c))
  {
    var found := CategoryIndex(db.categories, id);
    if found.None? {
      return Err(NotFound(id));
    }
    var k := found.value;
    var c := ApplyRequest(db.categories[k], req);
    db.categories := db.categories[k := c];
    r := Ok(ToResponse(c));
  }

  /** `delete`: removes the category with this id; an unknown id changes nothing. */
  method Delete(db: Database, id: int)
    requires db.Valid()
    modifies db`categories
    ensures db.Valid()
    ensures CategoryIndex(old(db.categories), id).None? ==> db.categories == old(db.categories)
    ensures CategoryIndex(old(db.categories), id).Some? ==>
      var k := CategoryIndex(old(db.categories), id).value;
      db.categories == old(db.categories)[..k] + old(db.categories)[k + 1..]
    ensures forall j :: 0 <= j < |db.categories| ==> db.categories[j].id != id
  {
    var found := CategoryIndex(db.categories, id);
    if found.Some? {
      var k := found.value;
      var rest := db.categories[..k] + db.categories[k + 1..];
      assert forall i :: 0 <= i < |rest| ==> rest[i] == db.categories[if i < k then i else i + 1];
      db.categories := rest;
    }
  }
}
