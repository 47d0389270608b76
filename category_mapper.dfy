/** `CategoryRequest.toEntity` and `Category.toResponse`. */
module CategoryMapper {
  import opened Wrappers
  import opened Entities

  datatype CategoryRequest = CategoryRequest(name: string, description: string)

  datatype CategoryResponse = CategoryResponse(id: int, name: Option<string>, description: Option<string>)

  /** A new, unsaved category: the id keeps its default 0. */
  function ToEntity(req: CategoryRequest): (c: Category)
    ensures c.id == 0
    ensures c.name == Some(req.name) && c.description == Some(req.description)
  {
    Category(0, Some(req.name), Some(req.description))
  }

  function ToResponse(c: Category): (r: CategoryResponse)
    ensures r.id == c.id && r.name == c.name && r.description == c.description
  {
    CategoryResponse(c.id, c.name, c.description)
  }

  /** Responses are one-to-one with categories: the response loses nothing. */
  lemma ToResponseInjective(c: Category, d: Category)
    requires ToResponse(c) == ToResponse(d)
    ensures c == d
  {
  }
}
