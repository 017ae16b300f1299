/** CategoryMapper: Category entities to CategoryResponse payloads and
    CategoryCreateRequest to new Categories. */
module CategoryMapper {
  import opened JavaLang
  import opened Dto
  import opened Entity

  /** `toResponse`: null in, null out; otherwise the category's id, name and description. */
  function ToResponse(category: Category?): (r: Option<CategoryResponse>)
    reads category
    ensures r.None? <==> category == null
    ensures category != null ==>
      r.value.id == Some(category.id) && r.value.name == category.name &&
      r.value.description == category.description
  {
    if category == null then None
    else Some(CategoryResponse(Some(category.id), category.name, category.description))
  }

  /** Two categories with the same response agree on every field: the response loses
      nothing of a Category. */
  lemma ResponseIsFaithful(a: Category, b: Category)
    requires ToResponse(a) == ToResponse(b)
    ensures a.id == b.id && a.name == b.name && a.description == b.description
  {
  }

  /** `toEntity`: null in, null out; otherwise a Category with the request's name and
      description and an unset (zero) id. */
  method ToEntity(request: Option<CategoryCreateRequest>) returns (category: Category?)
    ensures request.None? <==> category == null
    ensures category != null ==> fresh(category) && category.id == 0
    ensures category != null ==>
      category.name == request.value.name && category.description == request.value.description
    ensures category != null ==>
      ToResponse(category) == Some(CategoryResponse(Some(0), request.value.name, request.value.description))
  {
    if request.None? {
      return null;
    }
    category := new Category(request.value.name, request.value.description);
  }
}
