/** Request and response payloads (data/dto). They have no behaviour; every reference or boxed
    field is nullable. Bean Validation constraints on the requests (@NotBlank, @Size, @Email) are
    enforced by the framework before a mapper runs and are not part of these types. */
module Dto {
  import opened JavaLang

  // ---- requests (data/dto/request) ----

  datatype CategoryCreateRequest = CategoryCreateRequest(
    name: Option<string>,
    description: Option<string>)

  datatype CommentCreateRequest = CommentCreateRequest(
    content: Option<string>,
    postId: Option<Long>)

  datatype PostCreateRequest = PostCreateRequest(
    title: Option<string>,
    slug: Option<string>,
    content: Option<string>,
    published: Option<bool>,
    categoryId: Option<Long>,
    tagIds: Option<seq<Option<Long>>>)

  /** `published` is declared as a primitive `boolean` in PostUpdateRequest.java, but
      PostMapper.updateEntityFromRequest tests it against null; the model follows the mapper
      and lets it be absent, like the other fields of a PATCH request. */
  datatype PostUpdateRequest = PostUpdateRequest(
    title: Option<string>,
    slug: Option<string>,
    content: Option<string>,
    published: Option<bool>,
    categoryId: Option<Long>,
    tagIds: Option<seq<Option<Long>>>)

  datatype TagCreateRequest = TagCreateRequest(name: Option<string>)

  datatype UserCreateRequest = UserCreateRequest(
    username: Option<string>,
    email: Option<string>,
    password: Option<string>,
    fullName: Option<string>)

  datatype UserUpdateRequest = UserUpdateRequest(
    email: Option<string>,
    password: Option<string>,
    fullName: Option<string>)

  // ---- responses (data/dto/response) ----

  datatype CategoryResponse = CategoryResponse(
    id: Option<Long>,
    name: Option<string>,
    description: Option<string>)

  datatype TagResponse = TagResponse(id: Option<Long>, name: Option<string>)

  /** The user name field is `userName`; UserMapper's builder call `.username(...)` is read
      as setting it. There is deliberately no password field. */
  datatype UserResponse = UserResponse(
    id: Option<Long>,
    fullName: Option<string>,
    userName: Option<string>,
    createdAt: Option<LocalDateTime>,
    email: Option<string>)

  datatype CommentResponse = CommentResponse(
    id: Option<Long>,
    content: Option<string>,
    createdAt: Option<LocalDateTime>,
    author: Option<UserResponse>)

  datatype PostResponse = PostResponse(
    id: Option<Long>,
    title: Option<string>,
    slug: Option<string>,
    content: Option<string>,
    published: Option<bool>,
    publishedAt: Option<LocalDateTime>,
    createdAt: Option<LocalDateTime>,
    author: Option<UserResponse>,
    category: Option<CategoryResponse>,
    tags: seq<Option<TagResponse>>)
}
