/** PostMapper: Post entities to PostResponse payloads (author, category and tags through
    their own mappers), PostCreateRequest to new Posts, and the PATCH-style merge of a
    PostUpdateRequest into an existing Post. */
module PostMapper {
  import opened JavaLang
  import opened Dto
  import opened Entity
  import UserMapper
  import CategoryMapper
  import TagMapper

  /** `toResponse`: null in, null out; otherwise the post's own fields copied unchanged, and
      its tags, category and author mapped by their mappers. */
  function ToResponse(post: Post?): (r: Option<PostResponse>)
    reads post
    reads if post == null then null else post.author
    reads if post == null then null else post.category
    reads if post == null then {} else set t: Tag | t in post.tags
    ensures r.None? <==> post == null
    ensures post != null ==>
      r.value.id == Some(post.id) && r.value.slug == post.slug &&
      r.value.content == post.content && r.value.title == post.title &&
      r.value.published == Some(post.published) && r.value.publishedAt == post.publishedAt &&
      r.value.createdAt == post.createdAt
    ensures post != null ==>
      r.value.tags == TagMapper.Responses(post.tags) &&
      r.value.category == CategoryMapper.ToResponse(post.category) &&
      r.value.author == UserMapper.ToResponse(post.author)
  {
    if post == null then None
    else Some(PostResponse(
      Some(post.id), post.title, post.slug, post.content, Some(post.published),
      post.publishedAt, post.createdAt,
      UserMapper.ToResponse(post.author),
      CategoryMapper.ToResponse(post.category),
      TagMapper.Responses(post.tags)))
  }

  /** The response lists exactly the post's tags, in order: entry i is the response of
      tag i, and a null tag gives a null entry. */
  lemma ResponseTagsFollowPostTags(post: Post, i: nat)
    requires i < |post.tags|
    ensures |ToResponse(post).value.tags| == |post.tags|
    ensures ToResponse(post).value.tags[i] == TagMapper.ToResponse(post.tags[i])
    ensures ToResponse(post).value.tags[i].None? <==> post.tags[i] == null
  {
  }

  /** `toEntity`: null in, null out; otherwise a Post holding the request's title, slug,
      content and published flag, every other field at its default. The request's
      categoryId and tagIds are not used. The Post's published flag is a primitive, so a
      request whose `published` is null fails unboxing with a NullPointerException. */
  method ToEntity(request: Option<PostCreateRequest>) returns (r: Result<Post?>)
    ensures request.None? ==> r == Ok(null)
    ensures request.Some? && request.value.published.None? ==> r == Err(NullPointerException)
    ensures request.Some? && request.value.published.Some? ==>
      r.Ok? && r.value != null && fresh(r.value)
    ensures request.Some? && request.value.published.Some? && r.Ok? && r.value != null ==>
      var q := request.value;
      r.value.State() ==
        PostState(0, q.title, q.slug, q.content, q.published.value, None, None, null, null, [])
    ensures request.Some? && request.value.published.Some? && r.Ok? && r.value != null ==>
      var q := request.value;
      ToResponse(r.value) ==
        Some(PostResponse(Some(0), q.title, q.slug, q.content, q.published, None, None, None, None, []))
  {
    if request.None? {
      return Ok(null);
    }
    var q := request.value;
    if q.published.None? {
      return Err(NullPointerException);
    }
    var post := new Post(q.title, q.slug, q.content, q.published.value);
    r := Ok(post);
  }

  /** The merge `updateEntityFromRequest` performs: published, title, slug and content each
      take the request's value when it is non-null and keep the old one otherwise; the id,
      author, category, tags, publishedAt and createdAt never change, and the request's
      categoryId and tagIds are ignored. */
  function Patch(s: PostState, request: PostUpdateRequest): (t: PostState)
    ensures t.published == (if request.published.Some? then request.published.value else s.published)
    ensures t.title == (if request.title.Some? then request.title else s.title)
    ensures t.slug == (if request.slug.Some? then request.slug else s.slug)
    ensures t.content == (if request.content.Some? then request.content else s.content)
    ensures t.id == s.id && t.author == s.author && t.category == s.category
    ensures t.tags == s.tags && t.publishedAt == s.publishedAt && t.createdAt == s.createdAt
  {
    s.(published := if request.published.Some? then request.published.value else s.published,
       title := if request.title.Some? then request.title else s.title,
       slug := if request.slug.Some? then request.slug else s.slug,
       content := if request.content.Some? then request.content else s.content)
  }

  /** Applying the same request twice leaves the post as applying it once. */
  lemma PatchIsIdempotent(s: PostState, request: PostUpdateRequest)
    ensures Patch(Patch(s, request), request) == Patch(s, request)
  {
  }

  /** A request whose four editable fields are all null changes nothing, whatever its
      categoryId and tagIds. */
  lemma EmptyPatchIsIdentity(s: PostState, request: PostUpdateRequest)
    requires request.published.None? && request.title.None?
    requires request.slug.None? && request.content.None?
    ensures Patch(s, request) == s
  {
  }

  /** `updateEntityFromRequest`: a null request or a null post changes nothing; otherwise
      the post's new state is the merge of its old state with the request. */
  method UpdateEntityFromRequest(request: Option<PostUpdateRequest>, post: Post?)
    modifies post
    ensures post != null && request.Some? ==> post.State() == Patch(old(post.State()), request.value)
    ensures post != null && request.None? ==> post.State() == old(post.State())
  {
    if request.None? || post == null {
      return;
    }
    var q := request.value;
    if q.published.Some? {
      post.published := q.published.value;
    }
    if q.title.Some? {
      post.title := q.title;
    }
    if q.slug.Some? {
      post.slug := q.slug;
    }
    if q.content.Some? {
      post.content := q.content;
    }
  }
}
