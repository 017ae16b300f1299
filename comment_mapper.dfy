/** CommentMapper: Comment entities to CommentResponse payloads (the author through
    UserMapper) and CommentCreateRequest to new Comments. */
module CommentMapper {
  import opened JavaLang
  import opened Dto
  import opened Entity
  import UserMapper

  /** `toResponse`: null in, null out; otherwise the comment's id, creation time and content,
      and its author mapped by UserMapper (so a null author gives a null author). */
  function ToResponse(comment: Comment?): (r: Option<CommentResponse>)
    reads comment, if comment == null then null else comment.author
    ensures r.None? <==> comment == null
    ensures comment != null ==>
      r.value.id == Some(comment.id) && r.value.createdAt == comment.createdAt &&
      r.value.content == comment.content
    ensures comment != null ==> r.value.author == UserMapper.ToResponse(comment.author)
    ensures comment != null ==> (r.value.author.None? <==> comment.author == null)
  {
    if comment == null then None
    else Some(CommentResponse(Some(comment.id), comment.content, comment.createdAt,
                              UserMapper.ToResponse(comment.author)))
  }

  /** The response does not expose the post a comment belongs to, nor its updatedAt:
      comments that agree on id, content, createdAt and author have the same response. */
  lemma ResponseHidesPost(a: Comment, b: Comment)
    requires a.id == b.id && a.content == b.content && a.createdAt == b.createdAt
    requires a.author == b.author
    ensures ToResponse(a) == ToResponse(b)
  {
  }

  /** `toEntity`: null in, null out; otherwise a Comment holding the request's content.
      The request's postId is not used. */
  method ToEntity(request: Option<CommentCreateRequest>) returns (comment: Comment?)
    ensures request.None? <==> comment == null
    ensures comment != null ==> fresh(comment) && comment.content == request.value.content
    ensures comment != null ==> comment.id == 0 && comment.createdAt == None && comment.updatedAt == None
    ensures comment != null ==> comment.author == null && comment.post == null
    ensures comment != null ==>
      ToResponse(comment) == Some(CommentResponse(Some(0), request.value.content, None, None))
  {
    if request.None? {
      return null;
    }
    comment := new Comment(request.value.content);
  }
}
