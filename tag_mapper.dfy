/** TagMapper: Tag entities to TagResponse payloads and TagCreateRequest to new Tags. */
module TagMapper {
  import opened JavaLang
  import opened Dto
  import opened Entity

  /** `toResponse`: null in, null out; otherwise the tag's id and name. */
  function ToResponse(tag: Tag?): (r: Option<TagResponse>)
    reads tag
    ensures r.None? <==> tag == null
    ensures tag != null ==> r.value.id == Some(tag.id) && r.value.name == tag.name
  {
    if tag == null then None else Some(TagResponse(Some(tag.id), tag.name))
  }

  /** The list `toResponseList` builds: one entry per tag, in order. */
  function Responses(tags: seq<Tag?>): (r: seq<Option<TagResponse>>)
    reads set t: Tag | t in tags
    ensures |r| == |tags|
    ensures forall i :: 0 <= i < |tags| ==> r[i] == ToResponse(tags[i])
  {
    if tags == [] then [] else [ToResponse(tags[0])] + Responses(tags[1..])
  }

  /** Mapping a concatenation maps each part: the step the loop of `toResponseList`
      takes when it adds one more response. */
  lemma ResponsesAppend(a: seq<Tag?>, b: seq<Tag?>)
    ensures Responses(a + b) == Responses(a) + Responses(b)
  {
  }

  /** `toResponseList`: a fresh list filled by one `add` per tag. The list argument has no
      null guard in the source, so it is a (never null) sequence here. */
  method ToResponseList(tags: seq<Tag?>) returns (responses: seq<Option<TagResponse>>)
    ensures responses == Responses(tags)
    ensures |responses| == |tags|
    ensures forall i :: 0 <= i < |tags| ==> responses[i] == ToResponse(tags[i])
  {
    responses := [];
    for i := 0 to |tags|
      invariant responses == Responses(tags[..i])
    {
      assert tags[..i + 1] == tags[..i] + [tags[i]];
      ResponsesAppend(tags[..i], [tags[i]]);
      responses := responses + [ToResponse(tags[i])];
    }
    assert tags[..|tags|] == tags;
  }

  /** `toEntity`: null in, null out; otherwise `new Tag(name)`. */
  method ToEntity(request: Option<TagCreateRequest>) returns (tag: Tag?)
    ensures request.None? <==> tag == null
    ensures tag != null ==> fresh(tag) && tag.name == request.value.name && tag.id == 0
    ensures tag != null ==> tag.createdAt == None && tag.updatedAt == None && tag.posts == []
    ensures tag != null ==> ToResponse(tag) == Some(TagResponse(Some(0), request.value.name))
  {
    if request.None? {
      return null;
    }
    tag := new Tag(request.value.name);
  }
}
