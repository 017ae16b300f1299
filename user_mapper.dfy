/** UserMapper: User entities to UserResponse payloads, UserCreateRequest to new Users,
    and the PATCH-style merge of a UserUpdateRequest into an existing User. */
module UserMapper {
  import opened JavaLang
  import opened Dto
  import opened Entity

  /** `toResponse`: null in, null out; otherwise the user's id, full name, username, email
      and creation time. The source's builder call `.username(...)` is read as setting the
      response's `userName` field, the evident intent. */
  function ToResponse(user: User?): (r: Option<UserResponse>)
    reads user
    ensures r.None? <==> user == null
    ensures user != null ==>
      r.value.id == Some(user.id) && r.value.fullName == user.fullName &&
      r.value.userName == user.username && r.value.email == user.email &&
      r.value.createdAt == user.createdAt
  {
    if user == null then None
    else Some(UserResponse(Some(user.id), user.fullName, user.username, user.createdAt, user.email))
  }

  /** The password never reaches the response: two users that differ at most in their
      password, updatedAt, posts and comments have the same response. */
  lemma ResponseHidesPassword(a: User, b: User)
    requires a.id == b.id && a.username == b.username && a.email == b.email
    requires a.fullName == b.fullName && a.createdAt == b.createdAt
    ensures ToResponse(a) == ToResponse(b)
  {
  }

  /** `toEntity`: null in, null out; otherwise a User with the request's username, email,
      full name and password and every other field at its default. */
  method ToEntity(request: Option<UserCreateRequest>) returns (user: User?)
    ensures request.None? <==> user == null
    ensures user != null ==> fresh(user)
    ensures user != null ==>
      var q := request.value;
      user.State() == UserState(0, q.username, q.email, q.fullName, q.password, None, None, [], [])
    ensures user != null ==>
      var q := request.value;
      ToResponse(user) == Some(UserResponse(Some(0), q.fullName, q.username, None, q.email))
  {
    if request.None? {
      return null;
    }
    var q := request.value;
    user := new User(q.username, q.email, q.fullName, q.password);
  }

  /** The merge `updateEntityFromRequest` performs: email, password and full name each take
      the request's value when it is non-null and keep the old one otherwise; nothing else
      changes, the username included. */
  function Patch(s: UserState, request: UserUpdateRequest): (t: UserState)
    ensures t.email == (if request.email.Some? then request.email else s.email)
    ensures t.password == (if request.password.Some? then request.password else s.password)
    ensures t.fullName == (if request.fullName.Some? then request.fullName else s.fullName)
    ensures t.id == s.id && t.username == s.username && t.createdAt == s.createdAt
    ensures t.updatedAt == s.updatedAt && t.posts == s.posts && t.comments == s.comments
  {
    s.(email := if request.email.Some? then request.email else s.email,
       password := if request.password.Some? then request.password else s.password,
       fullName := if request.fullName.Some? then request.fullName else s.fullName)
  }

  /** Applying the same request twice leaves the user as applying it once. */
  lemma PatchIsIdempotent(s: UserState, request: UserUpdateRequest)
    ensures Patch(Patch(s, request), request) == Patch(s, request)
  {
  }

  /** A request with every field null changes nothing. */
  lemma EmptyPatchIsIdentity(s: UserState)
    ensures Patch(s, UserUpdateRequest(None, None, None)) == s
  {
  }

  /** `updateEntityFromRequest`: a null request or a null user changes nothing; otherwise
      the user's new state is the merge of its old state with the request. */
  method UpdateEntityFromRequest(request: Option<UserUpdateRequest>, user: User?)
    modifies user
    ensures user != null && request.Some? ==> user.State() == Patch(old(user.State()), request.value)
    ensures user != null && request.None? ==> user.State() == old(user.State())
  {
    if request.None? || user == null {
      return;
    }
    var q := request.value;
    if q.email.Some? {
      user.email := q.email;
    }
    if q.password.Some? {
      user.password := q.password;
    }
    if q.fullName.Some? {
      user.fullName := q.fullName;
    }
  }
}
