/** The JPA entities (data/entity). Each is a class whose fields the mappers and the
    lifecycle callbacks update in place. Java's null references are Dafny's nullable
    class types (`User?`), nullable values are `Option`, and a `List` field is a `seq`.
    Post.java and Category.java are not part of this model; their fields are the ones
    PostMapper and CategoryMapper read and write, and their ids are taken to be
    primitive `long` like those of the other entities. */
module Entity {
  import opened JavaLang
  import Lifecycle

  /** A snapshot of every field of a User. */
  datatype UserState = UserState(
    id: Long,
    username: Option<string>,
    email: Option<string>,
    fullName: Option<string>,
    password: Option<string>,
    createdAt: Option<LocalDateTime>,
    updatedAt: Option<LocalDateTime>,
    posts: seq<Post?>,
    comments: seq<Comment?>)

  class User {
    var id: Long
    var username: Option<string>
    var email: Option<string>
    var fullName: Option<string>
    var password: Option<string>
    var createdAt: Option<LocalDateTime>
    var updatedAt: Option<LocalDateTime>
    var posts: seq<Post?>
    var comments: seq<Comment?>

    function State(): UserState
      reads this
    {
      UserState(id, username, email, fullName, password, createdAt, updatedAt, posts, comments)
    }

    function Stamps(): Lifecycle.Stamps
      reads this
    {
      Lifecycle.Stamps(createdAt, updatedAt)
    }

    /** `User.builder()...build()` with username, email, fullName and password set; every
        other field keeps its default (id 0, no timestamps, no posts or comments). */
    constructor (username: Option<string>, email: Option<string>, fullName: Option<string>,
                 password: Option<string>)
      ensures State() == UserState(0, username, email, fullName, password, None, None, [], [])
    {
      this.id := 0;
      this.username := username;
      this.email := email;
      this.fullName := fullName;
      this.password := password;
      this.createdAt := None;
      this.updatedAt := None;
      this.posts := [];
      this.comments := [];
    }

    /** @PrePersist; only the two timestamp fields may change. */
    method OnCreate(now: LocalDateTime)
      modifies this`createdAt, this`updatedAt
      ensures Stamps() == Lifecycle.Created(old(Stamps()), now)
    {
      if createdAt.None? {
        createdAt := Some(now);
      }
      updatedAt := None;
    }

    /** @PreUpdate; only updatedAt may change. */
    method OnUpdate(now: LocalDateTime)
      modifies this`updatedAt
      ensures Stamps() == Lifecycle.Updated(old(Stamps()), now)
    {
      updatedAt := Some(now);
    }
  }

  /** A snapshot of every field of a Post. */
  datatype PostState = PostState(
    id: Long,
    title: Option<string>,
    slug: Option<string>,
    content: Option<string>,
    published: bool,
    publishedAt: Option<LocalDateTime>,
    createdAt: Option<LocalDateTime>,
    author: User?,
    category: Category?,
    tags: seq<Tag?>)

  class Post {
    var id: Long
    var title: Option<string>
    var slug: Option<string>
    var content: Option<string>
    /** A primitive `boolean`: PostMapper reads it through `isPublished()`. */
    var published: bool
    var publishedAt: Option<LocalDateTime>
    var createdAt: Option<LocalDateTime>
    var author: User?
    var category: Category?
    var tags: seq<Tag?>

    function State(): PostState
      reads this
    {
      PostState(id, title, slug, content, published, publishedAt, createdAt, author, category, tags)
    }

    /** `Post.builder()...build()` with content, published, slug and title set; every other
        field keeps its default. */
    constructor (title: Option<string>, slug: Option<string>, content: Option<string>,
                 published: bool)
      ensures State() == PostState(0, title, slug, content, published, None, None, null, null, [])
    {
      this.id := 0;
      this.title := title;
      this.slug := slug;
      this.content := content;
      this.published := published;
      this.publishedAt := None;
      this.createdAt := None;
      this.author := null;
      this.category := null;
      this.tags := [];
    }
  }

  class Category {
    var id: Long
    var name: Option<string>
    var description: Option<string>

    /** `Category.builder()...build()` with name and description set; id stays 0. */
    constructor (name: Option<string>, description: Option<string>)
      ensures id == 0 && this.name == name && this.description == description
    {
      this.id := 0;
      this.name := name;
      this.description := description;
    }
  }

  class Tag {
    var id: Long
    var name: Option<string>
    var createdAt: Option<LocalDateTime>
    var updatedAt: Option<LocalDateTime>
    var posts: seq<Post?>

    function Stamps(): Lifecycle.Stamps
      reads this
    {
      Lifecycle.Stamps(createdAt, updatedAt)
    }

    /** `Tag(String name)`: sets the name; the other fields keep their defaults, and
        `posts` its initialiser, an empty list. */
    constructor (name: Option<string>)
      ensures this.name == name && id == 0 && createdAt == None && updatedAt == None
      ensures posts == []
    {
      this.id := 0;
      this.name := name;
      this.createdAt := None;
      this.updatedAt := None;
      this.posts := [];
    }

    /** @PrePersist; only the two timestamp fields may change. */
    method OnCreate(now: LocalDateTime)
      modifies this`createdAt, this`updatedAt
      ensures Stamps() == Lifecycle.Created(old(Stamps()), now)
    {
      if createdAt.None? {
        createdAt := Some(now);
      }
      updatedAt := None;
    }

    /** @PreUpdate; only updatedAt may change. */
    method OnUpdate(now: LocalDateTime)
      modifies this`updatedAt
      ensures Stamps() == Lifecycle.Updated(old(Stamps()), now)
    {
      updatedAt := Some(now);
    }
  }

  class Comment {
    var id: Long
    var content: Option<string>
    var createdAt: Option<LocalDateTime>
    var updatedAt: Option<LocalDateTime>
    var author: User?
    var post: Post?

    function Stamps(): Lifecycle.Stamps
      reads this
    {
      Lifecycle.Stamps(createdAt, updatedAt)
    }

    /** `new Comment(content)`, the constructor CommentMapper calls. Comment.java declares
        only the no-argument and all-argument constructors; this models the evident intent:
        content is set and every other field keeps its default. */
    constructor (content: Option<string>)
      ensures this.content == content && id == 0 && createdAt == None && updatedAt == None
      ensures author == null && post == null
    {
      this.id := 0;
      this.content := content;
      this.createdAt := None;
      this.updatedAt := None;
      this.author := null;
      this.post := null;
    }

    /** @PrePersist; only the two timestamp fields may change. */
    method OnCreate(now: LocalDateTime)
      modifies this`createdAt, this`updatedAt
      ensures Stamps() == Lifecycle.Created(old(Stamps()), now)
    {
      if createdAt.None? {
        createdAt := Some(now);
      }
      updatedAt := None;
    }

    /** @PreUpdate; only updatedAt may change. */
    method OnUpdate(now: LocalDateTime)
      modifies this`updatedAt
      ensures Stamps() == Lifecycle.Updated(old(Stamps()), now)
    {
      updatedAt := Some(now);
    }
  }
}
