# Blog API data layer: mappers and entity lifecycle hooks

A model of the hand-written logic in the data layer of a blogging REST API (users write
posts, posts belong to a category, carry tags and receive comments):

- the entity ↔ DTO mappers `PostMapper`, `UserMapper`, `TagMapper`, `CommentMapper`
  and `CategoryMapper`: null-propagating projections of entities into response payloads
  (`toResponse`, and `toResponseList` for tags), construction of fresh entities from create
  requests (`toEntity`), and the PATCH-style merge `updateEntityFromRequest` for posts and
  users, which overwrites a field in place only when the request's value is non-null;
- the JPA lifecycle callbacks `onCreate` (@PrePersist) and `onUpdate` (@PreUpdate) of
  `User`, `Tag` and `Comment`, which maintain `createdAt` and `updatedAt`.

Layout, one module per source component:

- `java_lang.dfy` (`JavaLang`): `Option` for a nullable reference or boxed value, `Long`
  (a 64-bit id), `LocalDateTime`, and `Result` for a call that may throw.
- `dto.dfy` (`Dto`): request and response payloads as datatypes.
- `lifecycle.dfy` (`Lifecycle`): the meaning of the two callbacks, shared by the three
  entities that declare them, and what any sequence of callbacks does to the timestamps.
- `entity.dfy` (`Entity`): the entities as classes with mutable fields. Post and User
  have a `State()` snapshot that the merge is specified against.
- `tag_mapper.dfy`, `category_mapper.dfy`, `user_mapper.dfy`, `comment_mapper.dfy`,
  `post_mapper.dfy`: one module per mapper. Pure projections are functions; `toEntity`
  (which allocates), `toResponseList` (a loop) and `updateEntityFromRequest` (updates in
  place) are methods. Sub-mappers injected by Spring are plain calls to the other modules.

Choices where the code is inconsistent with itself, or where a file is missing:

- `PostUpdateRequest.published` is declared as a primitive `boolean`, but the mapper tests
  it against null. The model follows the mapper: the field is `Option<bool>`.
- `UserMapper.toResponse` calls `.username(...)` on the builder, but the response field is
  `userName`. The model sets `userName` to the user's username.
- `CommentMapper.toEntity` calls `new Comment(content)`, which Comment.java does not declare.
  The model gives `Comment` that constructor: it sets `content` and leaves every other field
  at its default.
- Post.java and Category.java are not part of this model. Their fields are the ones the
  mappers use. `Post.published` is a primitive `boolean` because the mapper reads it with
  `isPublished()`. So `PostMapper.toEntity` throws a NullPointerException when unboxing a
  request whose `published` is null, and the model returns that error. Their ids are taken
  to be primitive `long`, like the ids of the other entities.
- The callbacks read `LocalDateTime.now()`; the model takes the clock reading as a
  parameter `now`.

## Model

| member | source | states |
|---|---|---|
| Lifecycle.Created | src/main/java/com/berkedev/practice/practiceblogapi/data/entity/User.java:43-49 | onCreate keeps a createdAt that is already set, sets it to now when absent, and always leaves updatedAt absent |
| Lifecycle.Updated | src/main/java/com/berkedev/practice/practiceblogapi/data/entity/User.java:51-54 | onUpdate sets updatedAt to now and never touches createdAt |
| Lifecycle.CreatedAtIsFrozen | src/main/java/com/berkedev/practice/practiceblogapi/data/entity/User.java:33-54 | createdAt is not updatable: once set, no sequence of persist and update callbacks changes it |
| Lifecycle.CreatedAtIsFirstPersist | src/main/java/com/berkedev/practice/practiceblogapi/data/entity/User.java:43-54 | starting without createdAt, createdAt ends up as the clock reading of the first persist callback, whatever updates come before or after |
| Lifecycle.NoPersistNoCreatedAt | src/main/java/com/berkedev/practice/practiceblogapi/data/entity/User.java:43-54 | update callbacks alone never set createdAt |
| Lifecycle.UpdatedAtIsLastHook | src/main/java/com/berkedev/practice/practiceblogapi/data/entity/User.java:43-54 | after any non-empty sequence of callbacks, updatedAt is absent if the last one was a persist and that update's clock reading otherwise |
| Entity.User.OnCreate | src/main/java/com/berkedev/practice/practiceblogapi/data/entity/User.java:43-49 | User.onCreate changes only the two timestamps, as Lifecycle.Created says |
| Entity.User.OnUpdate | src/main/java/com/berkedev/practice/practiceblogapi/data/entity/User.java:51-54 | User.onUpdate changes only updatedAt, as Lifecycle.Updated says |
| Entity.Tag.OnCreate | src/main/java/com/berkedev/practice/practiceblogapi/data/entity/Tag.java:37-43 | Tag.onCreate changes only the two timestamps, as Lifecycle.Created says |
| Entity.Tag.OnUpdate | src/main/java/com/berkedev/practice/practiceblogapi/data/entity/Tag.java:45-48 | Tag.onUpdate changes only updatedAt, as Lifecycle.Updated says |
| Entity.Comment.OnCreate | src/main/java/com/berkedev/practice/practiceblogapi/data/entity/Comment.java:39-45 | Comment.onCreate changes only the two timestamps; content, author and post are untouched |
| Entity.Comment.OnUpdate | src/main/java/com/berkedev/practice/practiceblogapi/data/entity/Comment.java:47-50 | Comment.onUpdate changes only updatedAt; content, author, post and createdAt are untouched |
| Entity.Tag.constructor | src/main/java/com/berkedev/practice/practiceblogapi/data/entity/Tag.java:33-35 | Tag(name) sets the name; id is 0, both timestamps absent, posts empty |
| Entity.Comment.constructor | src/main/java/com/berkedev/practice/practiceblogapi/data/mapper/CommentMapper.java:32 | Comment(content) sets the content; id is 0, timestamps absent, author and post null |
| Entity.User.constructor | src/main/java/com/berkedev/practice/practiceblogapi/data/mapper/UserMapper.java:31-36 | the built User has the given username, email, full name and password and defaults everywhere else |
| Entity.Post.constructor | src/main/java/com/berkedev/practice/practiceblogapi/data/mapper/PostMapper.java:41-46 | the built Post has the given title, slug, content and published flag and defaults everywhere else |
| Entity.Category.constructor | src/main/java/com/berkedev/practice/practiceblogapi/data/mapper/CategoryMapper.java:26-29 | the built Category has the given name and description and id 0 |
| TagMapper.ToResponse | src/main/java/com/berkedev/practice/practiceblogapi/data/mapper/TagMapper.java:15-23 | the response is null exactly when the tag is; otherwise it carries the tag's id and name |
| TagMapper.Responses | src/main/java/com/berkedev/practice/practiceblogapi/data/mapper/TagMapper.java:25-33 | the response list has one entry per tag: same length, entry i is the response of tag i, so order is kept and a null tag gives a null entry |
| TagMapper.ResponsesAppend | src/main/java/com/berkedev/practice/practiceblogapi/data/mapper/TagMapper.java:28-30 | mapping a concatenation is the concatenation of the mapped parts, which is what each add in the loop extends |
| TagMapper.ToResponseList | src/main/java/com/berkedev/practice/practiceblogapi/data/mapper/TagMapper.java:25-33 | the loop returns the response list: same length as the input (empty for empty), entry i the response of tag i |
| TagMapper.ToEntity | src/main/java/com/berkedev/practice/practiceblogapi/data/mapper/TagMapper.java:35-40 | null for a null request; otherwise a fresh Tag with the request's name and default other fields, whose response echoes that name with id 0 |
| CategoryMapper.ToResponse | src/main/java/com/berkedev/practice/practiceblogapi/data/mapper/CategoryMapper.java:11-20 | null exactly for a null category; otherwise its id, name and description |
| CategoryMapper.ResponseIsFaithful | src/main/java/com/berkedev/practice/practiceblogapi/data/mapper/CategoryMapper.java:15-19 | two categories with the same response agree on id, name and description |
| CategoryMapper.ToEntity | src/main/java/com/berkedev/practice/practiceblogapi/data/mapper/CategoryMapper.java:22-30 | null for a null request; otherwise a fresh Category with the request's name and description and an unset id |
| UserMapper.ToResponse | src/main/java/com/berkedev/practice/practiceblogapi/data/mapper/UserMapper.java:14-25 | null exactly for a null user; otherwise its id, full name, username (as userName), email and createdAt |
| UserMapper.ResponseHidesPassword | src/main/java/com/berkedev/practice/practiceblogapi/data/mapper/UserMapper.java:18-24 | the response depends only on id, username, email, full name and createdAt: the password never reaches it |
| UserMapper.ToEntity | src/main/java/com/berkedev/practice/practiceblogapi/data/mapper/UserMapper.java:27-37 | null for a null request; otherwise a fresh User with the request's username, email, full name and password, whose response echoes all but the password |
| UserMapper.Patch | src/main/java/com/berkedev/practice/practiceblogapi/data/mapper/UserMapper.java:43-50 | email, password and full name each take the request value when non-null and keep the old one otherwise; username, id, timestamps, posts and comments never change |
| UserMapper.PatchIsIdempotent | src/main/java/com/berkedev/practice/practiceblogapi/data/mapper/UserMapper.java:43-50 | applying the same request twice is the same as applying it once |
| UserMapper.EmptyPatchIsIdentity | src/main/java/com/berkedev/practice/practiceblogapi/data/mapper/UserMapper.java:43-50 | a request with every field null changes nothing |
| UserMapper.UpdateEntityFromRequest | src/main/java/com/berkedev/practice/practiceblogapi/data/mapper/UserMapper.java:39-51 | a null request or user changes nothing; otherwise the user's new state is Patch of its old state |
| CommentMapper.ToResponse | src/main/java/com/berkedev/practice/practiceblogapi/data/mapper/CommentMapper.java:15-26 | null exactly for a null comment; otherwise its id, createdAt and content, and its author through UserMapper, null exactly when the author is |
| CommentMapper.ResponseHidesPost | src/main/java/com/berkedev/practice/practiceblogapi/data/mapper/CommentMapper.java:19-25 | the response does not depend on the comment's post or updatedAt |
| CommentMapper.ToEntity | src/main/java/com/berkedev/practice/practiceblogapi/data/mapper/CommentMapper.java:28-33 | null for a null request; otherwise a fresh Comment with the request's content and no post, postId unused |
| PostMapper.ToResponse | src/main/java/com/berkedev/practice/practiceblogapi/data/mapper/PostMapper.java:18-35 | null exactly for a null post; otherwise id, slug, content, title, published, publishedAt and createdAt unchanged, and tags, category and author through their mappers |
| PostMapper.ResponseTagsFollowPostTags | src/main/java/com/berkedev/practice/practiceblogapi/data/mapper/PostMapper.java:31 | the response lists the post's tags in order, one entry each, null for a null tag |
| PostMapper.ToEntity | src/main/java/com/berkedev/practice/practiceblogapi/data/mapper/PostMapper.java:37-47 | null for a null request; a NullPointerException when published is null; otherwise a fresh Post with exactly the request's title, slug, content and published flag, categoryId and tagIds unused |
| PostMapper.Patch | src/main/java/com/berkedev/practice/practiceblogapi/data/mapper/PostMapper.java:53-63 | published, title, slug and content each take the request value when non-null and keep the old one otherwise; id, author, category, tags, publishedAt and createdAt never change |
| PostMapper.PatchIsIdempotent | src/main/java/com/berkedev/practice/practiceblogapi/data/mapper/PostMapper.java:53-63 | applying the same request twice is the same as applying it once |
| PostMapper.EmptyPatchIsIdentity | src/main/java/com/berkedev/practice/practiceblogapi/data/mapper/PostMapper.java:53-63 | a request whose four editable fields are null changes nothing, whatever its categoryId and tagIds |
| PostMapper.UpdateEntityFromRequest | src/main/java/com/berkedev/practice/practiceblogapi/data/mapper/PostMapper.java:49-64 | a null request or post changes nothing; otherwise the post's new state is Patch of its old state |

## Left out

- Repository interfaces (PostRepository, CategoryRepository, UserRepository): their queries, the ordering by publishedAt included, are derived by Spring Data and have no bodies here.
- Bean Validation constraints on the requests (@NotBlank, @Size, @Email): enforced by the framework before a mapper runs; the model accepts any request.
- JPA mapping concerns: uniqueness, nullability columns, cascades, orphan removal, lazy fetching and sequence id generation are enforced by the ORM and the database. The `updatable = false` on createdAt appears only as the lemmas that no callback moves it.
- Lombok-generated getters, setters and builders: modelled as field access and constructors. With @Builder, list fields that have an initialiser are left null by the builder; the model gives them the empty list.
- Post.tags is taken to be a non-null list. A null tags list would make toResponse throw inside toResponseList, which has no null guard.
- `LocalDateTime.now()`: the clock reading is a parameter. `LocalDateTime` is an integer on the local time line; the model only copies it.
- Spring dependency injection of the sub-mappers: modelled as direct calls between modules.
- Which callbacks the persistence provider fires, and when: the provider is external; `Lifecycle.Replay` takes the sequence of callbacks as input.
