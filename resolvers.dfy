/**
 * The GraphQL resolvers. Each one is a strictly ordered gate: the
 * authentication flag, then the existence of the document, then ownership,
 * then field validation, and only then the store update. A rejection is a
 * thrown error with a fixed code; a rejected call leaves the store as it was.
 */
module Resolvers {
  import opened Wrappers
  import opened Documents
  import opened Errors
  import opened Text
  import opened Paging
  import opened Sequences
  import opened Store

  /** `req.isAuth` and `req.userId`, set by the authentication middleware before any resolver runs. */
  datatype Context = Context(isAuth: bool, userId: Id)

  datatype UserInput = UserInput(email: string, name: string, password: string)

  datatype PostInput = PostInput(title: string, content: string, imageUrl: string)

  datatype PostsPage = PostsPage(posts: seq<PostDoc>, totalPosts: nat)

  /** The payload `login` signs: the user's id and email. */
  datatype Claims = Claims(userId: Id, email: string)

  /** What `login` returns: the token (given by its payload and lifetime) and the user id. */
  datatype Session = Session(claims: Claims, expiresInSeconds: nat, userId: Id)

  /** `expiresIn: '1h'`. */
  const TokenLifetimeSeconds: nat := 3600

  const NotAuthenticated: GraphQLError := Coded("Not authenticated!", 401)
  const NoPostFound: GraphQLError := Coded("No post found!", 404)
  const NotAuthorized: GraphQLError := Coded("Not authorized!", 403)
  const NoUserFound: GraphQLError := Coded("No user found!", 404)

  /** Reading `_id` of a creator object that has none (`{ name: 'Duc' }`) fails at run time. */
  const CreatorWithoutId: GraphQLError := Uncoded("Cannot read properties of undefined (reading 'toString')")

  /** Mongoose refuses to save a post whose required string field is empty. */
  const PostNotSavable: GraphQLError := Uncoded("Post validation failed")

  /** MongoDB refuses a negative skip. */
  const NegativeSkip: GraphQLError := Uncoded("skip value must be non-negative")

  /** `user.posts.pull(id)` on a user that was not found fails at run time. */
  const UserGone: GraphQLError := Uncoded("Cannot read properties of null (reading 'posts')")

  /**
   * The signup checks of `createUser`: both messages are collected, the
   * email one first; `isEmail` stands for `validator.isEmail`.
   */
  function SignupErrors(input: UserInput, isEmail: string -> bool): (errs: seq<string>)
    ensures "Email is invalid" in errs <==> !isEmail(input.email)
    ensures "Password too short!" in errs <==> TooShort(input.password)
    ensures errs == [] <==> isEmail(input.email) && !TooShort(input.password)
    ensures |errs| <= 2
    ensures |errs| == 2 ==> errs == ["Email is invalid", "Password too short!"]
  {
    (if !isEmail(input.email) then ["Email is invalid"] else [])
    + (if TooShort(input.password) then ["Password too short!"] else [])
  }

  /**
   * The title and content checks of `createPost` and `updatePost`: a field
   * is rejected exactly when it measures fewer than five characters, and every
   * rejected field contributes its message, the title's first.
   */
  function PostInputErrors(title: string, content: string, titleMessage: string, contentMessage: string): (errs: seq<string>)
    requires titleMessage != contentMessage
    ensures titleMessage in errs <==> Length(title) < 5
    ensures contentMessage in errs <==> Length(content) < 5
    ensures errs == [] <==> Length(title) >= 5 && Length(content) >= 5
    ensures forall m :: m in errs ==> m == titleMessage || m == contentMessage
    ensures |errs| <= 2
    ensures |errs| == 2 ==> errs == [titleMessage, contentMessage]
  {
    (if TooShort(title) then [titleMessage] else [])
    + (if TooShort(content) then [contentMessage] else [])
  }

  /** The checks of `createPost`. */
  function CreateErrors(input: PostInput): (errs: seq<string>) {
    PostInputErrors(input.title, input.content, "Title is invalid", "Content is invalid")
  }

  /** The checks of `updatePost`, whose messages end with a full stop. */
  function UpdateErrors(input: PostInput): (errs: seq<string>) {
    PostInputErrors(input.title, input.content, "Title is invalid.", "Content is invalid.")
  }

  /** The error thrown for a rejected input, with every failing field in `data`. */
  function Invalid(message: string, errs: seq<string>): (e: GraphQLError) {
    GraphQLError(message, Some(422), errs)
  }

  /**
   * Whether the `creator` of a post is the given user: the id of the stored
   * creator document, as a string, is the caller's id. This is the test
   * `updatePost` and the ownership middleware make, and the one `deletePost`
   * needs.
   */
  predicate OwnedBy(p: Post, userId: Id) {
    p.creator == ByUser(userId)
  }

  predicate IsHexDigit(c: char) {
    '0' <= c <= '9' || 'a' <= c <= 'f'
  }

  /** The last `width` hexadecimal digits of `n`, most significant first. */
  function Hex(n: nat, width: nat): (s: string)
    ensures |s| == width
    ensures forall i :: 0 <= i < |s| ==> IsHexDigit(s[i])
  {
    if width == 0 then [] else Hex(n / 16, width - 1) + ["0123456789abcdef"[n % 16]]
  }

  /** `userId.toString()`: an ObjectId prints as 24 hexadecimal digits. */
  function IdString(id: Id): (s: string) {
    Hex(id, 24)
  }

  /**
   * `String(post.creator)`: the creator is stored as an embedded document
   * (the whole user, or `{ name: 'Duc' }`), and a plain object prints as
   * "[object Object]" whatever it holds.
   */
  function CreatorString(c: Creator): (s: string) {
    "[object Object]"
  }

  /** The ownership test of `deletePost` as written: the creator's string form against the caller's id. */
  predicate DeleteOwnerAsWritten(p: Post, userId: Id) {
    CreatorString(p.creator) == IdString(userId)
  }

  /**
   * As written, `deletePost` finds no caller to be the owner, its creator
   * included: every delete of an existing post is refused with 403.
   */
  lemma AsWrittenDeleteRefusesEveryone(p: Post, userId: Id)
    ensures !DeleteOwnerAsWritten(p, userId)
  {
    var s := IdString(userId);
    assert IsHexDigit(s[0]);
    assert CreatorString(p.creator)[0] == '[';
  }

  /**
   * The post after `updatePost` assigned its fields: title and content
   * replaced, the image replaced unless the input holds the string
   * 'undefined', and the creator kept.
   */
  function Updated(p: Post, input: PostInput): (r: Post)
    ensures r.title == input.title && r.content == input.content && r.creator == p.creator
    ensures input.imageUrl != "undefined" ==> r.imageUrl == input.imageUrl
    ensures input.imageUrl == "undefined" ==> r.imageUrl == p.imageUrl
  {
    p.(title := input.title, content := input.content,
       imageUrl := if input.imageUrl != "undefined" then input.imageUrl else p.imageUrl)
  }

  predicate EmailTaken(users: map<Id, User>, email: string) {
    exists id :: id in users && users[id].email == email
  }

  /** `createUser`: validation (422), then the uniqueness of the email (an error without code), then the save. */
  method CreateUser(db: Db, input: UserInput, isEmail: string -> bool, hash: string -> string)
    returns (r: Result<UserDoc, GraphQLError>)
    requires db.Valid()
    modifies db
    ensures db.Valid()
    ensures SignupErrors(input, isEmail) != [] ==>
      r == Failure(Invalid("Invalid input", SignupErrors(input, isEmail)))
    ensures SignupErrors(input, isEmail) == [] && EmailTaken(old(db.users), input.email) ==>
      r == Failure(Uncoded("User Exists already!"))
    ensures r.Success? <==> SignupErrors(input, isEmail) == [] && !EmailTaken(old(db.users), input.email)
    ensures r.Failure? ==> unchanged(db)
    ensures r.Success? ==>
      && r.value.id !in old(db.users)
      && r.value.user == User(input.email, input.name, hash(input.password), None, [])
      && db.users == old(db.users)[r.value.id := r.value.user]
      && db.posts == old(db.posts) && db.order == old(db.order) && db.cleared == old(db.cleared)
  {
    var errs := SignupErrors(input, isEmail);
    if errs != [] {
      return Failure(Invalid("Invalid input", errs));
    }
    var existing := db.FindUserByEmail(input.email);
    if existing.Some? {
      return Failure(Uncoded("User Exists already!"));
    }
    var user := User(input.email, input.name, hash(input.password), None, []);
    var id := db.InsertUser(user);
    r := Success(UserDoc(id, user));
  }

  /**
   * `login`, its decision part: an unknown email and a wrong password are
   * both 401; otherwise the token carries the user's id and email and
   * expires after an hour. `matches` stands for `bcrypt.compare`.
   */
  method Login(db: Db, email: string, password: string, matches: (string, string) -> bool)
    returns (r: Result<Session, GraphQLError>)
    requires db.Valid()
    ensures !EmailTaken(db.users, email) ==> r == Failure(Coded("User not found", 401))
    ensures forall id :: id in db.users && db.users[id].email == email ==>
      r == if matches(password, db.users[id].password)
           then Success(Session(Claims(id, email), TokenLifetimeSeconds, id))
           else Failure(Coded("Password is incorrect", 401))
  {
    var found := db.FindUserByEmail(email);
    if found.None? {
      return Failure(Coded("User not found", 401));
    }
    var id := found.value;
    var user := db.users[id];
    if !matches(password, user.password) {
      return Failure(Coded("Password is incorrect", 401));
    }
    r := Success(Session(Claims(id, user.email), TokenLifetimeSeconds, id));
  }

  /**
   * `createPost`: 401, then validation (422, every failing field listed),
   * then the caller's user (401 "Invalid user"), then the save of the post
   * with that user as creator and the push of its id onto the user's posts.
   */
  method CreatePost(db: Db, ctx: Context, input: PostInput) returns (r: Result<PostDoc, GraphQLError>)
    requires db.Valid()
    modifies db
    ensures db.Valid()
    ensures !ctx.isAuth ==> r == Failure(NotAuthenticated)
    ensures ctx.isAuth && CreateErrors(input) != [] ==>
      r == Failure(Invalid("Invalid input", CreateErrors(input)))
    ensures ctx.isAuth && CreateErrors(input) == [] && ctx.userId !in old(db.users) ==>
      r == Failure(Coded("Invalid user", 401))
    ensures ctx.isAuth && CreateErrors(input) == [] && ctx.userId in old(db.users) && input.imageUrl == "" ==>
      r == Failure(PostNotSavable)
    ensures r.Success? <==>
      ctx.isAuth && CreateErrors(input) == [] && ctx.userId in old(db.users) && input.imageUrl != ""
    ensures r.Failure? ==> unchanged(db)
    ensures r.Success? ==>
      var id := r.value.id;
      var owner := old(db.users)[ctx.userId];
      && id !in old(db.posts)
      && r.value.post == Post(input.title, input.content, input.imageUrl, ByUser(ctx.userId))
      && db.posts == old(db.posts)[id := r.value.post]
      && db.order == old(db.order) + [id]
      && db.users == old(db.users)[ctx.userId := owner.(posts := owner.posts + [id])]
      && db.cleared == old(db.cleared)
  {
    if !ctx.isAuth {
      return Failure(NotAuthenticated);
    }
    var errs := CreateErrors(input);
    if errs != [] {
      return Failure(Invalid("Invalid input", errs));
    }
    if ctx.userId !in db.users {
      return Failure(Coded("Invalid user", 401));
    }
    var user := db.users[ctx.userId];
    var post := Post(input.title, input.content, input.imageUrl, ByUser(ctx.userId));
    if !post.Savable() {
      return Failure(PostNotSavable);
    }
    var id := db.InsertPost(post);
    db.ReplaceUser(ctx.userId, user.(posts := user.posts + [id]));
    r := Success(PostDoc(id, post));
  }

  /**
   * `posts`: page 1 when the page is missing or 0, then 401, then the
   * window `skip (page - 1) * 2, limit 2` over all posts newest first and
   * the count of all posts.
   */
  method Posts(db: Db, ctx: Context, page: Option<int>) returns (r: Result<PostsPage, GraphQLError>)
    requires db.Valid()
    ensures !ctx.isAuth ==> r == Failure(NotAuthenticated)
    ensures ctx.isAuth && Skip(GraphQLPage(page)) < 0 ==> r == Failure(NegativeSkip)
    ensures ctx.isAuth && Skip(GraphQLPage(page)) >= 0 ==>
      r == Success(PostsPage(db.Docs(Window(db.NewestFirst(), Skip(GraphQLPage(page)), PerPage)), |db.posts|))
  {
    var p := GraphQLPage(page);
    if !ctx.isAuth {
      return Failure(NotAuthenticated);
    }
    db.OrderSize();
    var total := |db.posts|;
    var skip := Skip(p);
    if skip < 0 {
      return Failure(NegativeSkip);
    }
    var ids := Window(db.NewestFirst(), skip, PerPage);
    r := Success(PostsPage(db.Docs(ids), total));
  }

  /** `post`: 401, then 404, then the stored document. */
  method GetPost(db: Db, ctx: Context, id: Id) returns (r: Result<PostDoc, GraphQLError>)
    requires db.Valid()
    ensures !ctx.isAuth ==> r == Failure(NotAuthenticated)
    ensures ctx.isAuth && id !in db.posts ==> r == Failure(NoPostFound)
    ensures ctx.isAuth && id in db.posts ==> r == Success(PostDoc(id, db.posts[id]))
  {
    if !ctx.isAuth {
      return Failure(NotAuthenticated);
    }
    if id !in db.posts {
      return Failure(NoPostFound);
    }
    r := Success(PostDoc(id, db.posts[id]));
  }

  /**
   * `updatePost`: 401, then 404, then 403 when the creator is another
   * user, then 422; only then are title, content and (unless 'undefined')
   * the image replaced and the post saved. Nothing else changes.
   */
  method UpdatePost(db: Db, ctx: Context, id: Id, input: PostInput) returns (r: Result<PostDoc, GraphQLError>)
    requires db.Valid()
    modifies db
    ensures db.Valid()
    ensures !ctx.isAuth ==> r == Failure(NotAuthenticated)
    ensures ctx.isAuth && id !in old(db.posts) ==> r == Failure(NoPostFound)
    ensures ctx.isAuth && id in old(db.posts) ==>
      var p := old(db.posts)[id];
      && (p.creator.Named? ==> r == Failure(CreatorWithoutId))
      && (p.creator.ByUser? && p.creator.id != ctx.userId ==> r == Failure(NotAuthorized))
      && (OwnedBy(p, ctx.userId) && UpdateErrors(input) != [] ==>
            r == Failure(Invalid("Invalid input.", UpdateErrors(input))))
      && (OwnedBy(p, ctx.userId) && UpdateErrors(input) == [] && !Updated(p, input).Savable() ==>
            r == Failure(PostNotSavable))
    ensures r.Success? <==>
      && ctx.isAuth && id in old(db.posts) && OwnedBy(old(db.posts)[id], ctx.userId)
      && UpdateErrors(input) == [] && Updated(old(db.posts)[id], input).Savable()
    ensures r.Failure? ==> unchanged(db)
    ensures r.Success? ==>
      && r.value == PostDoc(id, Updated(old(db.posts)[id], input))
      && db.posts == old(db.posts)[id := r.value.post]
      && db.users == old(db.users) && db.order == old(db.order) && db.cleared == old(db.cleared)
  {
    if !ctx.isAuth {
      return Failure(NotAuthenticated);
    }
    if id !in db.posts {
      return Failure(NoPostFound);
    }
    var post := db.posts[id];
    if post.creator.Named? {
      return Failure(CreatorWithoutId);
    }
    if post.creator.id != ctx.userId {
      return Failure(NotAuthorized);
    }
    var errs := UpdateErrors(input);
    if errs != [] {
      return Failure(Invalid("Invalid input.", errs));
    }
    var updated := Updated(post, input);
    if !updated.Savable() {
      return Failure(PostNotSavable);
    }
    db.ReplacePost(id, updated);
    r := Success(PostDoc(id, updated));
  }

  /**
   * `deletePost`: 401, then 404, then 403 unless the caller created the
   * post; then the image is cleared, the post removed and its id pulled
   * from the caller's posts, and the result is true.
   */
  method DeletePost(db: Db, ctx: Context, id: Id) returns (r: Result<bool, GraphQLError>)
    requires db.Valid()
    modifies db
    ensures db.Valid()
    ensures !ctx.isAuth ==> r == Failure(NotAuthenticated)
    ensures ctx.isAuth && id !in old(db.posts) ==> r == Failure(NoPostFound)
    ensures ctx.isAuth && id in old(db.posts) && !OwnedBy(old(db.posts)[id], ctx.userId) ==>
      r == Failure(NotAuthorized)
    ensures !(ctx.isAuth && id in old(db.posts) && OwnedBy(old(db.posts)[id], ctx.userId)) ==>
      unchanged(db)
    ensures ctx.isAuth && id in old(db.posts) && OwnedBy(old(db.posts)[id], ctx.userId) ==>
      && db.posts == old(db.posts) - {id}
      && db.order == Pull(old(db.order), id)
      && db.cleared == old(db.cleared) + [old(db.posts)[id].imageUrl]
      && (ctx.userId !in old(db.users) ==> r == Failure(UserGone) && db.users == old(db.users))
      && (ctx.userId in old(db.users) ==>
            var owner := old(db.users)[ctx.userId];
            r == Success(true) && db.users == old(db.users)[ctx.userId := owner.(posts := Pull(owner.posts, id))])
    ensures r.Success? ==> id !in db.posts
  {
    if !ctx.isAuth {
      return Failure(NotAuthenticated);
    }
    if id !in db.posts {
      return Failure(NoPostFound);
    }
    var post := db.posts[id];
    if !OwnedBy(post, ctx.userId) {
      return Failure(NotAuthorized);
    }
    db.ClearImage(post.imageUrl);
    db.RemovePost(id);
    if ctx.userId !in db.users {
      return Failure(UserGone);
    }
    var user := db.users[ctx.userId];
    db.ReplaceUser(ctx.userId, user.(posts := Pull(user.posts, id)));
    r := Success(true);
  }

  /** `user`: 401, then 404, then the caller's user document. */
  method GetUser(db: Db, ctx: Context) returns (r: Result<UserDoc, GraphQLError>)
    requires db.Valid()
    ensures !ctx.isAuth ==> r == Failure(NotAuthenticated)
    ensures ctx.isAuth && ctx.userId !in db.users ==> r == Failure(NoUserFound)
    ensures ctx.isAuth && ctx.userId in db.users ==> r == Success(UserDoc(ctx.userId, db.users[ctx.userId]))
  {
    if !ctx.isAuth {
      return Failure(NotAuthenticated);
    }
    if ctx.userId !in db.users {
      return Failure(NoUserFound);
    }
    r := Success(UserDoc(ctx.userId, db.users[ctx.userId]));
  }

  /** `updateStatus`: 401, then 404, then the caller's status replaced and nothing else. */
  method UpdateStatus(db: Db, ctx: Context, status: string) returns (r: Result<UserDoc, GraphQLError>)
    requires db.Valid()
    modifies db
    ensures db.Valid()
    ensures !ctx.isAuth ==> r == Failure(NotAuthenticated)
    ensures ctx.isAuth && ctx.userId !in old(db.users) ==> r == Failure(NoUserFound)
    ensures r.Failure? ==> unchanged(db)
    ensures ctx.isAuth && ctx.userId in old(db.users) ==>
      var user := old(db.users)[ctx.userId].(status := Some(status));
      && r == Success(UserDoc(ctx.userId, user))
      && db.users == old(db.users)[ctx.userId := user]
      && db.posts == old(db.posts) && db.order == old(db.order) && db.cleared == old(db.cleared)
  {
    if !ctx.isAuth {
      return Failure(NotAuthenticated);
    }
    if ctx.userId !in db.users {
      return Failure(NoUserFound);
    }
    var user := db.users[ctx.userId].(status := Some(status));
    db.ReplaceUser(ctx.userId, user);
    r := Success(UserDoc(ctx.userId, user));
  }

  /** Deleting the same post twice: the second call is 404 whenever the first one succeeded. */
  method DeleteTwice(db: Db, ctx: Context, id: Id) returns (first: Result<bool, GraphQLError>, second: Result<bool, GraphQLError>)
    requires db.Valid()
    modifies db
    ensures db.Valid()
    ensures first.Success? ==> second == Failure(NoPostFound)
  {
    first := DeletePost(db, ctx, id);
    second := DeletePost(db, ctx, id);
  }
}
