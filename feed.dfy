/**
 * The REST feed controllers and the validation chains of their routes.
 * None of the post routes checks authentication or ownership; errors carry
 * a `statusCode` that `setError` fills in only when none is set yet.
 */
module Feed {
  import opened Wrappers
  import opened Documents
  import opened Errors
  import opened Text
  import opened Paging
  import opened Sequences
  import opened Store
  import opened App

  /** The fields of `req.body` the controllers read. */
  datatype PostBody = PostBody(title: string, content: string, image: Option<string>)

  datatype Payload = PostsPayload(posts: seq<PostDoc>, totalItems: nat) | PostPayload(post: PostDoc) | NoPayload

  /**
   * How a controller ends: a JSON response, `next(err)` from its catch
   * block, or an error thrown out of the controller itself.
   */
  datatype Reply = Respond(status: int, message: string, payload: Payload) | Next(err: HttpError) | Thrown(err: HttpError)

  /** The HTTP status the client receives: the response's, or the error handler's for an error. */
  function StatusOf(reply: Reply): (s: int) {
    if reply.Respond? then reply.status else HandleError(reply.err).status
  }

  /**
   * The `trim()` sanitizers of the POST and PUT routes: they rewrite the
   * title and content in the request before the controller reads them.
   */
  function Sanitize(body: PostBody): (b: PostBody) {
    body.(title := Trim(body.title), content := Trim(body.content))
  }

  /** Sanitizing an already sanitized body changes nothing. */
  lemma SanitizeIdempotent(body: PostBody)
    ensures Sanitize(Sanitize(body)) == Sanitize(body)
  {
    TrimIdempotent(body.title);
    TrimIdempotent(body.content);
  }

  /** `validationResult(req).isEmpty()` after `trim().isLength({ min: 5 })` on both fields. */
  predicate RouteValid(body: PostBody) {
    IsLength(Trim(body.title), MinLength) && IsLength(Trim(body.content), MinLength)
  }

  /** Whatever the routes accept, the resolvers' length rule accepts too. */
  lemma RouteValidIsResolverValid(body: PostBody)
    requires RouteValid(body)
    ensures !TooShort(body.title) && !TooShort(body.content)
    ensures !TooShort(Sanitize(body).title) && !TooShort(Sanitize(body).content)
  {
    TrimmedLongEnoughIsLongEnough(body.title);
    TrimmedLongEnoughIsLongEnough(body.content);
  }

  /**
   * The image `updatePost` stores: `req.body.image`, replaced by the path
   * of the uploaded file when there is one.
   */
  function ChooseImage(bodyImage: Option<string>, file: Option<File>): (r: Option<string>)
    ensures file.Some? ==> r == Some(file.value.path)
    ensures file.None? ==> r == bodyImage
  {
    if file.Some? then Some(file.value.path) else bodyImage
  }

  /** The truthiness of a string value (unset and "" are falsy). */
  predicate Truthy(s: Option<string>) {
    s.Some? && s.value != ""
  }

  /**
   * An upload the filter refuses leaves the body's image in charge; an
   * accepted one overrides it.
   */
  lemma UploadDecidesImage(bodyImage: Option<string>, f: File)
    ensures !IsImageType(f.mimetype) ==> ChooseImage(bodyImage, Upload(Some(f))) == bodyImage
    ensures IsImageType(f.mimetype) ==> ChooseImage(bodyImage, Upload(Some(f))) == Some(f.path)
  {
  }

  const FetchFailedNegativeSkip: HttpError := HttpError("skip value must be non-negative", Some(500), None)
  const CouldNotFindPost: HttpError := HttpError("Could not find post", Some(404), None)
  /** `getPost` throws the undeclared `err`: a ReferenceError, which its catch block makes a 500. */
  const GetPostReferenceError: HttpError := HttpError("err is not defined", Some(500), None)
  const ValidationFailed: HttpError := HttpError("Validation failed, entered data is incorrect", Some(404), None)
  /** `createPost` constructs the undefined `Err`: a ReferenceError without a status. */
  const NoImageReferenceError: HttpError := HttpError("Err is not defined", None, None)
  const NoFilePicked: HttpError := HttpError("No file picked", Some(422), None)
  const PostNotSavable: HttpError := HttpError("Post validation failed", Some(500), None)

  /**
   * `getPosts`: page 1 when none is given, the window `skip (page - 1) * 2,
   * limit 2` over the posts in stored order, and the count of all posts.
   */
  method GetPosts(db: Db, page: Option<int>) returns (reply: Reply)
    requires db.Valid()
    ensures Skip(RestPage(page)) < 0 ==> reply == Next(FetchFailedNegativeSkip)
    ensures Skip(RestPage(page)) >= 0 ==>
      reply == Respond(200, "Posts fetched successfully",
                       PostsPayload(db.Docs(Window(db.order, Skip(RestPage(page)), PerPage)), |db.posts|))
  {
    var currentPage := RestPage(page);
    var totalItems := |db.posts|;
    var skip := Skip(currentPage);
    if skip < 0 {
      return Next(SetStatus(Plain(FetchFailedNegativeSkip.message), 500));
    }
    var ids := Window(db.order, skip, PerPage);
    reply := Respond(200, "Posts fetched successfully", PostsPayload(db.Docs(ids), totalItems));
  }

  /** `getPost`: the stored post, or a 500 where a 404 was meant. */
  method GetPost(db: Db, postId: Id) returns (reply: Reply)
    requires db.Valid()
    ensures postId !in db.posts ==> reply == Next(GetPostReferenceError)
    ensures postId in db.posts ==> reply == Respond(200, "Post fetched", PostPayload(PostDoc(postId, db.posts[postId])))
  {
    if postId !in db.posts {
      return Next(SetStatus(Plain(GetPostReferenceError.message), 500));
    }
    reply := Respond(200, "Post fetched", PostPayload(PostDoc(postId, db.posts[postId])));
  }

  /**
   * `createPost`: a failed route validation is thrown with status 404, a
   * missing upload is thrown without a status; otherwise the trimmed title
   * and content are stored with the upload's path and the fixed creator
   * `{ name: 'Duc' }`, and no user is touched.
   */
  method CreatePost(db: Db, body: PostBody, file: Option<File>) returns (reply: Reply)
    requires db.Valid()
    modifies db
    ensures db.Valid()
    ensures !RouteValid(body) ==> reply == Thrown(ValidationFailed)
    ensures RouteValid(body) && file.None? ==> reply == Thrown(NoImageReferenceError)
    ensures RouteValid(body) && file.Some? && file.value.path == "" ==> reply == Next(PostNotSavable)
    ensures reply.Respond? <==> RouteValid(body) && file.Some? && file.value.path != ""
    ensures !reply.Respond? ==> unchanged(db)
    ensures reply.Respond? ==>
      var p := Post(Trim(body.title), Trim(body.content), file.value.path, Named("Duc"));
      && reply.status == 200 && reply.message == "Post created successfully"
      && reply.payload.PostPayload? && reply.payload.post.post == p
      && reply.payload.post.id !in old(db.posts)
      && db.posts == old(db.posts)[reply.payload.post.id := p]
      && db.order == old(db.order) + [reply.payload.post.id]
      && db.users == old(db.users) && db.cleared == old(db.cleared)
  {
    if !RouteValid(body) {
      var err := SetStatus(Plain(ValidationFailed.message), 404);
      return Thrown(err);
    }
    var req := Sanitize(body);
    if file.None? {
      return Thrown(NoImageReferenceError);
    }
    var imageUrl := file.value.path;
    var post := Post(req.title, req.content, imageUrl, Named("Duc"));
    RouteValidIsResolverValid(body);
    if !post.Savable() {
      return Next(SetStatus(Plain(PostNotSavable.message), 500));
    }
    var id := db.InsertPost(post);
    reply := Respond(200, "Post created successfully", PostPayload(PostDoc(id, post)));
  }

  /**
   * `updatePost`: a failed route validation is built but not thrown. The
   * image is the body's, overridden by an upload; with neither a 422 is
   * thrown before any lookup. A missing post is 404; an existing one is
   * revised by `Revise`.
   */
  method UpdatePost(db: Db, postId: Id, body: PostBody, file: Option<File>) returns (reply: Reply)
    requires db.Valid()
    modifies db
    ensures db.Valid()
    ensures !Truthy(ChooseImage(body.image, file)) ==> reply == Thrown(NoFilePicked) && unchanged(db)
    ensures Truthy(ChooseImage(body.image, file)) && postId !in old(db.posts) ==>
      reply == Next(CouldNotFindPost) && unchanged(db)
    ensures Truthy(ChooseImage(body.image, file)) && postId in old(db.posts) ==>
      var old_ := old(db.posts)[postId];
      var imageUrl := ChooseImage(body.image, file).value;
      var p := Post(Trim(body.title), Trim(body.content), imageUrl, old_.creator);
      && db.cleared == old(db.cleared) + (if imageUrl != old_.imageUrl then [old_.imageUrl] else [])
      && db.users == old(db.users) && db.order == old(db.order)
      && (p.Savable() ==>
            reply == Respond(200, "Post updated", PostPayload(PostDoc(postId, p)))
            && db.posts == old(db.posts)[postId := p])
      && (!p.Savable() ==> reply == Next(PostNotSavable) && db.posts == old(db.posts))
  {
    var req := Sanitize(body);
    if !RouteValid(body) {
      // the error is built and then dropped: the update goes on
      var validationError := SetStatus(Plain(ValidationFailed.message), 422);
    }
    var imageUrl := ChooseImage(req.image, file);
    if !Truthy(imageUrl) {
      return Thrown(SetStatus(Plain(NoFilePicked.message), 422));
    }
    // try
    if postId !in db.posts {
      var err := SetStatus(Plain(CouldNotFindPost.message), 404);
      return Next(SetStatus(err, 500));
    }
    reply := Revise(db, postId, req, imageUrl.value);
  }

  /**
   * The rest of `updatePost`'s try block for a stored post: the old image is
   * cleared only if it differs from the new one, and exactly title, image
   * and content are replaced; an empty title or content makes the save fail
   * after the image was cleared.
   */
  method Revise(db: Db, postId: Id, req: PostBody, imageUrl: string) returns (reply: Reply)
    requires db.Valid() && postId in db.posts
    modifies db
    ensures db.Valid()
    ensures
      var old_ := old(db.posts)[postId];
      var p := Post(req.title, req.content, imageUrl, old_.creator);
      && db.cleared == old(db.cleared) + (if imageUrl != old_.imageUrl then [old_.imageUrl] else [])
      && db.users == old(db.users) && db.order == old(db.order)
      && (p.Savable() ==>
            reply == Respond(200, "Post updated", PostPayload(PostDoc(postId, p)))
            && db.posts == old(db.posts)[postId := p])
      && (!p.Savable() ==> reply == Next(PostNotSavable) && db.posts == old(db.posts))
  {
    var post := db.posts[postId];
    if imageUrl != post.imageUrl {
      db.ClearImage(post.imageUrl);
    }
    var updated := post.(title := req.title, imageUrl := imageUrl, content := req.content);
    if !updated.Savable() {
      return Next(SetStatus(Plain(PostNotSavable.message), 500));
    }
    db.ReplacePost(postId, updated);
    reply := Respond(200, "Post updated", PostPayload(PostDoc(postId, updated)));
  }

  /**
   * `deletePost`: a missing post is 404 (kept through the catch block's
   * `setError(err, 500)`); otherwise the image is cleared and the post
   * removed, with no ownership check and no user's post list touched.
   */
  method DeletePost(db: Db, postId: Id) returns (reply: Reply)
    requires db.Valid()
    modifies db
    ensures db.Valid()
    ensures postId !in old(db.posts) ==> reply == Next(CouldNotFindPost) && unchanged(db)
    ensures postId in old(db.posts) ==>
      && reply == Respond(200, "Post successfully deleted", NoPayload)
      && db.posts == old(db.posts) - {postId}
      && db.order == Pull(old(db.order), postId)
      && db.cleared == old(db.cleared) + [old(db.posts)[postId].imageUrl]
      && db.users == old(db.users)
  {
    if postId !in db.posts {
      var err := SetStatus(Plain(CouldNotFindPost.message), 404);
      return Next(SetStatus(err, 500));
    }
    var post := db.posts[postId];
    db.ClearImage(post.imageUrl);
    db.RemovePost(postId);
    reply := Respond(200, "Post successfully deleted", NoPayload);
  }

  /** A REST delete of a missing post reaches the client as 404, so a repeated delete is 404. */
  method DeleteTwice(db: Db, postId: Id) returns (first: int, second: int)
    requires db.Valid()
    modifies db
    ensures second == 404
    ensures postId in old(db.posts) ==> first == 200
  {
    var r1 := DeletePost(db, postId);
    first := StatusOf(r1);
    var r2 := DeletePost(db, postId);
    second := StatusOf(r2);
  }
}
