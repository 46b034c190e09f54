/**
 * The REST ownership middleware: one lookup of the post, a comparison of
 * its creator's id with the caller's, and the loaded post attached to the
 * request. Its failures keep their 401 and anything else becomes 500.
 */
module IsOwner {
  import opened Wrappers
  import opened Documents
  import opened Errors
  import opened Store
  import App

  const CouldNotFindPost: HttpError := HttpError("Could not find post", Some(401), None)
  const NotAuthenticatedOwner: HttpError := HttpError("Not Authenticated", Some(401), None)

  /** Reading `_id` of a creator that has none throws a plain TypeError. */
  const CreatorWithoutId: HttpError := Plain("Cannot read properties of undefined (reading 'toString')")

  /**
   * The middleware for post `postId` and caller `userId` (absent when no
   * token was verified). `reqPost` is what it leaves in `req.post`, `calls`
   * the arguments of its successive `next` calls: on a failure `next(err)`
   * and then, because the last call sits after the try/catch, `next()`.
   */
  method Check(db: Db, postId: Id, userId: Option<Id>) returns (reqPost: Option<PostDoc>, calls: seq<Option<HttpError>>)
    requires db.Valid()
    ensures postId !in db.posts ==>
      reqPost.None? && calls == [Some(CouldNotFindPost), None]
    ensures postId in db.posts && db.posts[postId].creator.Named? ==>
      reqPost.None? && calls == [Some(CreatorWithoutId.(statusCode := Some(500))), None]
    ensures postId in db.posts && db.posts[postId].creator.ByUser? && userId != Some(db.posts[postId].creator.id) ==>
      reqPost.None? && calls == [Some(NotAuthenticatedOwner), None]
    ensures reqPost.Some? <==> postId in db.posts && userId.Some? && db.posts[postId].creator == ByUser(userId.value)
    ensures reqPost.Some? ==> reqPost.value == PostDoc(postId, db.posts[postId]) && calls == [None]
    ensures |calls| == 2 ==> App.HandleError(calls[0].value).status in {401, 500}
  {
    reqPost := None;
    calls := [];
    var thrown: Option<HttpError> := None;
    // try
    if postId !in db.posts {
      thrown := Some(CouldNotFindPost);
    } else {
      var post := db.posts[postId];
      if post.creator.Named? {
        thrown := Some(CreatorWithoutId);
      } else if userId != Some(post.creator.id) {
        thrown := Some(NotAuthenticatedOwner);
      } else {
        reqPost := Some(PostDoc(postId, post));
      }
    }
    // catch
    if thrown.Some? {
      var err := SetStatus(thrown.value, 500);
      calls := calls + [Some(err)];
    }
    calls := calls + [None];
  }
}
