/**
 * The two kinds of stored document. A post has a required title, image
 * path, content and creator (models/post.js); a user has an email, a name,
 * a password hash, a status and the ids of the posts it created.
 */
module Documents {
  import opened Wrappers

  /** A document id (a Mongo ObjectId, taken abstractly). */
  type Id = nat

  /**
   * A post's creator: the user whose document the GraphQL resolver stores,
   * or the literal `{ name: 'Duc' }` object the REST controller stores,
   * which has no `_id`.
   */
  datatype Creator = ByUser(id: Id) | Named(name: string)

  datatype Post = Post(title: string, content: string, imageUrl: string, creator: Creator)
  {
    /**
     * The schema's `required: true` on the three string fields: Mongoose
     * rejects a save when such a field holds the empty string.
     */
    predicate Savable() {
      title != "" && content != "" && imageUrl != ""
    }
  }

  datatype User = User(email: string, name: string, password: string, status: Option<string>, posts: seq<Id>)

  /** A post as the resolvers hand it back: the document with its id. */
  datatype PostDoc = PostDoc(id: Id, post: Post)

  /** A user as the resolvers hand it back. */
  datatype UserDoc = UserDoc(id: Id, user: User)
}
