/**
 * The document store the resolvers and controllers work on, standing for
 * the Mongoose models: posts and users by id, the posts in the order they
 * were created, and the image paths handed to `clearImage`.
 */
module Store {
  import opened Wrappers
  import opened Documents
  import opened Sequences

  class Db {
    var posts: map<Id, Post>
    var users: map<Id, User>
    /** Post ids in creation order; fresh ids grow, so this is also id order. */
    var order: seq<Id>
    /** Every path given to `clearImage`, oldest first (the unlink is best effort). */
    var cleared: seq<string>
    /** The next fresh id. */
    var nextId: Id

    ghost predicate Valid()
      reads this
    {
      && Increasing(order)
      && (forall i :: 0 <= i < |order| ==> order[i] in posts)
      && (forall id :: id in posts ==> id in order)
      && (forall id :: id in posts ==> id < nextId && posts[id].Savable())
      && (forall id :: id in users ==> id < nextId)
      && (forall a, b :: a in users && b in users && users[a].email == users[b].email ==> a == b)
    }

    constructor ()
      ensures Valid()
      ensures posts == map[] && users == map[] && order == [] && cleared == []
    {
      posts, users, order, cleared, nextId := map[], map[], [], [], 0;
    }

    /** The posts with the given ids, as documents. */
    function Docs(ids: seq<Id>): (r: seq<PostDoc>)
      reads this
      requires forall i :: 0 <= i < |ids| ==> ids[i] in posts
      ensures |r| == |ids|
      ensures forall i :: 0 <= i < |ids| ==> r[i] == PostDoc(ids[i], posts[ids[i]])
    {
      var stored := posts;
      seq(|ids|, i requires 0 <= i < |ids| && ids[i] in stored => PostDoc(ids[i], stored[ids[i]]))
    }

    /**
     * The post ids sorted newest first (`sort({ createdAt: -1 })`, with the
     * creation order standing for the timestamps): every post exactly once,
     * in strictly decreasing id order.
     */
    function NewestFirst(): (r: seq<Id>)
      reads this
      requires Valid()
      ensures |r| == |order|
      ensures Decreasing(r)
      ensures forall i :: 0 <= i < |r| ==> r[i] in posts
      ensures forall id :: id in posts ==> id in r
    {
      ReverseIncreasing(order);
      Reverse(order)
    }

    /** The number of stored posts is the length of the creation order. */
    lemma OrderSize()
      requires Valid()
      ensures |order| == |posts|
    {
      DistinctSize(order);
      assert Elements(order) == posts.Keys;
    }

    /** `User.findOne({ email })`. */
    method FindUserByEmail(email: string) returns (r: Option<Id>)
      requires Valid()
      ensures r.Some? ==> r.value in users && users[r.value].email == email
      ensures r.None? <==> forall id :: id in users ==> users[id].email != email
    {
      if id :| id in users && users[id].email == email {
        r := Some(id);
      } else {
        r := None;
      }
    }

    /** `new Post(...).save()`. */
    method InsertPost(p: Post) returns (id: Id)
      requires Valid() && p.Savable()
      modifies this
      ensures Valid()
      ensures id !in old(posts) && id !in old(users)
      ensures posts == old(posts)[id := p] && order == old(order) + [id]
      ensures users == old(users) && cleared == old(cleared)
    {
      id := nextId;
      posts := posts[id := p];
      order := order + [id];
      nextId := nextId + 1;
    }

    /** `new User(...).save()`. */
    method InsertUser(u: User) returns (id: Id)
      requires Valid()
      requires forall other :: other in users ==> users[other].email != u.email
      modifies this
      ensures Valid()
      ensures id !in old(users) && id !in old(posts)
      ensures users == old(users)[id := u]
      ensures posts == old(posts) && order == old(order) && cleared == old(cleared)
    {
      id := nextId;
      users := users[id := u];
      nextId := nextId + 1;
    }

    /** `post.save()` on a post that was loaded and changed. */
    method ReplacePost(id: Id, p: Post)
      requires Valid() && id in posts && p.Savable()
      modifies this
      ensures Valid()
      ensures posts == old(posts)[id := p]
      ensures users == old(users) && order == old(order) && cleared == old(cleared)
    {
      posts := posts[id := p];
    }

    /** `user.save()` on a user that was loaded and changed (its email kept). */
    method ReplaceUser(id: Id, u: User)
      requires Valid() && id in users && u.email == users[id].email
      modifies this
      ensures Valid()
      ensures users == old(users)[id := u]
      ensures posts == old(posts) && order == old(order) && cleared == old(cleared)
    {
      users := users[id := u];
    }

    /** `Post.findByIdAndRemove(id)`. */
    method RemovePost(id: Id)
      requires Valid()
      modifies this
      ensures Valid()
      ensures posts == old(posts) - {id} && order == Pull(old(order), id)
      ensures users == old(users) && cleared == old(cleared)
    {
      PullIncreasing(order, id);
      posts := posts - {id};
      order := Pull(order, id);
      forall i | 0 <= i < |order| ensures order[i] in posts {
        assert order[i] in order;
      }
    }

    /** `clearImage(path)`: the removal of the file is recorded, not performed. */
    method ClearImage(path: string)
      requires Valid()
      modifies this
      ensures Valid()
      ensures cleared == old(cleared) + [path]
      ensures posts == old(posts) && users == old(users) && order == old(order)
    {
      cleared := cleared + [path];
    }
  }

  /** The ids in a list, as a set. */
  function Elements(s: seq<Id>): (r: set<Id>)
    ensures forall y :: y in r <==> y in s
  {
    if s == [] then {} else {s[0]} + Elements(s[1..])
  }

  /** A list in strictly increasing order has as many distinct elements as entries. */
  lemma {:induction false} DistinctSize(s: seq<Id>)
    requires Increasing(s)
    ensures |Elements(s)| == |s|
  {
    if s != [] {
      DistinctSize(s[1..]);
      assert s[0] !in Elements(s[1..]);
    }
  }
}
