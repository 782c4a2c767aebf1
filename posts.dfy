/**
 * The post views `create_post`, `edit_post` and `delete_post_confirm`
 * (myblog/blog/views.py:51-87) as transitions on the Post table, keyed by
 * primary key. A user may change only a post whose author they are; anyone
 * else gets "not found" and the table stays as it was.
 */
module Posts {
  import opened Wrappers
  import opened Records

  /**
   * One request to a post view: a GET, or a POST whose form either failed
   * validation (None) or produced these fields.
   */
  datatype Submission = Show | Submit(form: Option<PostFields>)

  datatype PostOutcome = NotFound | FormShown | ConfirmShown | Saved(id: PostId) | Deleted

  datatype PostStep = PostStep(outcome: PostOutcome, posts: map<PostId, Post>)

  /** `get_object_or_404(Post, pk=pk, author=requester)` finds the post. */
  predicate Owns(posts: map<PostId, Post>, requester: UserId, pk: PostId)
  {
    pk in posts && posts[pk].author == requester
  }

  /** True when the request is a POST whose form validated. */
  predicate Accepted(request: Submission)
  {
    request.Submit? && request.form.Some?
  }

  /** `create_post`: a valid form becomes a new post under key `id`, authored by the requester. */
  function Create(posts: map<PostId, Post>, id: PostId, requester: UserId, request: Submission, now: Time): (r: PostStep)
    requires id !in posts
    ensures r.outcome.Saved? <==> Accepted(request)
    ensures !r.outcome.Saved? ==> r.outcome == FormShown && r.posts == posts
    ensures r.outcome.Saved? ==>
      && r.outcome.id == id
      && r.posts.Keys == posts.Keys + {id}
      && (forall k :: k in posts ==> r.posts[k] == posts[k])
      && Owns(r.posts, requester, id)
      && r.posts[id].createdDate == now
      && r.posts[id].title == request.form.value.title
      && r.posts[id].content == request.form.value.content
      && r.posts[id].image == request.form.value.image
  {
    if Accepted(request) then
      var f := request.form.value;
      PostStep(Saved(id), posts[id := Post(f.title, f.content, requester, now, f.image)])
    else
      PostStep(FormShown, posts)
  }

  /** `edit_post`: the owner's valid form overwrites the post's fields; author and date stay. */
  function Edit(posts: map<PostId, Post>, requester: UserId, pk: PostId, request: Submission): (r: PostStep)
    ensures r.outcome.NotFound? <==> !Owns(posts, requester, pk)
    ensures r.outcome.Saved? <==> Owns(posts, requester, pk) && Accepted(request)
    ensures Owns(posts, requester, pk) && !Accepted(request) ==> r.outcome == FormShown
    ensures !r.outcome.Saved? ==> r.posts == posts
    ensures r.outcome.Saved? ==>
      && r.outcome.id == pk
      && r.posts.Keys == posts.Keys
      && (forall k :: k in posts && k != pk ==> r.posts[k] == posts[k])
      && r.posts[pk].author == requester
      && r.posts[pk].createdDate == posts[pk].createdDate
      && r.posts[pk].title == request.form.value.title
      && r.posts[pk].content == request.form.value.content
      && r.posts[pk].image == request.form.value.image
  {
    if !Owns(posts, requester, pk) then PostStep(NotFound, posts)
    else if !Accepted(request) then PostStep(FormShown, posts)
    else
      var f := request.form.value;
      PostStep(Saved(pk), posts[pk := posts[pk].(title := f.title, content := f.content, image := f.image)])
  }

  /** `delete_post_confirm`: a POST by the owner removes that one post; a GET only asks. */
  function Delete(posts: map<PostId, Post>, requester: UserId, pk: PostId, confirmed: bool): (r: PostStep)
    ensures r.outcome.NotFound? <==> !Owns(posts, requester, pk)
    ensures r.outcome.Deleted? <==> Owns(posts, requester, pk) && confirmed
    ensures Owns(posts, requester, pk) && !confirmed ==> r.outcome == ConfirmShown
    ensures !r.outcome.Deleted? ==> r.posts == posts
    ensures r.outcome.Deleted? ==>
      && r.posts.Keys == posts.Keys - {pk}
      && forall k :: k in r.posts ==> r.posts[k] == posts[k]
  {
    if !Owns(posts, requester, pk) then PostStep(NotFound, posts)
    else if !confirmed then PostStep(ConfirmShown, posts)
    else PostStep(Deleted, posts - {pk})
  }

  /**
   * A post just created belongs to its creator alone: nobody else can edit or
   * delete it, and the creator's delete puts the table back as it was.
   */
  lemma CreatedPostOwnedByCreator(posts: map<PostId, Post>, id: PostId, requester: UserId, other: UserId,
                                  request: Submission, edit: Submission, now: Time)
    requires id !in posts && Accepted(request) && other != requester
    ensures var created := Create(posts, id, requester, request, now).posts;
      && Edit(created, other, id, edit) == PostStep(NotFound, created)
      && Delete(created, other, id, true) == PostStep(NotFound, created)
      && Delete(created, requester, id, true) == PostStep(Deleted, posts)
  {
    var created := Create(posts, id, requester, request, now).posts;
    assert Delete(created, requester, id, true).posts == posts;
  }
}
