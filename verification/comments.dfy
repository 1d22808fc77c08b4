/** The comments route (`GET`/`POST /api/comments`): it lists the top-level
    comments of the configured video, one per provider thread, and posts a
    new top-level comment. */
module CommentsRoute {
  import opened Common
  import VideoRoute

  const NotConfigured: string := "YouTube API key not configured"
  const FetchFailed: string := "Failed to fetch comments"
  const PostFailed: string := "Failed to post comment"
  /** `maxResults` of the listing request. */
  const MaxResults: nat := 20

  /** The snippet of a thread's top-level comment. */
  datatype CommentSnippet = CommentSnippet(
    authorDisplayName: string,
    textDisplay: string,
    likeCount: int,
    publishedAt: string)

  /** One entry of the provider's `items` list. */
  datatype Thread = Thread(id: string, topLevelComment: CommentSnippet)

  /** A comment as the route answers it. */
  datatype Comment = Comment(id: string, authorName: string, text: string, likes: int, publishedAt: string)

  /** The listing request: which video, and how many threads at most. */
  datatype ThreadQuery = ThreadQuery(videoId: string, maxResults: nat)

  /** The mapping of one thread. */
  function ToComment(t: Thread): (c: Comment)
    ensures c.id == t.id
    ensures c.authorName == t.topLevelComment.authorDisplayName && c.text == t.topLevelComment.textDisplay
    ensures c.likes == t.topLevelComment.likeCount && c.publishedAt == t.topLevelComment.publishedAt
  {
    var s := t.topLevelComment;
    Comment(t.id, s.authorDisplayName, s.textDisplay, s.likeCount, s.publishedAt)
  }

  /** `items.map(...)`: one comment per thread, in the provider's order. */
  function ToComments(threads: seq<Thread>): (r: seq<Comment>)
    ensures |r| == |threads|
    ensures forall i :: 0 <= i < |threads| ==> r[i].id == threads[i].id
    ensures forall i :: 0 <= i < |threads| ==> r[i] == ToComment(threads[i])
  {
    if threads == [] then [] else [ToComment(threads[0])] + ToComments(threads[1..])
  }

  /** The thread a comment was taken from. */
  function FromComment(c: Comment): Thread
  {
    Thread(c.id, CommentSnippet(c.authorName, c.text, c.likes, c.publishedAt))
  }

  function FromComments(comments: seq<Comment>): (r: seq<Thread>)
    ensures |r| == |comments|
  {
    if comments == [] then [] else [FromComment(comments[0])] + FromComments(comments[1..])
  }

  /** The mapping drops nothing a thread carries: the threads are recovered
      from the comments, in order. */
  lemma {:induction false} ToCommentsRoundTrip(threads: seq<Thread>)
    ensures FromComments(ToComments(threads)) == threads
  {
    if threads != [] {
      ToCommentsRoundTrip(threads[1..]);
      assert ToComments(threads)[1..] == ToComments(threads[1..]);
    }
  }

  /** `GET /api/comments`. `provider` stands for the listing call: the
      threads it returned, or the error it raised. */
  function Get(env: Env, provider: Outcome<seq<Thread>>): (x: Exchange<ThreadQuery, seq<Comment>>)
    ensures !Present(env.youtubeApiKey) ==> x.sent.None? && x.reply == Err(500, NotConfigured)
    ensures Present(env.youtubeApiKey) ==>
              x.sent == Some(ThreadQuery(VideoRoute.VideoIdOf(env), MaxResults))
    ensures x.reply.Ok? <==> Present(env.youtubeApiKey) && provider.Delivered?
    ensures x.reply.Ok? ==> x.reply.status == 200 && |x.reply.value| == |provider.data|
    ensures x.reply.Ok? ==> FromComments(x.reply.value) == provider.data
    ensures Present(env.youtubeApiKey) && provider.Failed? ==> x.reply == Err(500, FetchFailed)
  {
    if !Present(env.youtubeApiKey) then Exchange(None, Err(500, NotConfigured))
    else
      var query := ThreadQuery(VideoRoute.VideoIdOf(env), MaxResults);
      match provider
      case Failed(_) => Exchange(Some(query), Err(500, FetchFailed))
      case Delivered(threads) =>
        ToCommentsRoundTrip(threads);
        Exchange(Some(query), Ok(200, ToComments(threads)))
  }

  /** The request body `{ text }`; the route does not check the text. */
  datatype PostBody = PostBody(text: Option<string>)

  /** The new top-level comment sent to the provider. */
  datatype CommentInsert = CommentInsert(videoId: string, textOriginal: Option<string>)

  /** `{ success: true, commentId }`. */
  datatype Posted = Posted(success: bool, commentId: string)

  /** `POST /api/comments`. `provider` stands for the insertion call: the
      id of the created thread, or the error it raised. */
  function Post(env: Env, body: PostBody, provider: Outcome<string>): (x: Exchange<CommentInsert, Posted>)
    ensures !Present(env.youtubeApiKey) ==> x.sent.None? && x.reply == Err(500, NotConfigured)
    ensures Present(env.youtubeApiKey) ==>
              x.sent == Some(CommentInsert(VideoRoute.VideoIdOf(env), body.text))
    ensures x.reply.Ok? <==> Present(env.youtubeApiKey) && provider.Delivered?
    ensures x.reply.Ok? ==> x.reply == Ok(201, Posted(true, provider.data))
    ensures Present(env.youtubeApiKey) && provider.Failed? ==>
              x.reply == Err(500, OrElse(provider.message, PostFailed))
  {
    if !Present(env.youtubeApiKey) then Exchange(None, Err(500, NotConfigured))
    else
      var insert := CommentInsert(VideoRoute.VideoIdOf(env), body.text);
      match provider
      case Failed(message) => Exchange(Some(insert), Err(500, OrElse(message, PostFailed)))
      case Delivered(id) => Exchange(Some(insert), Ok(201, Posted(true, id)))
  }
}
