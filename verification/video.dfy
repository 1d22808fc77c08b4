/** The video route (`GET`/`PATCH /api/video`): it reads the configured
    video from the video provider and reshapes it for the dashboard, and it
    forwards title and description edits to the provider. */
module VideoRoute {
  import opened Common

  const NotConfigured: string := "YouTube API key not configured"
  const NotFound: string := "Video not found"
  const FetchFailed: string := "Failed to fetch video"
  const UpdateFailed: string := "Failed to update video"
  /** The category every update declares. */
  const CategoryId: string := "24"

  /** `process.env.YOUTUBE_VIDEO_ID || ''`. */
  function VideoIdOf(env: Env): (id: string)
    ensures Present(env.youtubeVideoId) ==> id == env.youtubeVideoId.value
    ensures !Present(env.youtubeVideoId) ==> id == ""
  {
    OrElse(env.youtubeVideoId, "")
  }

  /** The counters of a provider item; the provider reports them as decimal
      strings and may leave any of them out. */
  datatype Statistics = Statistics(viewCount: Option<string>, likeCount: Option<string>, commentCount: Option<string>)

  /** One entry of the provider's `items` list. */
  datatype VideoItem = VideoItem(
    id: string,
    title: string,
    description: string,
    thumbnailUrl: string,
    statistics: Statistics)

  /** A counter after `|| 0`: the provider's text, or the number 0 when the
      text is absent or empty. */
  datatype Count = Reported(text: string) | Zero

  /** The record the route answers with. `views` has no default. */
  datatype VideoInfo = VideoInfo(
    id: string,
    title: string,
    description: string,
    thumbnail: string,
    views: Option<string>,
    likes: Count,
    commentCount: Count)

  /** The lookup sent to the provider: which video, snippet and statistics. */
  datatype VideoQuery = VideoQuery(videoId: string)

  /** `count || 0`. */
  function CountOrZero(count: Option<string>): (c: Count)
    ensures c == Zero <==> !Present(count)
    ensures c.Reported? ==> count == Some(c.text) && c.text != ""
  {
    if Present(count) then Reported(count.value) else Zero
  }

  /** The reshaping of the first provider item. */
  function Normalize(item: VideoItem): (v: VideoInfo)
    ensures v.id == item.id && v.title == item.title && v.description == item.description
    ensures v.thumbnail == item.thumbnailUrl
    ensures v.views == item.statistics.viewCount
    ensures v.likes == Zero <==> !Present(item.statistics.likeCount)
    ensures v.commentCount == Zero <==> !Present(item.statistics.commentCount)
    ensures v.likes.Reported? ==> Some(v.likes.text) == item.statistics.likeCount
    ensures v.commentCount.Reported? ==> Some(v.commentCount.text) == item.statistics.commentCount
  {
    VideoInfo(item.id, item.title, item.description, item.thumbnailUrl, item.statistics.viewCount,
              CountOrZero(item.statistics.likeCount), CountOrZero(item.statistics.commentCount))
  }

  /** The provider counter a reshaped counter came from, when it was
      reported; a zero default reads back as absent. */
  function CountText(c: Count): Option<string>
  {
    match c
    case Reported(text) => Some(text)
    case Zero => None
  }

  /** The provider item a reshaped record describes. */
  function Restore(v: VideoInfo): VideoItem
  {
    VideoItem(v.id, v.title, v.description, v.thumbnail,
              Statistics(v.views, CountText(v.likes), CountText(v.commentCount)))
  }

  /** The reshaping loses nothing but the difference between an absent and
      an empty counter: an item whose counters are each absent or non-empty
      is recovered from its reshaped record. */
  lemma NormalizeRestore(item: VideoItem)
    requires item.statistics.likeCount != Some("")
    requires item.statistics.commentCount != Some("")
    ensures Restore(Normalize(item)) == item
  {
  }

  /** Reshaping then restoring then reshaping again is the first reshaping:
      every reshaped record is a fixed point. */
  lemma RestoreNormalize(v: VideoInfo)
    requires v.likes != Reported("") && v.commentCount != Reported("")
    ensures Normalize(Restore(v)) == v
  {
  }

  /** `GET /api/video`. `provider` stands for the lookup: the `items` it
      returned, or the error it raised. Without a key nothing is sent. */
  function Get(env: Env, provider: Outcome<seq<VideoItem>>): (x: Exchange<VideoQuery, VideoInfo>)
    ensures !Present(env.youtubeApiKey) ==> x.sent.None? && x.reply == Err(500, NotConfigured)
    ensures Present(env.youtubeApiKey) ==> x.sent == Some(VideoQuery(VideoIdOf(env)))
    ensures x.reply.Ok? <==> Present(env.youtubeApiKey) && provider.Delivered? && provider.data != []
    ensures x.reply.Ok? ==> x.reply.status == 200 && x.reply.value == Normalize(provider.data[0])
    ensures Present(env.youtubeApiKey) && provider.Delivered? && provider.data == [] ==>
              x.reply == Err(404, NotFound)
    ensures Present(env.youtubeApiKey) && provider.Failed? ==> x.reply == Err(500, FetchFailed)
  {
    if !Present(env.youtubeApiKey) then Exchange(None, Err(500, NotConfigured))
    else
      var query := VideoQuery(VideoIdOf(env));
      match provider
      case Failed(_) => Exchange(Some(query), Err(500, FetchFailed))
      case Delivered(items) =>
        if items == [] then Exchange(Some(query), Err(404, NotFound))
        else Exchange(Some(query), Ok(200, Normalize(items[0])))
  }

  /** The request body `{ title, description }`; either may be absent. */
  datatype PatchBody = PatchBody(title: Option<string>, description: Option<string>)

  datatype Snippet = Snippet(title: Option<string>, description: Option<string>, categoryId: string)

  /** The update sent to the provider. */
  datatype VideoUpdate = VideoUpdate(id: string, snippet: Snippet)

  /** The update the route builds for a request body. */
  function UpdateFor(env: Env, body: PatchBody): (u: VideoUpdate)
    ensures u.id == VideoIdOf(env) && u.snippet.categoryId == CategoryId
    ensures u.snippet.title == body.title && u.snippet.description == body.description
  {
    VideoUpdate(VideoIdOf(env), Snippet(body.title, body.description, CategoryId))
  }

  /** `PATCH /api/video`. `provider` stands for the update call: it either
      completed or raised an error, possibly with a message. A success
      answers `{ success: true }`, carried here as `true`. */
  function Patch(env: Env, body: PatchBody, provider: Outcome<()>): (x: Exchange<VideoUpdate, bool>)
    ensures !Present(env.youtubeApiKey) ==> x.sent.None? && x.reply == Err(500, NotConfigured)
    ensures Present(env.youtubeApiKey) ==> x.sent == Some(UpdateFor(env, body))
    ensures x.reply.Ok? <==> Present(env.youtubeApiKey) && provider.Delivered?
    ensures x.reply.Ok? ==> x.reply == Ok(200, true)
    ensures Present(env.youtubeApiKey) && provider.Failed? ==>
              x.reply == Err(500, OrElse(provider.message, UpdateFailed))
  {
    if !Present(env.youtubeApiKey) then Exchange(None, Err(500, NotConfigured))
    else
      var update := UpdateFor(env, body);
      match provider
      case Failed(message) => Exchange(Some(update), Err(500, OrElse(message, UpdateFailed)))
      case Delivered(_) => Exchange(Some(update), Ok(200, true))
  }

  /** The update carries the edited title and description verbatim: the
      provider receives back exactly what the caller sent, whatever the
      provider then answers. */
  lemma PatchCarriesBody(env: Env, body: PatchBody, provider: Outcome<()>)
    requires Present(env.youtubeApiKey)
    ensures Patch(env, body, provider).sent.Some?
    ensures var s := Patch(env, body, provider).sent.value.snippet;
            PatchBody(s.title, s.description) == body
  {
  }
}
