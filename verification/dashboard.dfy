/** The dashboard page's action handlers: a state machine over the page's
    state. Each handler takes the outcome of the request it issues as a
    parameter, updates the state the way the handler does on that outcome,
    and records every request it issues, audit events included. The
    transition of each handler is a function on `State`; the `Home` class
    holds the state in fields and its methods are proved to perform those
    transitions. */
module Dashboard {
  import opened Common
  import opened Text
  import VideoRoute
  import CommentsRoute

  /** How a `fetch` ended: a response with `res.ok`, a response without it,
      or a rejection (a network error, or a body that is not JSON). */
  datatype Response = Okay | NotOk | Threw

  /** How the title-suggestion request ended, with what its body carried. */
  datatype SuggestResponse =
    | SuggestOk(suggestions: seq<string>)
    | SuggestNotOk(error: Option<string>)
    | SuggestThrew

  /** A note as the page holds it (`_id` is the store's id). */
  datatype ClientNote = ClientNote(id: string, content: string, tags: string, createdAt: string)

  /** An audit event `{ action, metadata }` sent to the audit log. */
  datatype AuditEvent = AuditEvent(action: string, metadata: Json)

  /** The requests the page issues, in the order it issues them. */
  datatype ApiRequest =
    | PatchVideo(title: string, description: string)
    | PostComment(text: string)
    | ListComments
    | DeleteComment(commentId: string)
    | PostNote(content: string, tags: string)
    | ListNotes
    | DeleteNote(noteId: string)
    | RequestTitles(title: string, description: string)
    | PostLog(event: AuditEvent)

  const UpdateFailed: string := "Failed to update video"
  const UpdateThrew: string := "Error updating video"
  const AddCommentFailed: string := "Failed to add comment"
  const AddCommentThrew: string := "Error adding comment"
  const DeleteCommentThrew: string := "Error deleting comment"
  const AddNoteThrew: string := "Error adding note"
  const DeleteNoteThrew: string := "Error deleting note"
  const SuggestFailed: string := "Failed to generate suggestions"
  const SuggestThrewMessage: string := "Error generating suggestions"

  /** The audit actions the page emits. */
  const Actions: set<string> := {"video_updated", "comment_added", "comment_deleted", "note_created",
                                 "note_deleted", "ai_suggestions_generated", "ai_suggestion_selected"}

  /** A one-field object `{ name: value }`. */
  function Field(name: string, value: Json): Json
  {
    Obj(map[name := value])
  }

  function VideoUpdated(oldTitle: string, newTitle: string): AuditEvent
  {
    AuditEvent("video_updated", Obj(map["oldTitle" := Str(oldTitle), "newTitle" := Str(newTitle)]))
  }

  function CommentAdded(text: string): AuditEvent
  {
    AuditEvent("comment_added", Field("text", Str(text)))
  }

  function CommentDeleted(id: string): AuditEvent
  {
    AuditEvent("comment_deleted", Field("commentId", Str(id)))
  }

  function NoteCreated(tags: string): AuditEvent
  {
    AuditEvent("note_created", Field("tags", Str(tags)))
  }

  function NoteDeleted(id: string): AuditEvent
  {
    AuditEvent("note_deleted", Field("noteId", Str(id)))
  }

  function SuggestionsGenerated(count: nat): AuditEvent
  {
    AuditEvent("ai_suggestions_generated", Field("count", Num(count)))
  }

  function SuggestionSelected(suggestion: string): AuditEvent
  {
    AuditEvent("ai_suggestion_selected", Field("suggestion", Str(suggestion)))
  }

  /** The audit events among `requests`, in order. */
  function Events(requests: seq<ApiRequest>): (r: seq<AuditEvent>)
    ensures |r| <= |requests|
    ensures forall k :: 0 <= k < |r| ==> PostLog(r[k]) in requests
  {
    if requests == [] then []
    else
      var rest := Events(requests[1..]);
      assert forall k :: 0 <= k < |rest| ==> PostLog(rest[k]) in requests[1..];
      match requests[0]
      case PostLog(e) => [e] + rest
      case _ => rest
  }

  lemma {:induction false} EventsAppend(a: seq<ApiRequest>, b: seq<ApiRequest>)
    ensures Events(a + b) == Events(a) + Events(b)
  {
    if a != [] {
      EventsAppend(a[1..], b);
      assert (a + b)[0] == a[0] && (a + b)[1..] == a[1..] + b;
    } else {
      assert a + b == b;
    }
  }

  /** Requests none of which is an audit request hold no audit event. */
  lemma {:induction false} NoEvents(requests: seq<ApiRequest>)
    requires forall k :: 0 <= k < |requests| ==> !requests[k].PostLog?
    ensures Events(requests) == []
  {
    if requests != [] {
      NoEvents(requests[1..]);
    }
  }

  /** Every audit request is counted: a request is an audit event exactly
      when it is a `PostLog`. */
  lemma {:induction false} EventsComplete(requests: seq<ApiRequest>)
    ensures forall e :: e in Events(requests) <==> PostLog(e) in requests
  {
    if requests != [] {
      EventsComplete(requests[1..]);
      assert requests == [requests[0]] + requests[1..];
    }
  }

  /** Appending requests none of which is an audit request adds no event. */
  lemma AppendPlain(requests: seq<ApiRequest>, plain: seq<ApiRequest>)
    requires forall k :: 0 <= k < |plain| ==> !plain[k].PostLog?
    ensures Events(requests + plain) == Events(requests)
  {
    NoEvents(plain);
    EventsAppend(requests, plain);
  }

  /** Appending such requests and then one audit request adds exactly its
      event. */
  lemma AppendLogged(requests: seq<ApiRequest>, plain: seq<ApiRequest>, event: AuditEvent)
    requires forall k :: 0 <= k < |plain| ==> !plain[k].PostLog?
    ensures Events(requests + plain + [PostLog(event)]) == Events(requests) + [event]
  {
    AppendPlain(requests, plain);
    EventsAppend(requests + plain, [PostLog(event)]);
  }

  /** Every audit event names one of the page's actions. */
  ghost predicate KnownEvents(requests: seq<ApiRequest>)
  {
    forall e :: e in Events(requests) ==> e.action in Actions
  }

  /** `list.filter((x) => idOf(x) !== id)`. */
  function Without<T>(list: seq<T>, id: string, idOf: T -> string): (r: seq<T>)
    ensures |r| <= |list|
    ensures forall k :: 0 <= k < |r| ==> idOf(r[k]) != id
  {
    if list == [] then []
    else
      var rest := Without(list[1..], id, idOf);
      if idOf(list[0]) != id then [list[0]] + rest else rest
  }

  /** Removal takes out every entry with the id and keeps every other entry
      as often as it occurred. */
  lemma {:induction false} WithoutCounts<T(!new)>(list: seq<T>, id: string, idOf: T -> string)
    ensures forall x :: multiset(Without(list, id, idOf))[x] == if idOf(x) == id then 0 else multiset(list)[x]
  {
    if list != [] {
      WithoutCounts(list[1..], id, idOf);
      assert list == [list[0]] + list[1..];
    }
  }

  /** Removal keeps the other entries in their order: it distributes over
      concatenation. */
  lemma {:induction false} WithoutAppend<T>(a: seq<T>, b: seq<T>, id: string, idOf: T -> string)
    ensures Without(a + b, id, idOf) == Without(a, id, idOf) + Without(b, id, idOf)
  {
    if a != [] {
      WithoutAppend(a[1..], b, id, idOf);
      assert (a + b)[0] == a[0] && (a + b)[1..] == a[1..] + b;
    } else {
      assert a + b == b;
    }
  }

  /** A list without the id is left as it is. */
  lemma {:induction false} WithoutAbsent<T>(list: seq<T>, id: string, idOf: T -> string)
    requires forall k :: 0 <= k < |list| ==> idOf(list[k]) != id
    ensures Without(list, id, idOf) == list
  {
    if list != [] {
      WithoutAbsent(list[1..], id, idOf);
    }
  }

  /** Deleting twice is deleting once. */
  lemma WithoutTwice<T>(list: seq<T>, id: string, idOf: T -> string)
    ensures Without(Without(list, id, idOf), id, idOf) == Without(list, id, idOf)
  {
    WithoutAbsent(Without(list, id, idOf), id, idOf);
  }

  function CommentId(c: CommentsRoute.Comment): string
  {
    c.id
  }

  function NoteId(n: ClientNote): string
  {
    n.id
  }

  /** The page's state hooks (loading flags and the active tab left out). */
  datatype State = State(
    video: Option<VideoRoute.VideoInfo>,
    error: string,
    editTitle: string,
    editDescription: string,
    isEditingVideo: bool,
    comments: seq<CommentsRoute.Comment>,
    newComment: string,
    notes: seq<ClientNote>,
    noteContent: string,
    noteTags: string,
    suggestions: seq<string>,
    requests: seq<ApiRequest>)

  /** The state after `logEvent(event.action, event.metadata)`. */
  function AfterLogEvent(s: State, event: AuditEvent): (t: State)
    ensures t.(requests := s.requests) == s
    ensures t.requests == s.requests + [PostLog(event)]
  {
    s.(requests := s.requests + [PostLog(event)])
  }

  /** The state after `handleUpdateVideo` (only reachable with a loaded
      video: the edit form is rendered only then). */
  function AfterUpdateVideo(s: State, response: Response): (t: State)
    requires s.video.Some?
    ensures t.(video := s.video, error := s.error, isEditingVideo := s.isEditingVideo, requests := s.requests) == s
    ensures s.requests + [PatchVideo(s.editTitle, s.editDescription)] <= t.requests
    ensures response == Okay ==> t.error == s.error && !t.isEditingVideo
    ensures response != Okay ==> t.video == s.video && t.isEditingVideo == s.isEditingVideo
  {
    var sent := s.requests + [PatchVideo(s.editTitle, s.editDescription)];
    match response
    case Okay =>
      s.(video := Some(s.video.value.(title := s.editTitle, description := s.editDescription)),
         isEditingVideo := false,
         requests := sent + [PostLog(VideoUpdated(s.video.value.title, s.editTitle))])
    case NotOk => s.(error := UpdateFailed, requests := sent)
    case Threw => s.(error := UpdateThrew, requests := sent)
  }

  /** The state after `handleAddComment` once the text passed the blank check. */
  function CommentSent(s: State, response: Response): (t: State)
    ensures t.(newComment := s.newComment, error := s.error, requests := s.requests) == s
    ensures s.requests + [PostComment(s.newComment)] <= t.requests
    ensures response == Okay ==> t.newComment == "" && t.error == s.error
    ensures response != Okay ==> t.newComment == s.newComment
  {
    var sent := s.requests + [PostComment(s.newComment)];
    match response
    case Okay =>
      s.(newComment := "", requests := sent + [ListComments, PostLog(CommentAdded(s.newComment))])
    case NotOk => s.(error := AddCommentFailed, requests := sent)
    case Threw => s.(error := AddCommentThrew, requests := sent)
  }

  /** The state after `handleAddComment`. */
  function AfterAddComment(s: State, response: Response): (t: State)
    ensures t.(newComment := s.newComment, error := s.error, requests := s.requests) == s
    ensures Blank(s.newComment) ==> t == s
    ensures !Blank(s.newComment) ==> s.requests + [PostComment(s.newComment)] <= t.requests
  {
    TrimEmptyIffBlank(s.newComment);
    if Trim(s.newComment) == "" then s else CommentSent(s, response)
  }

  /** The state after `handleDeleteComment(id)`. */
  function AfterDeleteComment(s: State, id: string, response: Response): (t: State)
    ensures t.(comments := s.comments, error := s.error, requests := s.requests) == s
    ensures s.requests + [DeleteComment(id)] <= t.requests
    ensures |t.comments| <= |s.comments|
    ensures response != Okay ==> t.comments == s.comments
  {
    var sent := s.requests + [DeleteComment(id)];
    match response
    case Okay =>
      s.(comments := Without(s.comments, id, CommentId), requests := sent + [PostLog(CommentDeleted(id))])
    case NotOk => s.(requests := sent)
    case Threw => s.(error := DeleteCommentThrew, requests := sent)
  }

  /** The state after `handleAddNote` once the content passed the blank check. */
  function NoteSent(s: State, response: Response): (t: State)
    ensures t.(noteContent := s.noteContent, noteTags := s.noteTags, error := s.error, requests := s.requests) == s
    ensures s.requests + [PostNote(s.noteContent, s.noteTags)] <= t.requests
    ensures response == Okay ==> t.noteContent == "" && t.noteTags == "" && t.error == s.error
    ensures response != Okay ==> t.noteContent == s.noteContent && t.noteTags == s.noteTags
  {
    var sent := s.requests + [PostNote(s.noteContent, s.noteTags)];
    match response
    case Okay =>
      s.(noteContent := "", noteTags := "", requests := sent + [ListNotes, PostLog(NoteCreated(s.noteTags))])
    case NotOk => s.(requests := sent)
    case Threw => s.(error := AddNoteThrew, requests := sent)
  }

  /** The state after `handleAddNote`. */
  function AfterAddNote(s: State, response: Response): (t: State)
    ensures t.(noteContent := s.noteContent, noteTags := s.noteTags, error := s.error, requests := s.requests) == s
    ensures Blank(s.noteContent) ==> t == s
    ensures !Blank(s.noteContent) ==> s.requests + [PostNote(s.noteContent, s.noteTags)] <= t.requests
  {
    TrimEmptyIffBlank(s.noteContent);
    if Trim(s.noteContent) == "" then s else NoteSent(s, response)
  }

  /** The state after `handleDeleteNote(id)`. */
  function AfterDeleteNote(s: State, id: string, response: Response): (t: State)
    ensures t.(notes := s.notes, error := s.error, requests := s.requests) == s
    ensures s.requests + [DeleteNote(id)] <= t.requests
    ensures |t.notes| <= |s.notes|
    ensures response != Okay ==> t.notes == s.notes
  {
    var sent := s.requests + [DeleteNote(id)];
    match response
    case Okay =>
      s.(notes := Without(s.notes, id, NoteId), requests := sent + [PostLog(NoteDeleted(id))])
    case NotOk => s.(requests := sent)
    case Threw => s.(error := DeleteNoteThrew, requests := sent)
  }

  /** The state after `generateSuggestions`. */
  function AfterGenerateSuggestions(s: State, response: SuggestResponse): (t: State)
    ensures t.(suggestions := s.suggestions, error := s.error, requests := s.requests) == s
    ensures s.video.None? ==> t == s
    ensures s.video.Some? ==>
              s.requests + [RequestTitles(s.video.value.title, s.video.value.description)] <= t.requests
    ensures !response.SuggestOk? ==> t.suggestions == s.suggestions
  {
    if s.video.None? then s
    else
      var sent := s.requests + [RequestTitles(s.video.value.title, s.video.value.description)];
      match response
      case SuggestOk(list) =>
        s.(suggestions := list, requests := sent + [PostLog(SuggestionsGenerated(|list|))])
      case SuggestNotOk(message) => s.(error := OrElse(message, SuggestFailed), requests := sent)
      case SuggestThrew => s.(error := SuggestThrewMessage, requests := sent)
  }

  /** The state after `applySuggestion(suggestion)`. */
  function AfterApplySuggestion(s: State, suggestion: string): (t: State)
    ensures t.(editTitle := s.editTitle, requests := s.requests) == s
    ensures t.editTitle == suggestion
    ensures t.requests == s.requests + [PostLog(SuggestionSelected(suggestion))]
  {
    AfterLogEvent(s.(editTitle := suggestion), SuggestionSelected(suggestion))
  }

  /** A successful update replaces the video's title and description with
      the edited ones and keeps every other field of the video; the event
      carries the title the video had before. */
  lemma UpdateReplacesTitleAndDescription(s: State)
    requires s.video.Some?
    ensures var t := AfterUpdateVideo(s, Okay);
            && t.video.Some?
            && t.video.value.title == s.editTitle && t.video.value.description == s.editDescription
            && t.video.value.(title := s.video.value.title, description := s.video.value.description) == s.video.value
            && !t.isEditingVideo
            && Events(t.requests) == Events(s.requests) + [VideoUpdated(s.video.value.title, s.editTitle)]
  {
    AppendLogged(s.requests, [PatchVideo(s.editTitle, s.editDescription)],
                 VideoUpdated(s.video.value.title, s.editTitle));
  }

  /** A failed or rejected update sets `error`, logs nothing and leaves the
      video, the edit form and everything else as they were. */
  lemma UpdateFailureLogsNothing(s: State, response: Response)
    requires s.video.Some? && response != Okay
    ensures var t := AfterUpdateVideo(s, response);
            && t.video == s.video && t.isEditingVideo == s.isEditingVideo
            && t.error == (if response == NotOk then UpdateFailed else UpdateThrew)
            && Events(t.requests) == Events(s.requests)
  {
    AppendPlain(s.requests, [PatchVideo(s.editTitle, s.editDescription)]);
  }

  /** A comment or note whose text is blank after trimming is dropped: no
      request, no event, no change of state. */
  lemma BlankInputIgnored(s: State, response: Response)
    ensures Blank(s.newComment) ==> AfterAddComment(s, response) == s
    ensures Blank(s.noteContent) ==> AfterAddNote(s, response) == s
    ensures !Blank(s.newComment) ==> |AfterAddComment(s, response).requests| > |s.requests|
    ensures !Blank(s.noteContent) ==> |AfterAddNote(s, response).requests| > |s.requests|
  {
    TrimEmptyIffBlank(s.newComment);
    TrimEmptyIffBlank(s.noteContent);
  }

  /** Adding a comment logs `comment_added` with the text sent exactly when
      the post succeeds; otherwise it sets `error` and logs nothing. */
  lemma AddCommentEvents(s: State, response: Response)
    requires !Blank(s.newComment)
    ensures var t := AfterAddComment(s, response);
            && t.requests[|s.requests|] == PostComment(s.newComment)
            && (response == Okay ==> Events(t.requests) == Events(s.requests) + [CommentAdded(s.newComment)])
            && (response == Okay ==> t.newComment == "" && t.error == s.error)
            && (response != Okay ==> Events(t.requests) == Events(s.requests) && t.newComment == s.newComment)
            && (response == NotOk ==> t.error == AddCommentFailed)
            && (response == Threw ==> t.error == AddCommentThrew)
  {
    assert AfterAddComment(s, response) == CommentSent(s, response) by {
      TrimEmptyIffBlank(s.newComment);
    }
    CommentSentEvents(s, response);
  }

  lemma CommentSentEvents(s: State, response: Response)
    ensures var t := CommentSent(s, response);
            && t.requests[|s.requests|] == PostComment(s.newComment)
            && (response == Okay ==> Events(t.requests) == Events(s.requests) + [CommentAdded(s.newComment)])
            && (response != Okay ==> Events(t.requests) == Events(s.requests))
  {
    var sent := s.requests + [PostComment(s.newComment)];
    if response == Okay {
      assert sent + [ListComments, PostLog(CommentAdded(s.newComment))]
          == s.requests + [PostComment(s.newComment), ListComments] + [PostLog(CommentAdded(s.newComment))];
      AppendLogged(s.requests, [PostComment(s.newComment), ListComments], CommentAdded(s.newComment));
    } else {
      AppendPlain(s.requests, [PostComment(s.newComment)]);
    }
  }

  /** Adding a note logs `note_created` with the tags sent exactly when the
      post succeeds, and then clears both inputs; a response that is not ok
      keeps the inputs, and only a rejection sets `error`. */
  lemma AddNoteEvents(s: State, response: Response)
    requires !Blank(s.noteContent)
    ensures var t := AfterAddNote(s, response);
            && t.requests[|s.requests|] == PostNote(s.noteContent, s.noteTags)
            && (response == Okay ==> Events(t.requests) == Events(s.requests) + [NoteCreated(s.noteTags)])
            && (response == Okay ==> t.noteContent == "" && t.noteTags == "")
            && (response != Okay ==> Events(t.requests) == Events(s.requests))
            && (response != Okay ==> t.noteContent == s.noteContent && t.noteTags == s.noteTags)
            && (response == NotOk ==> t.error == s.error)
            && (response == Threw ==> t.error == AddNoteThrew)
  {
    assert AfterAddNote(s, response) == NoteSent(s, response) by {
      TrimEmptyIffBlank(s.noteContent);
    }
    NoteSentEvents(s, response);
  }

  lemma NoteSentEvents(s: State, response: Response)
    ensures var t := NoteSent(s, response);
            && t.requests[|s.requests|] == PostNote(s.noteContent, s.noteTags)
            && (response == Okay ==> Events(t.requests) == Events(s.requests) + [NoteCreated(s.noteTags)])
            && (response != Okay ==> Events(t.requests) == Events(s.requests))
  {
    var sent := s.requests + [PostNote(s.noteContent, s.noteTags)];
    if response == Okay {
      assert sent + [ListNotes, PostLog(NoteCreated(s.noteTags))]
          == s.requests + [PostNote(s.noteContent, s.noteTags), ListNotes] + [PostLog(NoteCreated(s.noteTags))];
      AppendLogged(s.requests, [PostNote(s.noteContent, s.noteTags), ListNotes], NoteCreated(s.noteTags));
    } else {
      AppendPlain(s.requests, [PostNote(s.noteContent, s.noteTags)]);
    }
  }

  /** A successful comment delete removes exactly the comments with that id
      (every other comment stays, as often as it was there) and logs
      `comment_deleted`; otherwise the list is kept and nothing is logged. */
  lemma DeleteCommentRemovesExactly(s: State, id: string, response: Response)
    ensures var t := AfterDeleteComment(s, id, response);
            && (response == Okay ==>
                  && (forall c :: multiset(t.comments)[c] == if c.id == id then 0 else multiset(s.comments)[c])
                  && t.comments == Without(s.comments, id, CommentId)
                  && Events(t.requests) == Events(s.requests) + [CommentDeleted(id)])
            && (response != Okay ==> t.comments == s.comments && Events(t.requests) == Events(s.requests))
            && t.error == (if response == Threw then DeleteCommentThrew else s.error)
  {
    WithoutCounts(s.comments, id, CommentId);
    if response == Okay {
      AppendLogged(s.requests, [DeleteComment(id)], CommentDeleted(id));
    } else {
      AppendPlain(s.requests, [DeleteComment(id)]);
    }
  }

  /** A successful note delete removes exactly the notes with that id and
      logs `note_deleted`; otherwise the list is kept and nothing is logged. */
  lemma DeleteNoteRemovesExactly(s: State, id: string, response: Response)
    ensures var t := AfterDeleteNote(s, id, response);
            && (response == Okay ==>
                  && (forall n :: multiset(t.notes)[n] == if n.id == id then 0 else multiset(s.notes)[n])
                  && t.notes == Without(s.notes, id, NoteId)
                  && Events(t.requests) == Events(s.requests) + [NoteDeleted(id)])
            && (response != Okay ==> t.notes == s.notes && Events(t.requests) == Events(s.requests))
            && t.error == (if response == Threw then DeleteNoteThrew else s.error)
  {
    WithoutCounts(s.notes, id, NoteId);
    if response == Okay {
      AppendLogged(s.requests, [DeleteNote(id)], NoteDeleted(id));
    } else {
      AppendPlain(s.requests, [DeleteNote(id)]);
    }
  }

  /** Without a loaded video nothing happens; with one, the suggestions are
      replaced and their count logged exactly on success, and a failure's
      message (or the default text) lands in `error`. */
  lemma GenerateSuggestionsEvents(s: State, response: SuggestResponse)
    ensures s.video.None? ==> AfterGenerateSuggestions(s, response) == s
    ensures var t := AfterGenerateSuggestions(s, response);
            s.video.Some? ==>
              && (response.SuggestOk? ==> t.suggestions == response.suggestions)
              && (response.SuggestOk? ==>
                    Events(t.requests) == Events(s.requests) + [SuggestionsGenerated(|response.suggestions|)])
              && (!response.SuggestOk? ==> t.suggestions == s.suggestions && Events(t.requests) == Events(s.requests))
              && (response.SuggestOk? ==> t.error == s.error)
              && (response.SuggestNotOk? ==> t.error == OrElse(response.error, SuggestFailed))
              && (response.SuggestThrew? ==> t.error == SuggestThrewMessage)
  {
    if s.video.Some? {
      var request := RequestTitles(s.video.value.title, s.video.value.description);
      match response
      case SuggestOk(list) =>
        AppendLogged(s.requests, [request], SuggestionsGenerated(|list|));
      case _ =>
        AppendPlain(s.requests, [request]);
    }
  }

  /** Applying a suggestion only fills in the title field and logs
      `ai_suggestion_selected`: no update request is issued and the video is
      unchanged. */
  lemma ApplySuggestionOnlyLogs(s: State, suggestion: string)
    ensures var t := AfterApplySuggestion(s, suggestion);
            && t.editTitle == suggestion && t.video == s.video
            && t.requests == s.requests + [PostLog(SuggestionSelected(suggestion))]
            && Events(t.requests) == Events(s.requests) + [SuggestionSelected(suggestion)]
  {
    EventsAppend(s.requests, [PostLog(SuggestionSelected(suggestion))]);
  }

  /** Logging sends one audit event and changes nothing else; in particular
      it never sets `error`, whatever happens to the request. */
  lemma LogEventKeepsError(s: State, event: AuditEvent)
    ensures AfterLogEvent(s, event).error == s.error
    ensures AfterLogEvent(s, event).(requests := s.requests) == s
    ensures Events(AfterLogEvent(s, event).requests) == Events(s.requests) + [event]
  {
    EventsAppend(s.requests, [PostLog(event)]);
  }

  /** The `Home` component: its state hooks as fields, its handlers as
      methods. `requests` is every request it has issued, oldest first. */
  class Home {
    var video: Option<VideoRoute.VideoInfo>
    var error: string
    var editTitle: string
    var editDescription: string
    var isEditingVideo: bool
    var comments: seq<CommentsRoute.Comment>
    var newComment: string
    var notes: seq<ClientNote>
    var noteContent: string
    var noteTags: string
    var suggestions: seq<string>
    var requests: seq<ApiRequest>

    function View(): State
      reads this
    {
      State(video, error, editTitle, editDescription, isEditingVideo, comments, newComment,
            notes, noteContent, noteTags, suggestions, requests)
    }

    /** Every audit event the page has sent names one of its actions. */
    ghost predicate Valid()
      reads this
    {
      KnownEvents(requests)
    }

    /** The initial state of the hooks. */
    constructor ()
      ensures Valid()
      ensures View() == State(None, "", "", "", false, [], "", [], "", "", [], [])
    {
      video := None;
      error := "";
      editTitle := "";
      editDescription := "";
      isEditingVideo := false;
      comments := [];
      newComment := "";
      notes := [];
      noteContent := "";
      noteTags := "";
      suggestions := [];
      requests := [];
    }

    /** `logEvent(action, metadata)`: sends the event and nothing else; a
        failure is swallowed, so it never touches `error`. */
    method LogEvent(action: string, metadata: Json)
      modifies this
      ensures View() == old(AfterLogEvent(View(), AuditEvent(action, metadata)))
      ensures Valid() <==> old(Valid()) && action in Actions
    {
      var event := AuditEvent(action, metadata);
      EventsAppend(requests, [PostLog(event)]);
      assert Events([PostLog(event)]) == [event];
      requests := requests + [PostLog(event)];
    }

    /** Sends requests that are not audit events. */
    method Issue(more: seq<ApiRequest>)
      requires forall k :: 0 <= k < |more| ==> !more[k].PostLog?
      modifies this
      ensures View() == old(View()).(requests := old(requests) + more)
      ensures Valid() == old(Valid())
    {
      NoEvents(more);
      EventsAppend(requests, more);
      requests := requests + more;
    }

    /** `handleUpdateVideo`. */
    method HandleUpdateVideo(response: Response)
      requires video.Some? && Valid()
      modifies this
      ensures Valid()
      ensures View() == old(AfterUpdateVideo(View(), response))
    {
      Issue([PatchVideo(editTitle, editDescription)]);
      match response
      case Okay =>
        var previous := video.value;
        video := Some(previous.(title := editTitle, description := editDescription));
        isEditingVideo := false;
        var event := VideoUpdated(previous.title, editTitle);
        LogEvent(event.action, event.metadata);
      case NotOk =>
        error := UpdateFailed;
      case Threw =>
        error := UpdateThrew;
    }

    /** `handleAddComment`: the blank check, then the post. */
    method HandleAddComment(response: Response)
      requires Valid()
      modifies this
      ensures Valid()
      ensures View() == old(AfterAddComment(View(), response))
    {
      if Trim(newComment) == "" {
        return;
      }
      SendComment(response);
    }

    method SendComment(response: Response)
      requires Valid()
      modifies this
      ensures Valid()
      ensures View() == old(CommentSent(View(), response))
    {
      var text := newComment;
      Issue([PostComment(text)]);
      match response
      case Okay =>
        newComment := "";
        Issue([ListComments]);
        var event := CommentAdded(text);
        LogEvent(event.action, event.metadata);
      case NotOk =>
        error := AddCommentFailed;
      case Threw =>
        error := AddCommentThrew;
    }

    /** `handleDeleteComment(id)`. */
    method HandleDeleteComment(id: string, response: Response)
      requires Valid()
      modifies this
      ensures Valid()
      ensures View() == old(AfterDeleteComment(View(), id, response))
    {
      Issue([DeleteComment(id)]);
      match response
      case Okay =>
        comments := Without(comments, id, CommentId);
        var event := CommentDeleted(id);
        LogEvent(event.action, event.metadata);
      case NotOk =>
      case Threw =>
        error := DeleteCommentThrew;
    }

    /** `handleAddNote`: the blank check, then the post. */
    method HandleAddNote(response: Response)
      requires Valid()
      modifies this
      ensures Valid()
      ensures View() == old(AfterAddNote(View(), response))
    {
      if Trim(noteContent) == "" {
        return;
      }
      SendNote(response);
    }

    method SendNote(response: Response)
      requires Valid()
      modifies this
      ensures Valid()
      ensures View() == old(NoteSent(View(), response))
    {
      var tags := noteTags;
      Issue([PostNote(noteContent, tags)]);
      match response
      case Okay =>
        noteContent := "";
        noteTags := "";
        Issue([ListNotes]);
        var event := NoteCreated(tags);
        LogEvent(event.action, event.metadata);
      case NotOk =>
      case Threw =>
        error := AddNoteThrew;
    }

    /** `handleDeleteNote(id)`. */
    method HandleDeleteNote(id: string, response: Response)
      requires Valid()
      modifies this
      ensures Valid()
      ensures View() == old(AfterDeleteNote(View(), id, response))
    {
      Issue([DeleteNote(id)]);
      match response
      case Okay =>
        notes := Without(notes, id, NoteId);
        var event := NoteDeleted(id);
        LogEvent(event.action, event.metadata);
      case NotOk =>
      case Threw =>
        error := DeleteNoteThrew;
    }

    /** `generateSuggestions`. */
    method GenerateSuggestions(response: SuggestResponse)
      requires Valid()
      modifies this
      ensures Valid()
      ensures View() == old(AfterGenerateSuggestions(View(), response))
    {
      if video.None? {
        return;
      }
      Issue([RequestTitles(video.value.title, video.value.description)]);
      match response
      case SuggestOk(list) =>
        suggestions := list;
        var event := SuggestionsGenerated(|list|);
        LogEvent(event.action, event.metadata);
      case SuggestNotOk(message) =>
        error := OrElse(message, SuggestFailed);
      case SuggestThrew =>
        error := SuggestThrewMessage;
    }

    /** `applySuggestion(suggestion)`. */
    method ApplySuggestion(suggestion: string)
      requires Valid()
      modifies this
      ensures Valid()
      ensures View() == old(AfterApplySuggestion(View(), suggestion))
    {
      editTitle := suggestion;
      var event := SuggestionSelected(suggestion);
      LogEvent(event.action, event.metadata);
    }
  }
}
