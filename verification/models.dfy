/** The two document schemas of the local store: audit records and notes.
    A document is created from the fields a handler supplies; required
    fields are checked and defaults filled in, and the store stamps
    `createdAt`/`updatedAt`. Time is a logical clock (`now`). */
module Models {
  import opened Common

  /** An audit record (`eventLogSchema`). */
  datatype EventLog = EventLog(
    id: nat,
    action: string,
    metadata: Option<Json>,
    timestamp: nat,
    status: string,
    createdAt: nat,
    updatedAt: nat)

  /** A note (`notesSchema`). */
  datatype Note = Note(
    id: nat,
    videoId: string,
    content: string,
    tags: string,
    createdAt: nat,
    updatedAt: nat)

  /** The result of `Model.create(fields)`: the stored document, or a
      validation failure because a required field is missing or empty. */
  datatype Created<+T> = Created(doc: T) | ValidationFailed

  const DefaultStatus: string := "success"
  const DefaultTags: string := ""

  /** The schema's invariants of a stored audit record. */
  predicate WellFormedEventLog(e: EventLog)
  {
    e.action != "" && e.createdAt == e.updatedAt
  }

  /** The schema's invariants of a stored note. */
  predicate WellFormedNote(n: Note)
  {
    n.videoId != "" && n.content != "" && n.createdAt == n.updatedAt
  }

  /** `EventLog.create({ action, metadata, timestamp, status })` at time
      `now`: `action` is required, `timestamp` defaults to `now` and
      `status` to "success". */
  function CreateEventLog(id: nat, now: nat, action: Option<string>, metadata: Option<Json>,
                          timestamp: Option<nat>, status: Option<string>): (r: Created<EventLog>)
    ensures r.Created? <==> Present(action)
    ensures r.Created? ==> WellFormedEventLog(r.doc)
    ensures r.Created? ==> r.doc.id == id && r.doc.action == action.value && r.doc.metadata == metadata
    ensures r.Created? ==> r.doc.createdAt == now
    ensures r.Created? && timestamp.None? ==> r.doc.timestamp == now
    ensures r.Created? && timestamp.Some? ==> r.doc.timestamp == timestamp.value
    ensures r.Created? && status.None? ==> r.doc.status == DefaultStatus
    ensures r.Created? && status.Some? ==> r.doc.status == status.value
  {
    if !Present(action) then ValidationFailed
    else
      var ts := match timestamp case Some(t) => t case None => now;
      var st := match status case Some(s) => s case None => DefaultStatus;
      Created(EventLog(id, action.value, metadata, ts, st, now, now))
  }

  /** `Note.create({ videoId, content, tags })` at time `now`: `videoId`
      and `content` are required, `tags` defaults to the empty string. */
  function CreateNote(id: nat, now: nat, videoId: Option<string>, content: Option<string>,
                      tags: Option<string>): (r: Created<Note>)
    ensures r.Created? <==> Present(videoId) && Present(content)
    ensures r.Created? ==> WellFormedNote(r.doc)
    ensures r.Created? ==> r.doc.id == id && r.doc.createdAt == now
    ensures r.Created? ==> r.doc.videoId == videoId.value && r.doc.content == content.value
    ensures r.Created? && tags.None? ==> r.doc.tags == DefaultTags
    ensures r.Created? && tags.Some? ==> r.doc.tags == tags.value
  {
    if !Present(videoId) || !Present(content) then ValidationFailed
    else
      var t := match tags case Some(t) => t case None => DefaultTags;
      Created(Note(id, videoId.value, content.value, t, now, now))
  }
}
