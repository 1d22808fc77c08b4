/** The notes route (`GET`/`POST /api/notes`) over an in-memory note
    store. Search is case-insensitive literal substring matching on the
    content or the tags, newest first; creation fills in defaults. */
module Notes {
  import opened Common
  import opened Text
  import opened Ordering
  import opened Models

  /** `videoId` of a new note when YOUTUBE_VIDEO_ID is unset or empty. */
  const DefaultVideoId: string := "default"
  const FetchFailed: string := "Failed to fetch notes"
  const CreateFailed: string := "Failed to create note"

  /** The request body of `POST /api/notes`; fields the route does not read
      (such as a client-supplied `videoId`) are not part of it. */
  datatype NoteBody = NoteBody(content: Option<string>, tags: Option<string>)

  function CreatedAt(n: Note): int
  {
    n.createdAt
  }

  /** `searchParams.get('q') || ''`. */
  function QueryOf(q: Option<string>): (r: string)
    ensures r == "" <==> !Present(q)
    ensures Present(q) ==> r == q.value
  {
    OrElse(q, "")
  }

  /** The `$or` of the two case-insensitive `$regex` conditions. */
  predicate Matches(n: Note, q: string)
    ensures q == "" ==> Matches(n, q)
    ensures Matches(n, q) ==> |q| <= |n.content| || |q| <= |n.tags|
  {
    assert Lower(q) == "" ==> StartsWith(Lower(n.content), Lower(q));
    IncludesShorter(Lower(n.content), Lower(q));
    IncludesShorter(Lower(n.tags), Lower(q));
    IncludesIgnoringCase(n.content, q) || IncludesIgnoringCase(n.tags, q)
  }

  /** The notes that match `q`, in store order. */
  function Filter(notes: seq<Note>, q: string): (r: seq<Note>)
    ensures |r| <= |notes|
    ensures forall k :: 0 <= k < |r| ==> r[k] in notes
    ensures forall n :: multiset(r)[n] == if Matches(n, q) then multiset(notes)[n] else 0
  {
    if notes == [] then []
    else
      assert notes == [notes[0]] + notes[1..];
      var rest := Filter(notes[1..], q);
      if Matches(notes[0], q) then [notes[0]] + rest else rest
  }

  /** `Note.find(query).sort({ createdAt: -1 })`: with an empty query every
      note, otherwise the matching ones, newest first. */
  function Search(notes: seq<Note>, q: string): (r: seq<Note>)
    ensures SortedDesc(r, CreatedAt)
    ensures q == "" ==> multiset(r) == multiset(notes)
    ensures q != "" ==> forall n :: multiset(r)[n] == if Matches(n, q) then multiset(notes)[n] else 0
    ensures forall n :: n in r <==> n in notes && (q == "" || Matches(n, q))
  {
    var r := if q == "" then SortDesc(notes, CreatedAt) else SortDesc(Filter(notes, q), CreatedAt);
    assert forall n :: n in r <==> multiset(r)[n] > 0;
    assert forall n :: n in notes <==> multiset(notes)[n] > 0;
    r
  }

  /** Filtering keeps the store's creation order. */
  lemma {:induction false} FilterAscending(notes: seq<Note>, q: string)
    requires StrictlyAscending(notes, CreatedAt)
    ensures StrictlyAscending(Filter(notes, q), CreatedAt)
  {
    if notes != [] {
      var tail := notes[1..];
      AscendingTail(notes, CreatedAt);
      FilterAscending(tail, q);
      var rest := Filter(tail, q);
      if Matches(notes[0], q) {
        forall k | 0 <= k < |rest| ensures notes[0].createdAt < rest[k].createdAt {
          var j :| 0 <= j < |tail| && tail[j] == rest[k];
          assert tail[j] == notes[j + 1];
        }
        AscendingCons(notes[0], rest, CreatedAt);
      }
    }
  }

  /** In a store that holds notes in creation order, the search result is
      the matching notes in reverse creation order; with an empty query,
      the whole store reversed. */
  lemma NewestFirst(notes: seq<Note>, q: string)
    requires StrictlyAscending(notes, CreatedAt)
    ensures q == "" ==> Search(notes, q) == Reverse(notes)
    ensures q != "" ==> Search(notes, q) == Reverse(Filter(notes, q))
  {
    if q == "" {
      SortDescOfAscending(notes, CreatedAt);
    } else {
      FilterAscending(notes, q);
      SortDescOfAscending(Filter(notes, q), CreatedAt);
    }
  }

  /** The store behind the route: the notes in insertion order and a
      logical clock that stamps `createdAt` and supplies ids. */
  class NoteStore {
    var notes: seq<Note>
    var clock: nat

    ghost predicate Valid()
      reads this
    {
      && StrictlyAscending(notes, CreatedAt)
      && forall i :: 0 <= i < |notes| ==>
           notes[i].createdAt < clock && notes[i].id == notes[i].createdAt && WellFormedNote(notes[i])
    }

    constructor ()
      ensures Valid() && notes == []
    {
      notes := [];
      clock := 0;
    }

    /** `GET /api/notes?q=`; `connected` is whether the store could be
        reached. */
    function Get(connected: bool, q: Option<string>): (r: Reply<seq<Note>>)
      reads this
      ensures !connected ==> r == Err(500, FetchFailed)
      ensures connected ==> r.Ok? && r.status == 200 && SortedDesc(r.value, CreatedAt)
      ensures connected ==> forall n :: n in r.value <==> n in notes && (QueryOf(q) == "" || Matches(n, QueryOf(q)))
      ensures connected && QueryOf(q) == "" ==> multiset(r.value) == multiset(notes)
      ensures connected && QueryOf(q) != "" ==>
                forall n :: multiset(r.value)[n] == if Matches(n, QueryOf(q)) then multiset(notes)[n] else 0
    {
      if !connected then Err(500, FetchFailed) else Ok(200, Search(notes, QueryOf(q)))
    }

    /** `POST /api/notes`: `videoId` is YOUTUBE_VIDEO_ID or "default", `tags`
        is the body's tags or "". Missing or empty content fails
        validation; every failure answers 500 and stores nothing. */
    method Post(connected: bool, env: Env, body: NoteBody) returns (r: Reply<Note>)
      requires Valid()
      modifies this
      ensures Valid()
      ensures r.Ok? <==> connected && Present(body.content)
      ensures r.Ok? ==> r.status == 201 && notes == old(notes) + [r.value]
      ensures r.Ok? ==> r.value.content == body.content.value
      ensures r.Ok? ==> r.value.tags == OrElse(body.tags, DefaultTags)
      ensures r.Ok? ==> r.value.videoId == OrElse(env.youtubeVideoId, DefaultVideoId)
      ensures r.Ok? ==> r.value.createdAt == old(clock) && clock == old(clock) + 1
      ensures r.Err? ==> r == Err(500, CreateFailed) && notes == old(notes) && clock == old(clock)
    {
      if !connected {
        return Err(500, CreateFailed);
      }
      var created := CreateNote(clock, clock, Some(OrElse(env.youtubeVideoId, DefaultVideoId)),
                                body.content, Some(OrElse(body.tags, DefaultTags)));
      match created
      case ValidationFailed =>
        r := Err(500, CreateFailed);
      case Created(note) =>
        notes := notes + [note];
        clock := clock + 1;
        r := Ok(201, note);
    }
  }
}
