/** The audit-log route (`GET`/`POST /api/logs`) over an append-only
    in-memory log. Listing returns the 100 most recent records, newest
    first; appending always records the status "success". */
module Logs {
  import opened Common
  import opened Ordering
  import opened Models

  /** `.limit(100)` of the listing. */
  const ListLimit: nat := 100
  const FetchFailed: string := "Failed to fetch logs"
  const CreateFailed: string := "Failed to create log"

  /** The request body of `POST /api/logs`. A `status` sent by the client is
      carried here only to show that the route ignores it. */
  datatype LogBody = LogBody(action: Option<string>, metadata: Option<Json>, status: Option<string>)

  function Timestamp(e: EventLog): int
  {
    e.timestamp
  }

  /** `body.metadata || {}`. */
  function MetadataOrEmpty(metadata: Option<Json>): (m: Json)
    ensures Truthy(m)
    ensures metadata.Some? && Truthy(metadata.value) ==> m == metadata.value
    ensures metadata.None? || !Truthy(metadata.value) ==> m == EmptyObject
  {
    if metadata.Some? && Truthy(metadata.value) then metadata.value else EmptyObject
  }

  /** The document `EventLog.create` builds from a request body at time
      `now`: status "success" whatever the body says, metadata defaulted,
      timestamp `now`; a missing or empty action fails validation. */
  function RecordFor(id: nat, now: nat, body: LogBody): (r: Created<EventLog>)
    ensures r.Created? <==> Present(body.action)
    ensures r.Created? ==> WellFormedEventLog(r.doc) && r.doc.status == DefaultStatus
    ensures r.Created? ==> r.doc.action == body.action.value && r.doc.metadata == Some(MetadataOrEmpty(body.metadata))
    ensures r.Created? ==> r.doc.id == id && r.doc.timestamp == now
  {
    CreateEventLog(id, now, body.action, Some(MetadataOrEmpty(body.metadata)), None, Some(DefaultStatus))
  }

  /** `EventLog.find().sort({ timestamp: -1 }).limit(limit)`. */
  function Recent(records: seq<EventLog>, limit: nat): (r: seq<EventLog>)
    ensures |r| <= limit && |r| <= |records|
    ensures SortedDesc(r, Timestamp)
    ensures r <= SortDesc(records, Timestamp)
    ensures |r| == Min(limit, |records|)
  {
    Take(SortDesc(records, Timestamp), limit)
  }

  /** No record left out of the listing is newer than a record in it. */
  lemma RecentAreNewest(records: seq<EventLog>, limit: nat)
    ensures forall x, y :: x in Recent(records, limit) && y in records && y !in Recent(records, limit)
              ==> y.timestamp <= x.timestamp
  {
    forall x, y | x in Recent(records, limit) && y in records && y !in Recent(records, limit)
      ensures y.timestamp <= x.timestamp
    {
      ListedNotOlder(records, limit, x, y);
    }
  }

  /** One pair of the above: a listed record and one left out. */
  lemma ListedNotOlder(records: seq<EventLog>, limit: nat, x: EventLog, y: EventLog)
    requires x in Recent(records, limit) && y in records && y !in Recent(records, limit)
    ensures y.timestamp <= x.timestamp
  {
    var sorted := SortDesc(records, Timestamp);
    var r := Recent(records, limit);
    assert multiset(sorted)[y] == multiset(records)[y] > 0;
    var k :| 0 <= k < |sorted| && sorted[k] == y;
    var i :| 0 <= i < |r| && r[i] == x;
    assert sorted[i] == x;
    // `y` is not in the listing, a prefix of the sorted log, so it lies past its end
    PrefixMember(r, sorted, k);
  }

  /** An entry of a sequence within the length of a prefix is in the prefix. */
  lemma PrefixMember(r: seq<EventLog>, sorted: seq<EventLog>, k: nat)
    requires r <= sorted && k < |sorted|
    ensures k < |r| ==> sorted[k] in r
  {
    if k < |r| {
      assert r[k] == sorted[k];
    }
  }

  /** In a log held in insertion order, the listing is the last `limit`
      records, newest first. */
  lemma RecentOfAscending(records: seq<EventLog>, limit: nat)
    requires StrictlyAscending(records, Timestamp)
    ensures Recent(records, limit) == Take(Reverse(records), limit)
  {
    SortDescOfAscending(records, Timestamp);
  }

  /** The record appended last heads the listing: an append is observable
      as the listing's first entry. */
  lemma LastAppendedListedFirst(records: seq<EventLog>, limit: nat)
    requires StrictlyAscending(records, Timestamp)
    requires records != [] && limit > 0
    ensures Recent(records, limit)[0] == records[|records| - 1]
  {
    RecentOfAscending(records, limit);
  }

  /** The append-only store behind the route. */
  class AuditLog {
    var records: seq<EventLog>
    var clock: nat

    /** Records are held in insertion order with distinct timestamps below
        the clock, and every one of them is a well-formed "success" record. */
    ghost predicate Valid()
      reads this
    {
      && StrictlyAscending(records, Timestamp)
      && forall i :: 0 <= i < |records| ==>
           && records[i].timestamp < clock
           && records[i].id == records[i].timestamp
           && WellFormedEventLog(records[i])
           && records[i].status == DefaultStatus
    }

    constructor ()
      ensures Valid() && records == []
    {
      records := [];
      clock := 0;
    }

    /** `GET /api/logs`; `connected` is whether the store could be reached. */
    function Get(connected: bool): (r: Reply<seq<EventLog>>)
      reads this
      ensures !connected ==> r == Err(500, FetchFailed)
      ensures connected ==> r.Ok? && r.status == 200 && |r.value| <= ListLimit
      ensures connected ==> SortedDesc(r.value, Timestamp) && r.value <= SortDesc(records, Timestamp)
      ensures connected ==> r.value == Recent(records, ListLimit)
    {
      if !connected then Err(500, FetchFailed) else Ok(200, Recent(records, ListLimit))
    }

    /** `POST /api/logs`: appends exactly one record and leaves the earlier
        ones as they were; a failure appends nothing. */
    method Post(connected: bool, body: LogBody) returns (r: Reply<EventLog>)
      requires Valid()
      modifies this
      ensures Valid()
      ensures r.Ok? <==> connected && Present(body.action)
      ensures r.Ok? ==> r.status == 201 && records == old(records) + [r.value]
      ensures r.Ok? ==> RecordFor(old(clock), old(clock), body) == Created(r.value)
      ensures r.Ok? ==> clock == old(clock) + 1
      ensures r.Err? ==> r == Err(500, CreateFailed) && records == old(records) && clock == old(clock)
    {
      if !connected {
        return Err(500, CreateFailed);
      }
      match RecordFor(clock, clock, body)
      case ValidationFailed =>
        r := Err(500, CreateFailed);
      case Created(record) =>
        records := records + [record];
        clock := clock + 1;
        r := Ok(201, record);
    }
  }
}
