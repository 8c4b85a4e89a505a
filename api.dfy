/**
 * The HTTP surface shared by both deployments: response shapes, the themed error messages, the
 * decision part of `POST /api/resurrect`, and the `GET` handlers, whose code is the same in both.
 */
module Api {
  import opened Common
  import opened Strings
  import JsNumber
  import opened Archive
  import Persona
  import opened Records

  const NeedUrl: string := "The spirits require a URL to summon..."
  const NoSnapshots: string := "The spirits are silent. No snapshots found in the archives."
  const Severed: string := "The connection to the past has been severed."
  const Faded: string := "This ghost has faded from memory..."
  /** The message of the TypeError that `undefined.substring(0, 4)` throws. */
  const UndefinedTimestamp: string := "Cannot read properties of undefined (reading 'substring')"

  /** A JSON reply: the body of a 200, or an error status with `{error, details}`. */
  datatype Response<T> = Ok(body: T) | Error(code: nat, error: string, details: Option<string>)

  datatype CreateBody = CreateBody(resurrectionId: string, status: Status, message: string, snapshots: seq<Snapshot>)
  datatype ListBody = ListBody(resurrections: seq<Record>)
  datatype Source = Source(text: string, url: string)
  datatype ChatBody = ChatBody(ghostReply: string, sources: seq<Source>, personality: Persona.Personality)

  /** `ghost_${Date.now()}`. */
  function ResurrectionId(now: nat): string
  {
    "ghost_" + NatToString(now)
  }

  /** Creates at different milliseconds get different ids (creates in the same millisecond collide). */
  lemma DistinctInstantsDistinctIds(a: nat, b: nat)
    requires a != b
    ensures ResurrectionId(a) != ResurrectionId(b)
  {
    if ResurrectionId(a) == ResurrectionId(b) {
      assert ResurrectionId(a)[6..] == NatToString(a);
      assert ResurrectionId(b)[6..] == NatToString(b);
      JsNumber.NatToStringInjective(a, b);
    }
  }

  datatype Failure = Failure(code: nat, error: string, details: Option<string>)

  /** The outcome of a create request before anything is stored. */
  datatype Summoned = Rejected(failure: Failure) | Created(record: Record)

  predicate UrlGiven(url: Option<string>)
  {
    url.Some? && url.value != ""
  }

  /**
   * The checks of `POST /api/resurrect` in their order (the url, the index query, the snapshot count,
   * the persona), and the record it would store.  `status` is the deployment's initial status.
   */
  function Summon(url: Option<string>, id: string, cdx: CdxReply, rendering: Rendering, status: Status,
                  createdAt: int, parseHost: string -> Option<string>): (s: Summoned)
    ensures !UrlGiven(url) ==> s == Rejected(Failure(400, NeedUrl, None))
    ensures UrlGiven(url) && cdx.Failed? ==> s == Rejected(Failure(500, Severed, Some(cdx.reason)))
    ensures UrlGiven(url) && cdx.Rows? && |cdx.table| <= 1 ==> s == Rejected(Failure(404, NoSnapshots, None))
    ensures UrlGiven(url) && cdx.Rows? && |cdx.table| >= 2 && CellAt(cdx.table[1], 0).None?
      ==> s == Rejected(Failure(500, Severed, Some(UndefinedTimestamp)))
    ensures s.Created? <==> UrlGiven(url) && cdx.Rows? && |cdx.table| >= 2 && CellAt(cdx.table[1], 0).Some?
    ensures s.Created? ==>
      && s.record.id == id && s.record.url == url.value && s.record.status == status
      && s.record.createdAt == createdAt
      && s.record.snapshots == Normalize(cdx.table, rendering)
      && WellFormed(s.record)
      && s.record.personality == Persona.Generate(url.value, CellAt(cdx.table[1], 0).value, parseHost)
  {
    if !UrlGiven(url) then Rejected(Failure(400, NeedUrl, None))
    else match cdx
      case Failed(reason) => Rejected(Failure(500, Severed, Some(reason)))
      case Rows(table) =>
        var snapshots := Normalize(table, rendering);
        if |snapshots| == 0 then Rejected(Failure(404, NoSnapshots, None))
        else match snapshots[0].timestamp
          case None => Rejected(Failure(500, Severed, Some(UndefinedTimestamp)))
          case Some(ts) =>
            Created(Record(id, url.value, status, snapshots, snapshots[0], createdAt,
                           Persona.Generate(url.value, ts, parseHost)))
  }

  function FailureResponse<T>(f: Failure): Response<T>
  {
    Error(f.code, f.error, f.details)
  }

  /** `GET /api/resurrect/:id`. */
  method FetchResurrection(store: ResurrectionStore, id: string) returns (resp: Response<Record>)
    ensures id in store.records ==> resp == Ok(store.records[id])
    ensures id !in store.records ==> resp == Error(404, Faded, None)
  {
    var found := store.Get(id);
    if found.Some? {
      resp := Ok(found.value);
    } else {
      resp := Error(404, Faded, None);
    }
  }

  /** `GET /api/resurrections`: every stored record once, newest first, ties in insertion order. */
  method ListResurrections(store: ResurrectionStore) returns (resp: ListBody)
    requires store.Valid()
    ensures resp.resurrections == SortNewestFirst(store.Values())
    ensures NewestFirst(resp.resurrections)
    ensures multiset(resp.resurrections) == multiset(store.Values())
    ensures forall t :: CreatedAt(resp.resurrections, t) == CreatedAt(store.Values(), t)
    ensures forall r :: r in resp.resurrections <==> r in store.records.Values
  {
    var all := store.Values();
    resp := ListBody(SortNewestFirst(all));
    SortIsNewestFirst(all);
    SortPermutes(all);
    forall t ensures CreatedAt(resp.resurrections, t) == CreatedAt(all, t) {
      SortIsStable(all, t);
    }
    forall r ensures r in resp.resurrections <==> r in store.records.Values {
      assert r in resp.resurrections <==> r in multiset(all);
      if r in all {
        var i :| 0 <= i < |all| && all[i] == r;
        assert store.records[store.order[i]] == r;
      }
      if r in store.records.Values {
        var k :| k in store.records && store.records[k] == r;
        var i :| 0 <= i < |store.order| && store.order[i] == k;
        assert all[i] == r;
      }
    }
  }

  /** The chat answer: the reply, the selected capture as its one source, and the persona. */
  function ChatAnswer(r: Record, reply: string): ChatBody
  {
    ChatBody(reply, [Source("Original content from " + CellText(r.selectedSnapshot.timestamp),
                            r.selectedSnapshot.snapshotUrl)], r.personality)
  }
}
