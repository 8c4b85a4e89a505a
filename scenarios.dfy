/**
 * End-to-end request sequences against a fresh store, for the two deployments: what a client sees
 * across create, completion, fetch and chat.
 */
module Scenarios {
  import opened Common
  import opened Strings
  import opened Archive
  import opened Persona
  import opened Records
  import opened Api
  import Server
  import Lambda

  const Header: seq<string> := ["timestamp", "original", "statuscode", "mimetype"]

  /**
   * A URL parser that throws on every input. Scenarios that pass it say nothing about the domain, or
   * use a URL without `://`, where the parser is not consulted.
   */
  function NoParser(u: string): Option<string>
  {
    None
  }

  /**
   * An index answer with one capture from the 2000s: the create answers `summoning` with that capture
   * and its archive address, and a chat that mentions music gets the music reply, themed 2000s.
   */
  method SeanceOverOneCapture(url: string, row: seq<string>, now: nat, createdAt: int, message: string, draw: nat)
    returns (created: Response<CreateBody>, reply: Response<ChatBody>)
    requires url != "" && |row| == 4 && StartsWithFourDigits(row[0])
    requires 2000 <= LeadingYear(row[0]) < 2010
    requires Contains(ToLower(message), "music") && draw < 5
    ensures created.Ok? && created.body.status == Summoning && |created.body.snapshots| == 1
    ensures created.body.snapshots[0].timestamp == Some(row[0])
    ensures created.body.snapshots[0].snapshotUrl == SnapshotBase + "/" + row[0] + "/" + row[1]
    ensures reply.Ok? && reply.body.personality.era == Noughties && reply.body.personality.tone == Nostalgic
    ensures reply.body.ghostReply == Server.GroupReply(0, reply.body.personality)
  {
    var store := new ResurrectionStore();
    var table := [Header, row];
    created := Server.Resurrect(store, Some(url), now, Rows(table), createdAt, NoParser);
    var id := ResurrectionId(now);
    PersonaOfDatedCapture(url, row[0], NoParser);
    Server.MusicComesFirst(store.records[id], message, draw);
    reply := Server.Chat(store, id, message, draw);
  }

  /** The index row ["2007id_", "myspace.com", "200", "text/html"] dates from 2007. */
  lemma MyspaceCaptureIs2007()
    ensures StartsWithFourDigits("2007id_") && LeadingYear("2007id_") == 2007
  {
  }

  /** "I miss the music" mentions music (and miss, whose group comes later). */
  lemma MissTheMusicMentionsMusic()
    ensures Contains(ToLower("I miss the music"), "music")
  {
    var lower := ToLower("I miss the music");
    assert lower[11..16] == "music";
    assert OccursAt(lower, "music", 11);
    ContainsIffOccurs(lower, "music");
  }

  /** The myspace.com séance: a 2007 capture, then "I miss the music". */
  method MyspaceSeance(now: nat, createdAt: int, draw: nat)
    returns (created: Response<CreateBody>, reply: Response<ChatBody>)
    requires draw < 5
    ensures created.Ok? && created.body.status == Summoning && |created.body.snapshots| == 1
    ensures created.body.snapshots[0].timestamp == Some("2007id_")
    ensures reply.Ok? && reply.body.personality.era == Noughties
    ensures reply.body.ghostReply == Server.GroupReply(0, reply.body.personality)
  {
    MyspaceCaptureIs2007();
    MissTheMusicMentionsMusic();
    var row := ["2007id_", "myspace.com", "200", "text/html"];
    created, reply := SeanceOverOneCapture("myspace.com", row, now, createdAt, "I miss the music", draw);
  }

  /** No url: 400, nothing stored, so no id can be fetched afterwards. */
  method SummonWithoutUrl(url: Option<string>, now: nat, cdx: CdxReply, createdAt: int, probe: string)
    returns (created: Response<CreateBody>, fetched: Response<Record>)
    requires url.None? || url == Some("")
    ensures created == Error(400, NeedUrl, None)
    ensures fetched == Error(404, Faded, None)
  {
    var store := new ResurrectionStore();
    created := Server.Resurrect(store, url, now, cdx, createdAt, NoParser);
    fetched := FetchResurrection(store, probe);
  }

  /** An index answer with only its header: 404, nothing stored, the list stays empty. */
  method SummonUnarchived(url: string, now: nat, createdAt: int, probe: string)
    returns (created: Response<CreateBody>, fetched: Response<Record>, listed: ListBody)
    requires url != ""
    ensures created == Error(404, NoSnapshots, None)
    ensures fetched == Error(404, Faded, None)
    ensures listed.resurrections == []
  {
    var store := new ResurrectionStore();
    created := Lambda.Resurrect(store, Some(url), now, Rows([Header]), createdAt, NoParser);
    fetched := FetchResurrection(store, probe);
    listed := ListResurrections(store);
  }

  /**
   * Server deployment: the create answers `summoning` with an id; after the completion step, fetching
   * that id gives a complete record whose selected capture is its first, and the event carried it.
   */
  method SummonThenComplete(url: string, now: nat, table: seq<seq<string>>, createdAt: int,
                            parseHost: string -> Option<string>)
    returns (created: Response<CreateBody>, fetched: Response<Record>, event: Option<Server.Event>)
    requires url != "" && |table| >= 2 && |table[1]| >= 1
    ensures created.Ok? && created.body.status == Summoning
    ensures fetched.Ok? && fetched.body.id == created.body.resurrectionId && fetched.body.status == Complete
    ensures fetched.body.snapshots != [] && fetched.body.selectedSnapshot == fetched.body.snapshots[0]
    ensures fetched.body.snapshots == Normalize(table, Wrapped)
    ensures event == Some(Server.ResurrectionComplete(fetched.body))
  {
    var store := new ResurrectionStore();
    created := Server.Resurrect(store, Some(url), now, Rows(table), createdAt, parseHost);
    event := Server.CompleteSummoning(store, created.body.resurrectionId);
    fetched := FetchResurrection(store, created.body.resurrectionId);
  }

  /**
   * Two creates at different milliseconds give two ids, two records, and two completion events, each
   * carrying its own create's record, completed, with that create's snapshots.
   */
  method TwoSummons(url1: string, url2: string, now1: nat, now2: nat, table1: seq<seq<string>>,
                    table2: seq<seq<string>>, createdAt1: int, createdAt2: int)
    returns (event1: Option<Server.Event>, event2: Option<Server.Event>, listed: ListBody)
    requires now1 != now2 && url1 != "" && url2 != ""
    requires |table1| >= 2 && |table1[1]| >= 1 && |table2| >= 2 && |table2[1]| >= 1
    ensures event1.Some? && event1.value.data.id == ResurrectionId(now1) && event1.value.data.url == url1
    ensures event2.Some? && event2.value.data.id == ResurrectionId(now2) && event2.value.data.url == url2
    ensures event1.value.data.status == Complete && event1.value.data.snapshots == Normalize(table1, Wrapped)
    ensures event2.value.data.status == Complete && event2.value.data.snapshots == Normalize(table2, Wrapped)
    ensures event1.value.data.id != event2.value.data.id
    ensures |listed.resurrections| == 2
  {
    var store := new ResurrectionStore();
    DistinctInstantsDistinctIds(now1, now2);
    var c1 := Server.Resurrect(store, Some(url1), now1, Rows(table1), createdAt1, NoParser);
    var c2 := Server.Resurrect(store, Some(url2), now2, Rows(table2), createdAt2, NoParser);
    event1 := Server.CompleteSummoning(store, ResurrectionId(now1));
    event2 := Server.CompleteSummoning(store, ResurrectionId(now2));
    listed := ListResurrections(store);
    SortPermutes(store.Values());
    assert |multiset(listed.resurrections)| == |multiset(store.Values())|;
  }

  /** Serverless deployment: a create is complete at once, and a fetch returns exactly the stored record. */
  method LambdaSummon(url: string, now: nat, table: seq<seq<string>>, createdAt: int,
                      parseHost: string -> Option<string>)
    returns (created: Response<CreateBody>, fetched: Response<Record>)
    requires url != "" && |table| >= 2 && |table[1]| >= 1
    ensures created.Ok? && created.body.status == Complete && created.body.resurrectionId == ResurrectionId(now)
    ensures |created.body.snapshots| == Min(5, |table| - 1)
    ensures fetched.Ok? && fetched.body.status == Complete && fetched.body.url == url
    ensures fetched.body.snapshots == Normalize(table, Identity)
    ensures fetched.body.selectedSnapshot == fetched.body.snapshots[0]
  {
    var store := new ResurrectionStore();
    created := Lambda.Resurrect(store, Some(url), now, Rows(table), createdAt, parseHost);
    fetched := FetchResurrection(store, ResurrectionId(now));
  }
}
