/**
 * The serverless deployment: the same create checks, but snapshot addresses ask for the raw capture
 * (`id_`), a record is stored `complete` at once, and a chat reply is one of three templates drawn at
 * random, whatever the message says.
 */
module Lambda {
  import opened Common
  import opened Strings
  import opened Archive
  import Persona
  import opened Records
  import opened Api

  const ResurrectionDone: string := "Resurrection complete. The site lives again."

  /** Every stored record is complete: nothing in this deployment ever stores another status. */
  ghost predicate AllComplete(store: ResurrectionStore)
    reads store
  {
    forall k :: k in store.records ==> store.records[k].status == Complete
  }

  /** `POST /api/resurrect`: validate, query, store a `complete` record and answer with the first five captures. */
  method Resurrect(store: ResurrectionStore, url: Option<string>, now: nat, cdx: CdxReply, createdAt: int,
                   parseHost: string -> Option<string>) returns (resp: Response<CreateBody>)
    requires store.Valid() && store.Consistent() && AllComplete(store)
    modifies store
    ensures store.Valid() && store.Consistent() && AllComplete(store)
    ensures match Summon(url, ResurrectionId(now), cdx, Identity, Complete, createdAt, parseHost)
      case Rejected(f) =>
        && resp == FailureResponse(f)
        && store.records == old(store.records) && store.order == old(store.order)
      case Created(r) =>
        && resp == Ok(CreateBody(r.id, Complete, ResurrectionDone, FirstFive(r.snapshots)))
        && store.records == old(store.records)[r.id := r]
        && store.order == if r.id in old(store.records) then old(store.order) else old(store.order) + [r.id]
  {
    var id := ResurrectionId(now);
    var outcome := Summon(url, id, cdx, Identity, Complete, createdAt, parseHost);
    match outcome
    case Rejected(f) =>
      resp := FailureResponse(f);
    case Created(r) =>
      store.Put(id, r);
      resp := Ok(CreateBody(id, Complete, ResurrectionDone, FirstFive(r.snapshots)));
  }

  /** Reply template `i` of this deployment. */
  function Template(i: nat, p: Persona.Personality, message: string): string
    requires i < 3
  {
    match i
    case 0 => "From the " + p.era.Name() + ", " + p.domain + " remembers... \"" + message + "\" echoes through time."
    case 1 => "*ghostly whisper* The archives reveal fragments about \"" + message + "\"..."
    case _ => "In " + p.era.Name() + ", " + p.domain + " was alive with such questions..."
  }

  /** `generateGhostResponse`: template number `draw`, which stands for `Math.floor(Math.random() * 3)`. */
  function GhostResponse(r: Record, message: string, draw: nat): string
    requires draw < 3
  {
    Template(draw, r.personality, message)
  }

  /**
   * Whatever the message, the reply is one of the three templates; the first two quote the message,
   * the third does not depend on it at all.
   */
  lemma ReplyIgnoresKeywords(r: Record, message: string, other: string, draw: nat)
    requires draw < 3
    ensures exists i :: 0 <= i < 3 && GhostResponse(r, message, draw) == Template(i, r.personality, message)
    ensures draw < 2 ==> Contains(GhostResponse(r, message, draw), "\"" + message + "\"")
    ensures draw == 2 ==> GhostResponse(r, message, draw) == GhostResponse(r, other, draw)
    ensures |GhostResponse(r, message, draw)| > 0
  {
    var quoted := "\"" + message + "\"";
    var p := r.personality;
    assert GhostResponse(r, message, draw) == Template(draw, p, message);
    if draw == 0 {
      var pre := "From the " + p.era.Name() + ", " + p.domain + " remembers... ";
      assert GhostResponse(r, message, draw) == pre + quoted + " echoes through time.";
      ContainsInfix(pre, quoted, " echoes through time.");
    } else if draw == 1 {
      var pre := "*ghostly whisper* The archives reveal fragments about ";
      assert GhostResponse(r, message, draw) == pre + quoted + "...";
      ContainsInfix(pre, quoted, "...");
    }
  }

  /** `POST /api/chat/:id`. */
  method Chat(store: ResurrectionStore, id: string, message: string, draw: nat) returns (resp: Response<ChatBody>)
    requires draw < 3
    ensures id !in store.records ==> resp == Error(404, Faded, None)
    ensures id in store.records ==>
      resp == Ok(ChatAnswer(store.records[id], GhostResponse(store.records[id], message, draw)))
  {
    var found := store.Get(id);
    match found
    case None =>
      resp := Error(404, Faded, None);
    case Some(r) =>
      resp := Ok(ChatAnswer(r, GhostResponse(r, message, draw)));
  }
}
