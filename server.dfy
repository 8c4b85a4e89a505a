/**
 * The long-running server deployment: a created record starts `summoning` and turns `complete` when the
 * delayed completion step runs; that step emits a `resurrection_complete` event carrying the record.
 * Chat replies are chosen by keyword.
 */
module Server {
  import opened Common
  import opened Strings
  import opened Archive
  import Persona
  import opened Records
  import opened Api

  const SeanceBegins: string := "The séance begins..."

  /** The event the completion step broadcasts to every connected client. */
  datatype Event = ResurrectionComplete(data: Record)

  /** `POST /api/resurrect`: validate, query, store a `summoning` record and answer with the first five captures. */
  method Resurrect(store: ResurrectionStore, url: Option<string>, now: nat, cdx: CdxReply, createdAt: int,
                   parseHost: string -> Option<string>) returns (resp: Response<CreateBody>)
    requires store.Valid() && store.Consistent()
    modifies store
    ensures store.Valid() && store.Consistent()
    ensures match Summon(url, ResurrectionId(now), cdx, Wrapped, Summoning, createdAt, parseHost)
      case Rejected(f) =>
        && resp == FailureResponse(f)
        && store.records == old(store.records) && store.order == old(store.order)
      case Created(r) =>
        && resp == Ok(CreateBody(r.id, Summoning, SeanceBegins, FirstFive(r.snapshots)))
        && store.records == old(store.records)[r.id := r]
        && store.order == if r.id in old(store.records) then old(store.order) else old(store.order) + [r.id]
  {
    var id := ResurrectionId(now);
    var outcome := Summon(url, id, cdx, Wrapped, Summoning, createdAt, parseHost);
    match outcome
    case Rejected(f) =>
      resp := FailureResponse(f);
    case Created(r) =>
      store.Put(id, r);
      resp := Ok(CreateBody(id, Summoning, SeanceBegins, FirstFive(r.snapshots)));
  }

  /**
   * The callback `setTimeout` runs three seconds after a create: if the id is still stored, its record
   * turns `complete`, nothing else changes, and the updated record is broadcast; otherwise nothing happens.
   */
  method CompleteSummoning(store: ResurrectionStore, id: string) returns (event: Option<Event>)
    requires store.Valid() && store.Consistent()
    modifies store
    ensures store.Valid() && store.Consistent()
    ensures store.order == old(store.order)
    ensures id in old(store.records) ==>
      && store.records == old(store.records)[id := old(store.records)[id].(status := Complete)]
      && event == Some(ResurrectionComplete(store.records[id]))
    ensures id !in old(store.records) ==> store.records == old(store.records) && event == None
  {
    var found := store.Get(id);
    match found
    case None =>
      event := None;
    case Some(r) =>
      var done := r.(status := Complete);
      store.Put(id, done);
      event := Some(ResurrectionComplete(done));
  }

  /** The keyword groups of the reply selector, in priority order. */
  const KeywordGroups: seq<seq<string>> :=
    [MusicWords, FriendWords, DesignWords, FounderWords, PhotoWords, MessageWords, EndWords, LongingWords]

  const MusicWords: seq<string> := ["music", "band", "song"]
  const FriendWords: seq<string> := ["friend", "social", "people"]
  const DesignWords: seq<string> := ["design", "layout", "customize", "css"]
  const FounderWords: seq<string> := ["tom", "founder"]
  const PhotoWords: seq<string> := ["photo", "picture", "image"]
  const MessageWords: seq<string> := ["message", "comment", "post"]
  const EndWords: seq<string> := ["why", "what happened", "died", "end"]
  const LongingWords: seq<string> := ["miss", "remember", "nostalgia"]

  /** Some word of the group occurs in `text`. */
  function MatchesAny(text: string, words: seq<string>): (b: bool)
    ensures b <==> exists i :: 0 <= i < |words| && Contains(text, words[i])
  {
    if words == [] then false else Contains(text, words[0]) || MatchesAny(text, words[1..])
  }

  /** The index of the first group with a word in `text`. */
  function FirstMatch(text: string, groups: seq<seq<string>>): (k: Option<nat>)
    ensures k.Some? ==>
      && k.value < |groups| && MatchesAny(text, groups[k.value])
      && forall j :: 0 <= j < k.value ==> !MatchesAny(text, groups[j])
    ensures k.None? ==> forall j :: 0 <= j < |groups| ==> !MatchesAny(text, groups[j])
  {
    if groups == [] then None
    else if MatchesAny(text, groups[0]) then Some(0)
    else match FirstMatch(text, groups[1..])
      case Some(k) => Some(k + 1)
      case None => None
  }

  /** The reply of keyword group `k`. */
  function GroupReply(k: nat, p: Persona.Personality): string
    requires k < |KeywordGroups|
  {
    var era, domain := p.era.Name(), p.domain;
    match k
    case 0 =>
      "Ah, music... In the " + era + ", " + domain + " was where music lived and breathed. Every profile had an auto-play song, and discovering new bands was a daily ritual. The soundtrack of a generation echoed through our digital halls."
    case 1 =>
      "*nostalgic sigh* Friends... The Top 8 was everything. Choosing who made the cut caused more drama than you can imagine. " + domain + " connected millions, back when \"friending\" someone actually meant something."
    case 2 =>
      "The customization wars! Users spent hours crafting the perfect profile with glittery backgrounds, custom CSS, and animated GIFs. It was digital self-expression at its finest. Every profile was unique, a work of art... or chaos."
    case 3 =>
      "Tom... everyone's first friend. He welcomed every new user with open arms. A legend of the " + era + ", forever smiling in that white t-shirt. He was there for everyone."
    case 4 =>
      "Photos were everything! Mirror selfies, photo shoots with friends, carefully curated albums. We didn't have Instagram filters - just pure, unfiltered " + era + " authenticity. And those angles... everyone had their signature pose."
    case 5 =>
      "The comment sections were legendary! Friends would leave messages on your page, and you'd reply publicly for all to see. Bulletin posts spread news faster than any algorithm. It was raw, unfiltered communication."
    case 6 =>
      "*ghostly whisper* Facebook came... and everything changed. The migration was swift. One by one, users left for cleaner interfaces and news feeds. By 2008, the halls grew quiet. But the memories... the memories remain eternal."
    case _ =>
      "I sense your longing for simpler times. The " + era + " were special - before algorithms decided what you saw, before influencers, before everything became so... corporate. " + domain + " was chaos, creativity, and community. Pure digital freedom."
  }

  /** Generic reply number `i`, one of which is drawn when no keyword group matches. */
  function DefaultReply(i: nat, p: Persona.Personality, message: string): string
    requires i < 5
  {
    var era, domain, quoted := p.era.Name(), p.domain, "\"" + message + "\"";
    match i
    case 0 =>
      "Interesting question about " + quoted + "... From my vantage point in the " + era + ", " + domain + " was more than a website - it was a cultural phenomenon. Let me search my fragmented memories..."
    case 1 =>
      "*the ghost flickers* " + quoted + "... yes, I sense echoes of that in my archived memories. In those days, " + domain + " shaped how an entire generation connected online."
    case 2 =>
      "You ask about " + quoted + "... The digital winds carry fragments of those times. " + domain + " in the " + era + " was revolutionary - we just didn't know it yet."
    case 3 =>
      "Ah, " + quoted + "... *ghostly contemplation* My memories are scattered across countless servers, but I recall " + domain + " was where millions found their voice, their friends, their identity."
    case _ =>
      quoted + "... that takes me back. In the " + era + ", " + domain + " wasn't just a platform - it was home. Every login brought new discoveries, new connections, new possibilities."
  }

  /**
   * `generateGhostResponse`: the reply of the first keyword group found in the lower-cased message, or
   * else default reply number `draw`, which stands for `Math.floor(Math.random() * 5)`.
   */
  function GhostResponse(r: Record, message: string, draw: nat): string
    requires draw < 5
  {
    match FirstMatch(ToLower(message), KeywordGroups)
    case Some(k) => GroupReply(k, r.personality)
    case None => DefaultReply(draw, r.personality, message)
  }

  /** Priority: the reply is that of the first group with a word in the message, whatever later groups match. */
  lemma FirstMatchingGroupWins(r: Record, message: string, draw: nat, k: nat)
    requires draw < 5 && k < |KeywordGroups|
    requires MatchesAny(ToLower(message), KeywordGroups[k])
    requires forall j :: 0 <= j < k ==> !MatchesAny(ToLower(message), KeywordGroups[j])
    ensures GhostResponse(r, message, draw) == GroupReply(k, r.personality)
  {
  }

  /** A message that mentions music gets the music reply, even if it also mentions friends. */
  lemma MusicComesFirst(r: Record, message: string, draw: nat)
    requires draw < 5 && Contains(ToLower(message), "music")
    ensures GhostResponse(r, message, draw) == GroupReply(0, r.personality)
  {
    assert MusicWords[0] == "music";
    FirstMatchingGroupWins(r, message, draw, 0);
  }

  /** With no keyword anywhere in the message, the reply is one of the five generic ones. */
  lemma UnmatchedMessageGetsDefault(r: Record, message: string, draw: nat)
    requires draw < 5
    requires forall j, i :: 0 <= j < |KeywordGroups| && 0 <= i < |KeywordGroups[j]| ==>
      !Contains(ToLower(message), KeywordGroups[j][i])
    ensures exists i :: 0 <= i < 5 && GhostResponse(r, message, draw) == DefaultReply(i, r.personality, message)
  {
    var first := FirstMatch(ToLower(message), KeywordGroups);
    assert first.None?;
    assert GhostResponse(r, message, draw) == DefaultReply(draw, r.personality, message);
  }

  /** `POST /api/chat/:id`. */
  method Chat(store: ResurrectionStore, id: string, message: string, draw: nat) returns (resp: Response<ChatBody>)
    requires draw < 5
    ensures id !in store.records ==> resp == Error(404, Faded, None)
    ensures id in store.records ==>
      resp == Ok(ChatAnswer(store.records[id], GhostResponse(store.records[id], message, draw)))
  {
    var found := store.Get(id);
    match found
    case None =>
      resp := Error(404, Faded, None);
    case Some(r) =>
      resp := Ok(ChatAnswer(r, GhostResponse(r, message, draw)));
  }
}
