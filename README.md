# Echoes of the Dead Web: a Dafny model of the resurrection engine

The engine turns a URL into a "resurrection". It asks the Wayback Machine CDX index for captures of the
URL and normalises the index table into snapshot records. It derives a persona (era, tone, domain and
greeting) from the URL and the first capture's timestamp. It stores the record in an in-memory map and
answers chat messages with templated replies.

There are two deployments of the same handlers:

- **Server** (`backend-server.js`): archive addresses are `base/ts/orig`. A record starts `summoning`
  and turns `complete` when a delayed callback runs, which also broadcasts the record. Chat replies are
  chosen by keyword group, first match wins, with a random generic reply when nothing matches.
- **Lambda** (`lambda-handler.js`): archive addresses are `base/tsid_/orig`. A record is stored
  `complete` at once. A chat reply is one of three templates, drawn at random.

## Modules

- `Common`: `Option`, standing for JavaScript's `undefined` and `NaN`.
- `Strings`: `includes`, `split('/')[0]`, ASCII `toLowerCase`, and decimal rendering.
- `JsNumber`: ECMAScript `parseInt` with no radix. It skips leading white space, reads an optional
  sign, switches to hexadecimal after `0x`, stops at the first non-digit, and gives `NaN` when there is
  no digit.
- `Archive`: the CDX table and snapshot records. A row shorter than four cells gives `undefined` cells,
  and those read "undefined" inside the archive address.
- `Persona`: `generateGhostPersonality`. The code is the same in both files (`lambda-handler.js:140-170`).
- `Records`: the record, the store class, and `list`'s stable newest-first sort.
  - The store is a class over a `map` plus the insertion order of its keys. A JavaScript `Map`
    iterates in that order, and `set` on an existing key keeps the key's position.
- `Api`: response shapes, the themed error messages, and the create decision `Summon`.
  - `Summon` runs the url check, the index reply, the snapshot count and the persona, in that order.
  - The get and list handlers are defined here once. Their code is the same in both files
    (`lambda-handler.js:101-118`).
- `Server`, `Lambda`: the create and chat handlers of each deployment. `Server` also has the
  completion callback.
- `Scenarios`: request sequences against a fresh store.

Inputs the code takes from its environment are parameters:

- the index reply (`CdxReply`: a table, or the error message the HTTP client threw);
- `now`, the `Date.now()` that names the id;
- `createdAt`, the creation instant in milliseconds;
- `parseHost`, standing for `new URL(url).hostname` (`None` where the constructor throws);
- `draw`, standing for `Math.floor(Math.random() * n)`.

Notes on the code:

- The era names are `1990s`/`2000s`/`2010s`.
- Chat has no "missing personality" check.
- Nothing bounds a record's snapshot list. Only the query asks for 10.
- A structurally short index row is not an upstream error. Its missing cells become `undefined`. Only
  a missing first timestamp fails, with a 500, because `undefined.substring` throws inside the
  persona step.

## Model

| member | source | states |
|---|---|---|
| `Strings.ContainsIffOccurs` | backend-server.js:205 | `includes` as modelled is true exactly when the word occurs at some index of the text |
| `Strings.BeforeFirstSlash` | backend-server.js:174 | `split('/')[0]` is a prefix of the input that holds no '/', and is either the whole input or followed by '/' |
| `Strings.ToLower` | backend-server.js:202 | lower-casing keeps the length, turns each ASCII capital into its lower-case letter (code point plus 32), and changes no other character |
| `Strings.NatToString` | backend-server.js:56 | the decimal rendering is non-empty, all digits, with no leading zero |
| `JsNumber.FourDigits` | backend-server.js:164 | about `JsNumber.ParseInt`: `parseInt` of four decimal digits is the number they spell |
| `JsNumber.ParseNatToString` | backend-server.js:196 | about `JsNumber.ParseInt`, round trip: `parseInt` reads back the decimal rendering of every natural number, exact integers standing for JavaScript numbers below 10^21 |
| `JsNumber.NatToStringInjective` | backend-server.js:56 | distinct numbers have distinct renderings |
| `Archive.SnapshotUrl` | backend-server.js:74 | the archive address is `base/ts/orig`, or `base/tsid_/orig` for the raw-capture rendering of lambda-handler.js:66 |
| `Archive.Normalize` | backend-server.js:69-75 | the header row is dropped (length is rows minus one); snapshot i takes timestamp, url, statusCode, mimeType from cells 0-3 of row i+1 and its address from the first two |
| `Archive.FirstFive` | backend-server.js:107 | the create response shows the prefix of the snapshots of length min(5, n) |
| `Persona.Classify` | backend-server.js:181-190 | before 2000 gives 1990s/pioneering, from 2010 gives 2010s/modern, otherwise (NaN included) 2000s/nostalgic, in both directions |
| `Persona.Domain` | backend-server.js:166-179 | without `://` the domain is the prefix before the first '/' and holds no '/'; with it, the parsed host, or that prefix if parsing throws |
| `Persona.PersonaOfDatedCapture` | backend-server.js:163-197 | about `Persona.Generate`: a timestamp with four leading digits themes the persona by that year, and the greeting names era, domain and year |
| `Persona.PersonaOfUndatedCapture` | backend-server.js:164-196 | about `Persona.Generate`: a timestamp starting with a letter reads as NaN: the defaults 2000s/nostalgic stay and the greeting says "since NaN" |
| `Records.ValuesInOrder` | backend-server.js:132 | the store's values, one per key, in key order |
| `Records.ResurrectionStore.constructor` | backend-server.js:38 | the store starts empty |
| `Records.ResurrectionStore.Put` | backend-server.js:84 | `set` maps the id to the record, keeps the position of an existing key, and appends a new key |
| `Records.ResurrectionStore.Get` | backend-server.js:121 | `get` gives the stored record, or nothing when the id is absent |
| `Records.SortIsNewestFirst` | backend-server.js:133 | about `Records.SortNewestFirst`: the list is ordered by createdAt, non-increasing |
| `Records.SortPermutes` | backend-server.js:132-133 | about `Records.SortNewestFirst`: the list is a permutation of the store's values |
| `Records.SortIsStable` | backend-server.js:133 | about `Records.SortNewestFirst`: records with the same createdAt keep their insertion order |
| `Api.DistinctInstantsDistinctIds` | backend-server.js:56 | about `Api.ResurrectionId`: creates in different milliseconds get different ids |
| `Api.Summon` | backend-server.js:52-92 | a missing url gives 400; an index error gives 500 with its message; zero snapshots gives 404; a missing first timestamp gives 500; otherwise, and only then, the record has the given status, all snapshots, selectedSnapshot = snapshots[0], and the persona of (url, snapshots[0].timestamp) |
| `Api.FetchResurrection` | backend-server.js:120-128 | get-by-id returns the stored record exactly, or 404 |
| `Api.ListResurrections` | backend-server.js:131-136 | list returns every stored record once, newest first, ties in insertion order |
| `Server.Resurrect` | backend-server.js:49-117 | on every failure the store is unchanged; on success exactly the new `summoning` record is set under `ghost_<now>` and the reply carries status `summoning` and the first five snapshots |
| `Server.CompleteSummoning` | backend-server.js:95-101 | for a stored id only its status changes, to complete, and the event carries the updated record; for an absent id nothing changes and nothing is emitted |
| `Server.MatchesAny` | backend-server.js:205 | a keyword group matches when one of its words occurs in the message |
| `Server.FirstMatch` | backend-server.js:204-235 | the selected group matches and no earlier group does; none is selected only when no group matches |
| `Server.FirstMatchingGroupWins` | backend-server.js:200-235 | about `Server.GhostResponse`: the reply is the template of the first matching group (music > friend > design > tom > photo > message > why > miss) |
| `Server.MusicComesFirst` | backend-server.js:205-207 | about `Server.GhostResponse`: a message mentioning music gets the music reply, whatever else it mentions |
| `Server.UnmatchedMessageGetsDefault` | backend-server.js:237-246 | about `Server.GhostResponse`: with no keyword in the message, the reply is one of the five generic templates |
| `Server.Chat` | backend-server.js:139-157 | unknown id gives 404; otherwise the reply, the selected snapshot as source, and the personality |
| `Lambda.Resurrect` | lambda-handler.js:42-99 | the same checks with `id_` addresses; failures leave the store unchanged; success stores a `complete` record, answers `complete` with at most five snapshots, and keeps every record complete |
| `Lambda.ReplyIgnoresKeywords` | lambda-handler.js:172-180 | about `Lambda.GhostResponse`: the reply is non-empty and one of three templates whatever the message says; two quote the message, the third ignores it |
| `Lambda.Chat` | lambda-handler.js:121-138 | unknown id gives 404; otherwise the three-template reply with the selected snapshot as source |
| `Scenarios.SeanceOverOneCapture` | backend-server.js:49-157 | one 2000s capture: create answers `summoning` with that capture and its address; a chat mentioning music gets the 2000s music reply |
| `Scenarios.MyspaceCaptureIs2007` | backend-server.js:164 | the capture "2007id_" dates from 2007 |
| `Scenarios.MissTheMusicMentionsMusic` | backend-server.js:202-205 | "I miss the music" lower-cased contains "music" |
| `Scenarios.MyspaceSeance` | backend-server.js:49-157 | myspace.com in 2007 gives one snapshot whose timestamp is "2007id_"; then "I miss the music": the music reply themed 2000s |
| `Scenarios.SummonWithoutUrl` | backend-server.js:52-54 | no url: 400, and afterwards no id can be fetched |
| `Scenarios.SummonUnarchived` | lambda-handler.js:69-73 | header-only index answer: 404, nothing fetchable, empty list |
| `Scenarios.SummonThenComplete` | backend-server.js:84-128 | the create answers `summoning` with an id; after completion, fetching that id gives a complete record whose selected snapshot is its first, and the event carried it |
| `Scenarios.TwoSummons` | backend-server.js:56-101 | two creates in different milliseconds give two ids, two records, and two events, each carrying its own record, completed, with its own create's snapshots |
| `Scenarios.LambdaSummon` | lambda-handler.js:75-110 | a lambda create is complete at once, and fetch returns the stored record with `id_` snapshots |

## Left out

- The React front end, Express, `cors` and its origin callback, `serverless-http`, and the `/health`
  route. These are framework plumbing and UI.
- The `axios` call is replaced by its outcome, the `CdxReply` parameter. Its query parameters are not
  modelled: limit 10 and the four requested fields.
- Non-JSON-array index payloads, and cells that are not strings (numbers, `null`), are left out. The
  table is `seq<seq<string>>`.
- The WebSocket server, `broadcastUpdate` and `websocketHandler`. This is network delivery. The
  completion step returns the event it would broadcast.
- `setTimeout`'s three-second delay. Completion is an explicit call, and interleavings of the awaited
  index query between two requests are not modelled: each request is one step.
- `Date.now()`, `new Date().toISOString()` and `Math.random()` are parameters. The ISO rendering of
  `createdAt` is not modelled. The list sort reads it back as the same millisecond value.
- `new URL(url).hostname` is the `parseHost` parameter, because it is a foreign URL parser.
- JavaScript numbers are doubles; the model uses exact integers. They agree on every value the code
  produces: a year read from four characters, and a `Date.now()` far below 10^21, from where `${n}`
  switches to exponent notation.
- `toLowerCase` covers ASCII letters only. Unicode case mapping is not modelled.
- A request body whose `url` is not a string is not modelled. Such a url would make `url.split` in
  the persona's fallback throw, giving a 500 once a snapshot exists.
- A chat body without `message` is not modelled: the message is a string. In the server,
  `toLowerCase` would throw inside the async handler. The lambda would interpolate "undefined".
- Console logging, the banner file, and the SIGTERM handler.
- Server.GhostResponse: the reply's non-emptiness is not stated as a contract. Every template is a
  non-empty literal, but lemmas over literals this long exhaust the verifier's resource limit.
- An id collision (two creates in one millisecond) overwrites the earlier record in place, with a new
  `summoning` status. The model shows this through `Put` and does not forbid it, as the code does not.
