# Lovoson onboarding backend — verified model

This project models the logic of the Lovoson client-onboarding backend
(`src/main/java/com/lov/Main.java`): an in-memory store of clients, each with a
progress map from onboarding-step identifier to a completion flag, and the three
request handlers that read or change it:

- **login** (`POST /api/login`): look the email up, compare the password exactly;
- **progress lookup** (`GET /api/client-progress`): find a client whose business
  name equals the `client` parameter ignoring case, and return its progress map
  (an empty map for an unknown client);
- **Tally webhook** (`POST /api/webhook/tally`): scan the payload's
  `data.fields` records for the last non-null `client_id` and `step`, normalise the
  step name (`contract`→`2`, `access`→`3`, `intake`→`4`, `kickoff`→`5`,
  `final`→`6`, anything else unchanged, null→`0`), and mark that step complete for
  the matching client.

Modules, one file each:

- `Wrappers` (`wrappers.dfy`): `Option`, standing for a Java reference that may be null.
- `Ascii` (`ascii.dfy`): `toLowerCase` and `equalsIgnoreCase` over ASCII letters, with
  the lemma that the two agree.
- `Gson` (`gson.dfy`): the parsed JSON value, the request body as Gson's
  `fromJson(..., JsonObject.class)` delivers it (null, an object, or an exception),
  and `getAsString` with its exceptions as `Thrown`.
- `Steps` (`steps.dfy`): `mapStepToId`, and its agreement with the step table.
- `TallyPayload` (`tally_payload.dfy`): the loop over `fields` as a fold (`Scan`) and as
  a `while` loop proved equal to it, the shape checks around it, and the proof that
  the loop keeps the last supplied value of each key.
- `Portal` (`portal.dfy`): the store as a value (`Db`, email → `Account`) and each
  handler as a function from the store and the request to the reply (and, for the
  webhook, the new store), with their properties as lemmas.
- `Server` (`server.dfy`): the classes `Client` (whose `progress` is updated in place)
  and `Store` (the seeded `clientDatabase`), whose handler methods are proved to
  agree with the `Portal` functions on `Snapshot()`, the store's value.

Three behaviours of the code worth noting:

- A field record `{"key": null, "value": null}` is not skipped: the code reads
  `key` with `getAsString` before it tests the value for null, and that call throws,
  so the webhook answers 500 (`ScanField`).
- A body whose `data` member exists but is not an object (or whose `data.fields`
  is not an array) is not "ignored": the cast throws and the webhook answers 500
  (`ReadTally`).
- A login body whose `email` or `password` member is present but JSON null gets
  500, not 400: `has` is true and `getAsString` throws (`ReadCredentials`).

## Model

| member | source | states |
|---|---|---|
| `Steps.MapStepToId` | src/main/java/com/lov/Main.java:210-213 | a null step name gives "0" |
| `Steps.MapStepToIdMatchesTable` | src/main/java/com/lov/Main.java:214-227 | the switch on the lower-cased name agrees with the step table read with equalsIgnoreCase: a matching name gives its row's identifier, any other string comes back unchanged |
| `Steps.MapStepToIdNamedStep` | src/main/java/com/lov/Main.java:214-224 | contract, access, intake, kickoff, final in any letter case map to "2", "3", "4", "5", "6" |
| `Steps.MapStepToIdPassesThrough` | src/main/java/com/lov/Main.java:226-227 | a name matching no table row (such as "1") is returned unchanged |
| `Steps.MapStepToIdIdempotent` | src/main/java/com/lov/Main.java:210-229 | normalising an already normalised step changes nothing |
| `Ascii.ToLower` | src/main/java/com/lov/Main.java:214 | toLowerCase keeps the length and folds each character, ASCII upper-case letters to lower case |
| `Ascii.EqualsIgnoreCase` | src/main/java/com/lov/Main.java:117 | equalsIgnoreCase: equal lengths and equal characters after folding; every string equals itself |
| `Ascii.EqualsIgnoreCaseIffLowerEqual` | src/main/java/com/lov/Main.java:214 | equalsIgnoreCase (used for names) holds exactly when the toLowerCase forms (used by the switch) are equal |
| `Gson.AsString` | src/main/java/com/lov/Main.java:152-158 | getAsString returns a string's own text and throws on JSON null, an object, or an array not of exactly one element |
| `TallyPayload.ScanField` | src/main/java/com/lov/Main.java:150-166 | one loop iteration throws exactly for a faulty record; otherwise a local changes only to the value the record supplies for its key |
| `TallyPayload.ExtractHiddenFields` | src/main/java/com/lov/Main.java:145-167 | the loop over fields, stopping at the first exception, computes exactly the fold Scan from two null locals |
| `TallyPayload.ScanKeepsLastSupplied` | src/main/java/com/lov/Main.java:149-167 | the scan throws exactly when some record is faulty; otherwise each local holds the value of the last record supplying its key, or its earlier value if none does |
| `TallyPayload.Scan` | src/main/java/com/lov/Main.java:149-167 | the loop as a fold: once Gson has thrown the result is thrown; otherwise each local ends with its starting value or a value some record supplied for its key |
| `TallyPayload.ScanFields` | src/main/java/com/lov/Main.java:145-167 | from null locals, the scan throws exactly when some record is faulty, and otherwise client_id and step are the last non-null values supplied for those keys, null if none |
| `TallyPayload.SkippedFieldIrrelevant` | src/main/java/com/lov/Main.java:151-157 | inserting a record lacking key or value, or with a null value and a key that reads as a string, anywhere in the array never changes the outcome |
| `TallyPayload.ScanAppend` | src/main/java/com/lov/Main.java:149-167 | scanning a concatenation is scanning the second part from the state the first part left |
| `TallyPayload.ReadTally` | src/main/java/com/lov/Main.java:137-169 | a null or unparsable body, a data that is not an object, or a data.fields that is not an array is a 500; a missing data or data.fields is "ignored" |
| `TallyPayload.ReadTallyUsesLastSupplied` | src/main/java/com/lov/Main.java:143-169 | for an array of fields, the read is malformed exactly when a record is faulty, and otherwise complete exactly when both client_id and step are supplied, with the last supplied values |
| `TallyPayload.ReadTallyPayload` | src/main/java/com/lov/Main.java:137-169 | the handler's shape checks and loop compute ReadTally |
| `Portal.SeededContractRead` | src/main/java/com/lov/Main.java:140-169 | the payload with client_id "Old School Boxing" and step "contract" reads as both hidden fields |
| `Portal.Seed` | src/main/java/com/lov/Main.java:29-39 | the seeded store files each client under its email and has business names distinct ignoring case |
| `Portal.SetProgress` | src/main/java/com/lov/Main.java:254-256 | setProgress upserts one progress entry of one client; no other entry, field or client changes |
| `Portal.SetProgressIdempotent` | src/main/java/com/lov/Main.java:254-256 | setting the same step to the same flag twice equals setting it once |
| `Portal.FindByName` | src/main/java/com/lov/Main.java:116-121 | the name lookup returns a client whose business name equals the name ignoring case, or none when no client matches |
| `Portal.FindByNameUnique` | src/main/java/com/lov/Main.java:173-174 | in a store with distinct names, any matching client is the one found, so the "first match" is determined |
| `Portal.FindByNameSameNames` | src/main/java/com/lov/Main.java:173-177 | a store with the same keys, names and emails is still well formed and gives the same lookup |
| `Portal.ReadCredentials` | src/main/java/com/lov/Main.java:75-83 | credentials are missing exactly for a null body or a body without email or password; unreadable exactly for an unparsable body or an email or password whose getAsString throws; otherwise they are the two getAsString values |
| `Portal.Login` | src/main/java/com/lov/Main.java:77-100 | 400 exactly when credentials are missing, 500 exactly when they cannot be read as strings, success exactly for a stored email with its exact password (returning that client's business name), 401 otherwise |
| `Portal.LoginAcceptsExactlyStoredPairs` | src/main/java/com/lov/Main.java:85-95 | for every email and password, login succeeds with the client's name when the pair is stored, and gives the same 401 whether the email or the password was wrong |
| `Portal.SeededLogin` | src/main/java/com/lov/Main.java:31-34 | the seeded boxing credentials log in as "Old School Boxing"; the demo password against the boxing email is refused |
| `Portal.ClientProgress` | src/main/java/com/lov/Main.java:109-127 | 400 exactly for a missing or empty name; an unknown name gives the empty map |
| `Portal.ClientProgressOfMatch` | src/main/java/com/lov/Main.java:115-124 | a name matching a client ignoring case gets exactly that client's progress map |
| `Portal.ClientProgressOfUnknown` | src/main/java/com/lov/Main.java:123-127 | a name matching no client gets the empty map, not an error |
| `Portal.Tally` | src/main/java/com/lov/Main.java:136-193 | only a success changes the store; 500 exactly for a malformed payload; no key, name, email or password ever changes |
| `Portal.TallyUpdatesMatchingClient` | src/main/java/com/lov/Main.java:169-179 | with both fields found and a client matching client_id ignoring case, that client's progress gets mapStepToId(step) set to true, all else stays, and the reply is success |
| `Portal.TallyIgnoresUnknownClient` | src/main/java/com/lov/Main.java:173-187 | a client_id matching no business name is "ignored" and the store is unchanged |
| `Portal.TallyIgnoresIncomplete` | src/main/java/com/lov/Main.java:140-187 | a payload without data, data.fields, client_id or step is "ignored" and the store is unchanged |
| `Portal.TallyIgnoresUnresolved` | src/main/java/com/lov/Main.java:145-169 | when no record supplies client_id, or none supplies step, the webhook is "ignored" and the store is unchanged |
| `Portal.TallyAppliesLastSupplied` | src/main/java/com/lov/Main.java:149-179 | the client matched by the last supplied client_id gets mapStepToId of the last supplied step set to true, and the reply is success |
| `Portal.TallyPreservesWellFormed` | src/main/java/com/lov/Main.java:173-179 | the webhook keeps business names distinct ignoring case |
| `Portal.TallyIdempotent` | src/main/java/com/lov/Main.java:177 | delivering the same webhook twice gives the same store and reply as delivering it once |
| `Portal.SeededContractWebhook` | src/main/java/com/lov/Main.java:29-39 | on the seeded store, client_id "Old School Boxing" with step "contract" (any case) adds "2": true to that client, keeps "1": true, and leaves the demo client alone |
| `Server.Client.constructor` | src/main/java/com/lov/Main.java:248-252 | a new client has the given name, email and password and an empty progress map |
| `Server.Client.SetProgress` | src/main/java/com/lov/Main.java:254-256 | the progress map becomes the old one with stepId set to isComplete |
| `Server.Store.constructor` | src/main/java/com/lov/Main.java:29-39 | the seeded store is valid and its value is Portal.Seed |
| `Server.Store.Login` | src/main/java/com/lov/Main.java:72-101 | the login handler's reply is Portal.Login of the store's value; it modifies nothing |
| `Server.Store.ClientProgress` | src/main/java/com/lov/Main.java:105-128 | the lookup loop with its early break replies Portal.ClientProgress of the store's value; it modifies nothing |
| `Server.Store.Tally` | src/main/java/com/lov/Main.java:131-194 | the webhook handler keeps the store valid, and its reply and new store value are Portal.Tally of the old store value |
| `Server.Store.MarkStepComplete` | src/main/java/com/lov/Main.java:173-182 | updates exactly when some client's name matches, and then the store value is the old one with that client's mapStepToId(step) set to true; otherwise nothing changes |

## Left out

- HTTP plumbing: Spark routing, CORS and OPTIONS headers, the root redirect, static files, `/enroll` (an echo) and `/health` (a constant).
- Parsing and printing JSON text: a body is given as what Gson's `fromJson` produced, and the reply as a datatype rather than its JSON text (`gson.toJson` of the progress map is not modelled).
- Which texts make Gson return null and which make it throw is Gson's behaviour and is not modelled; `Body` only distinguishes the three results.
- Logging: side effects only.
- `getHerokuAssignedPort`: reads an environment variable and parses it.
- Concurrency: the source has no synchronisation; the store is modelled as single-threaded.
- Unicode case mapping: `toLowerCase` and `equalsIgnoreCase` are modelled on ASCII letters only; other characters are their own lower case, and the locale is ignored.
- `css/js/script.js`: browser UI with no logic of the store.
- Server.Store.Tally: requires `Valid()`, which includes business names distinct ignoring case; the source also runs on a store with two names equal ignoring case, where the client updated depends on `HashMap` iteration order. The seeded store meets this requirement and no code adds clients.
- Server.Store.MarkStepComplete: requires `Valid()` for the same reason; with duplicate names the client updated is whichever matching client the iteration reaches first.
- Server.Store.ClientProgress: requires `Valid()` for the same reason; with duplicate names the source returns whichever matching client the iteration reaches first.
