/**
 * The client store as a value, and the three handlers that read or change it
 * (Main.java: /api/login, /api/client-progress, /api/webhook/tally), stated as
 * functions from the store before a request to the reply and the store after it.
 */
module Portal {
  import opened Wrappers
  import opened Ascii
  import opened Gson
  import opened Steps
  import opened TallyPayload

  /** A client record (Main.Client) as a value. */
  datatype Account = Account(businessName: string, email: string, password: string, progress: map<string, bool>)

  /** clientDatabase: accounts keyed by email. */
  type Db = map<string, Account>

  /** Every account is filed under its own email, and no two business names are equal ignoring case. */
  predicate WellFormed(db: Db)
  {
    && (forall e :: e in db ==> db[e].email == e)
    && (forall e1, e2 :: e1 in db && e2 in db && e1 != e2 ==>
          !EqualsIgnoreCase(db[e1].businessName, db[e2].businessName))
  }

  /** The seeded store (Main.java lines 29-39). */
  function Seed(): (db: Db)
    ensures WellFormed(db)
  {
    map[
      "client@oldschoolboxing.com" :=
        Account("Old School Boxing", "client@oldschoolboxing.com", "boxer123", map["1" := true]),
      "demo@lovoson.com" :=
        Account("Demo Client", "demo@lovoson.com", "lovoson2025", map[])
    ]
  }

  /** Client.setProgress on the client filed under `email`: an upsert into its progress map. */
  function SetProgress(db: Db, email: string, stepId: string, isComplete: bool): (db': Db)
    requires email in db
    ensures db'.Keys == db.Keys
    ensures db'[email].progress == db[email].progress[stepId := isComplete]
    ensures db'[email].(progress := db[email].progress) == db[email]
    ensures forall e :: e in db && e != email ==> db'[e] == db[e]
  {
    db[email := db[email].(progress := db[email].progress[stepId := isComplete])]
  }

  /** Setting the same step to the same flag twice is the same as setting it once. */
  lemma SetProgressIdempotent(db: Db, email: string, stepId: string, isComplete: bool)
    requires email in db
    ensures SetProgress(SetProgress(db, email, stepId, isComplete), email, stepId, isComplete)
            == SetProgress(db, email, stepId, isComplete)
  {
    var once := SetProgress(db, email, stepId, isComplete);
    assert once[email].progress[stepId := isComplete] == once[email].progress;
    assert once[email].(progress := once[email].progress) == once[email];
  }

  /** The email of a client whose business name equals `name` ignoring case, if there is one. */
  ghost function FindByName(db: Db, name: string): (r: Option<string>)
    ensures r.Some? ==> r.value in db && EqualsIgnoreCase(db[r.value].businessName, name)
    ensures r.None? ==> forall e :: e in db ==> !EqualsIgnoreCase(db[e].businessName, name)
  {
    if exists e :: e in db && EqualsIgnoreCase(db[e].businessName, name)
    then Some(var e :| e in db && EqualsIgnoreCase(db[e].businessName, name); e)
    else None
  }

  /** In a well-formed store the match is unique, so any matching client is the one found. */
  lemma FindByNameUnique(db: Db, name: string, email: string)
    requires WellFormed(db)
    requires email in db && EqualsIgnoreCase(db[email].businessName, name)
    ensures FindByName(db, name) == Some(email)
  {
  }

  /** The lookup depends only on the business names, which no handler changes. */
  lemma FindByNameSameNames(db: Db, db': Db, name: string)
    requires WellFormed(db)
    requires db'.Keys == db.Keys
    requires forall e :: e in db ==> db'[e].businessName == db[e].businessName && db'[e].email == db[e].email
    ensures WellFormed(db')
    ensures FindByName(db', name) == FindByName(db, name)
  {
  }

  // ----- POST /api/login -----

  /** What the login handler reads from its body (lines 77-83). */
  datatype Credentials =
    | MissingCredentials                        // null body, or no "email" or no "password" member
    | UnreadableCredentials                     // getAsString threw
    | Given(email: string, password: string)

  function ReadCredentials(body: Body): (c: Credentials)
    ensures c.MissingCredentials? <==>
      body.NullBody? || (body.ObjectBody? && ("email" !in body.members || "password" !in body.members))
    ensures c.Given? <==>
      body.ObjectBody? && "email" in body.members && "password" in body.members
      && AsString(body.members["email"]).Ok? && AsString(body.members["password"]).Ok?
    ensures c.Given? ==>
      Ok(c.email) == AsString(body.members["email"]) && Ok(c.password) == AsString(body.members["password"])
    ensures c.UnreadableCredentials? <==>
      body.Unparsable?
      || (body.ObjectBody? && "email" in body.members && "password" in body.members
          && (AsString(body.members["email"]).Thrown? || AsString(body.members["password"]).Thrown?))
  {
    match body
    case NullBody => MissingCredentials
    case Unparsable => UnreadableCredentials
    case ObjectBody(m) =>
      if "email" !in m || "password" !in m then MissingCredentials
      else match (AsString(m["email"]), AsString(m["password"]))
        case (Ok(email), Ok(password)) => Given(email, password)
        case _ => UnreadableCredentials
  }

  datatype LoginReply =
    | LoginSuccess(clientName: string)   // 200 with the client's business name
    | LoginBadRequest                     // 400
    | LoginUnauthorized                   // 401
    | LoginServerError                    // 500

  /** Lines 77-100: 400 for missing fields, 200 exactly for a stored email with its exact password, 401 otherwise. */
  function Login(db: Db, body: Body): (r: LoginReply)
    ensures r == LoginBadRequest <==> ReadCredentials(body).MissingCredentials?
    ensures r == LoginServerError <==> ReadCredentials(body).UnreadableCredentials?
    ensures r.LoginSuccess? <==>
      ReadCredentials(body).Given?
      && ReadCredentials(body).email in db
      && db[ReadCredentials(body).email].password == ReadCredentials(body).password
    ensures r.LoginSuccess? ==> r.clientName == db[ReadCredentials(body).email].businessName
  {
    match ReadCredentials(body)
    case MissingCredentials => LoginBadRequest
    case UnreadableCredentials => LoginServerError
    case Given(email, password) =>
      if email in db && db[email].password == password
      then LoginSuccess(db[email].businessName)
      else LoginUnauthorized
  }

  /** A login body `{"email": email, "password": password}`. */
  function CredentialsBody(email: string, password: string): Body
  {
    ObjectBody(map["email" := JString(email), "password" := JString(password)])
  }

  /** Every stored (email, password) pair logs in as its client; every other pair is refused with 401, whichever part was wrong. */
  lemma LoginAcceptsExactlyStoredPairs(db: Db, email: string, password: string)
    ensures Login(db, CredentialsBody(email, password))
            == if email in db && db[email].password == password
               then LoginSuccess(db[email].businessName)
               else LoginUnauthorized
  {
  }

  // ----- GET /api/client-progress -----

  datatype ProgressReply =
    | ProgressBadRequest                       // 400: no or empty "client" parameter
    | ProgressMap(steps: map<string, bool>)    // 200 with the progress map, {} for an unknown client

  /** Lines 109-127, for the query parameter `client` (None when absent). */
  ghost function ClientProgress(db: Db, client: Option<string>): (r: ProgressReply)
    ensures r == ProgressBadRequest <==> client.None? || client.value == ""
    ensures r.ProgressMap? && FindByName(db, client.value).None? ==> r.steps == map[]
  {
    match client
    case None => ProgressBadRequest
    case Some(name) =>
      if name == "" then ProgressBadRequest
      else match FindByName(db, name)
        case Some(email) => ProgressMap(db[email].progress)
        case None => ProgressMap(map[])
  }

  /** A non-empty name that matches a client ignoring case gets exactly that client's progress map. */
  lemma ClientProgressOfMatch(db: Db, name: string, email: string)
    requires WellFormed(db)
    requires name != "" && email in db && EqualsIgnoreCase(db[email].businessName, name)
    ensures ClientProgress(db, Some(name)) == ProgressMap(db[email].progress)
  {
  }

  /** A non-empty name that matches no client gets the empty map, not an error. */
  lemma ClientProgressOfUnknown(db: Db, name: string)
    requires name != ""
    requires forall e :: e in db ==> !EqualsIgnoreCase(db[e].businessName, name)
    ensures ClientProgress(db, Some(name)) == ProgressMap(map[])
  {
  }

  // ----- POST /api/webhook/tally -----

  datatype WebhookReply =
    | WebhookSuccess   // 200 {"status":"success"}
    | WebhookIgnored   // 200 {"status":"ignored"}
    | WebhookFailed    // 500

  /** Lines 136-193: the reply, and the store after the request. */
  ghost function Tally(db: Db, body: Body): (res: (Db, WebhookReply))
    ensures res.1 != WebhookSuccess ==> res.0 == db
    ensures res.1 == WebhookFailed <==> ReadTally(body).Malformed?
    ensures res.0.Keys == db.Keys
    ensures forall e :: e in db ==> res.0[e].(progress := db[e].progress) == db[e]
  {
    match ReadTally(body)
    case Malformed => (db, WebhookFailed)
    case Incomplete => (db, WebhookIgnored)
    case Complete(clientId, step) =>
      match FindByName(db, clientId)
      case None => (db, WebhookIgnored)
      case Some(email) => (SetProgress(db, email, MapStepToId(Some(step)), true), WebhookSuccess)
  }

  /**
   * When both hidden fields are found and a client's business name matches
   * `client_id` ignoring case, that client's progress gets the normalised step
   * set to true, every other entry and every other client stay as they were,
   * and the reply is success.
   */
  lemma TallyUpdatesMatchingClient(db: Db, body: Body, email: string)
    requires WellFormed(db)
    requires ReadTally(body).Complete?
    requires email in db && EqualsIgnoreCase(db[email].businessName, ReadTally(body).clientId)
    ensures Tally(db, body).1 == WebhookSuccess
    ensures Tally(db, body).0[email].progress
            == db[email].progress[MapStepToId(Some(ReadTally(body).step)) := true]
    ensures forall e :: e in db && e != email ==> Tally(db, body).0[e] == db[e]
  {
  }

  /** A client_id that matches no business name is ignored and changes nothing. */
  lemma TallyIgnoresUnknownClient(db: Db, body: Body)
    requires ReadTally(body).Complete?
    requires forall e :: e in db ==> !EqualsIgnoreCase(db[e].businessName, ReadTally(body).clientId)
    ensures Tally(db, body) == (db, WebhookIgnored)
  {
  }

  /** A payload without data, without data.fields, or without both hidden fields is ignored and changes nothing. */
  lemma TallyIgnoresIncomplete(db: Db, body: Body)
    requires ReadTally(body).Incomplete?
    ensures Tally(db, body) == (db, WebhookIgnored)
  {
  }

  /**
   * End to end, for a payload whose data.fields is an array without faulty records:
   * when either hidden field is supplied by no record, the webhook is ignored and
   * nothing changes.
   */
  lemma TallyIgnoresUnresolved(db: Db, body: Body, fields: seq<Json>)
    requires body.ObjectBody? && "data" in body.members && body.members["data"].JObject?
    requires "fields" in body.members["data"].members
    requires body.members["data"].members["fields"] == JArray(fields)
    requires forall i :: 0 <= i < |fields| ==> !Faulty(fields[i])
    requires LastSupplied(fields, "client_id").None? || LastSupplied(fields, "step").None?
    ensures Tally(db, body) == (db, WebhookIgnored)
  {
  }

  /**
   * End to end: when the last records supplying client_id and step give `clientId`
   * and `step`, and a client's business name matches `clientId` ignoring case, the
   * webhook marks mapStepToId(step) complete for exactly that client.
   */
  lemma TallyAppliesLastSupplied(db: Db, body: Body, fields: seq<Json>, email: string)
    requires WellFormed(db)
    requires body.ObjectBody? && "data" in body.members && body.members["data"].JObject?
    requires "fields" in body.members["data"].members
    requires body.members["data"].members["fields"] == JArray(fields)
    requires forall i :: 0 <= i < |fields| ==> !Faulty(fields[i])
    requires LastSupplied(fields, "client_id").Some? && LastSupplied(fields, "step").Some?
    requires email in db && EqualsIgnoreCase(db[email].businessName, LastSupplied(fields, "client_id").value)
    ensures Tally(db, body)
            == (SetProgress(db, email, MapStepToId(LastSupplied(fields, "step")), true), WebhookSuccess)
  {
    ReadTallyUsesLastSupplied(body, fields);
    FindByNameUnique(db, LastSupplied(fields, "client_id").value, email);
  }

  /** The webhook keeps the store well formed. */
  lemma TallyPreservesWellFormed(db: Db, body: Body)
    requires WellFormed(db)
    ensures WellFormed(Tally(db, body).0)
  {
  }

  /** Delivering the same webhook twice leaves the store as delivering it once, with the same reply. */
  lemma TallyIdempotent(db: Db, body: Body)
    requires WellFormed(db)
    ensures Tally(Tally(db, body).0, body) == Tally(db, body)
  {
    var db1 := Tally(db, body).0;
    if ReadTally(body).Complete? {
      FindByNameSameNames(db, db1, ReadTally(body).clientId);
      if FindByName(db, ReadTally(body).clientId).Some? {
        SetProgressIdempotent(db, FindByName(db, ReadTally(body).clientId).value,
                              MapStepToId(Some(ReadTally(body).step)), true);
      }
    }
  }

  // ----- the seeded store -----

  /** One Tally field record `{"key": key, "value": value}`. */
  function Field(key: string, value: string): Json
  {
    JObject(map["key" := JString(key), "value" := JString(value)])
  }

  /** A Tally payload `{"data": {"fields": fields}}`. */
  function TallyBody(fields: seq<Json>): Body
  {
    ObjectBody(map["data" := JObject(map["fields" := JArray(fields)])])
  }

  /**
   * On the seeded store, a payload whose client_id is "Old School Boxing" and whose
   * step is "contract", each in any letter case, marks step "2" complete for that
   * client, keeps its step "1", and leaves the demo client alone.
   */
  lemma SeededContractWebhook(body: Body)
    requires ReadTally(body).Complete?
    requires EqualsIgnoreCase(ReadTally(body).clientId, "Old School Boxing")
    requires EqualsIgnoreCase(ReadTally(body).step, "contract")
    ensures Tally(Seed(), body)
            == (Seed()["client@oldschoolboxing.com" :=
                  Account("Old School Boxing", "client@oldschoolboxing.com", "boxer123",
                          map["1" := true, "2" := true])],
                WebhookSuccess)
  {
    var boxing := "client@oldschoolboxing.com";
    EqualsIgnoreCaseSymmetric(ReadTally(body).clientId, "Old School Boxing");
    MapStepToIdNamedStep(ReadTally(body).step, 0);
    TallyUpdatesMatchingClient(Seed(), body, boxing);
    var after := Tally(Seed(), body).0;
    var expected := Seed()[boxing := Account("Old School Boxing", boxing, "boxer123", map["1" := true, "2" := true])];
    assert after[boxing] == expected[boxing];
    assert after["demo@lovoson.com"] == expected["demo@lovoson.com"];
    assert after.Keys == expected.Keys;
  }

  /** The payload `{"data": {"fields": [client_id "Old School Boxing", step "contract"]}}` reads as both hidden fields. */
  lemma SeededContractRead()
    ensures ReadTally(TallyBody([Field("client_id", "Old School Boxing"), Field("step", "contract")]))
            == Complete("Old School Boxing", "contract")
  {
  }

  /** The seeded credentials log in; the demo password against the boxing email does not. */
  lemma SeededLogin()
    ensures Login(Seed(), CredentialsBody("client@oldschoolboxing.com", "boxer123"))
            == LoginSuccess("Old School Boxing")
    ensures Login(Seed(), CredentialsBody("client@oldschoolboxing.com", "lovoson2025"))
            == LoginUnauthorized
  {
  }
}
