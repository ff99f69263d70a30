/**
 * The mutable store of Main.java: Client objects whose progress map is updated
 * in place, and the handlers as methods on the store, each proved to agree
 * with the value-level model in module Portal.
 */
module Server {
  import opened Wrappers
  import opened Ascii
  import opened Gson
  import opened Steps
  import opened TallyPayload
  import Portal

  /** Main.Client. Only `progress` ever changes after construction. */
  class Client {
    const businessName: string
    const email: string
    const password: string
    var progress: map<string, bool>

    constructor (businessName: string, email: string, password: string)
      ensures this.businessName == businessName && this.email == email && this.password == password
      ensures progress == map[]
    {
      this.businessName := businessName;
      this.email := email;
      this.password := password;
      progress := map[];
    }

    /** An upsert into the progress map. */
    method SetProgress(stepId: string, isComplete: bool)
      modifies this
      ensures progress == old(progress)[stepId := isComplete]
    {
      progress := progress[stepId := isComplete];
    }

    ghost function View(): Portal.Account
      reads this
    {
      Portal.Account(businessName, email, password, progress)
    }
  }

  /** clientDatabase, with the handlers that use it. */
  class Store {
    const clients: map<string, Client>

    /** The store as a value. */
    ghost function Snapshot(): Portal.Db
      reads clients.Values
    {
      map e | e in clients :: clients[e].View()
    }

    /** Distinct emails hold distinct Client objects, and the store is well formed. */
    ghost predicate Valid()
      reads clients.Values
    {
      && (forall e1, e2 :: e1 in clients && e2 in clients && e1 != e2 ==> clients[e1] != clients[e2])
      && Portal.WellFormed(Snapshot())
    }

    /** The static initialiser: the two seeded clients, the first with step "1" complete. */
    constructor ()
      ensures Valid()
      ensures Snapshot() == Portal.Seed()
    {
      var c1 := new Client("Old School Boxing", "client@oldschoolboxing.com", "boxer123");
      c1.SetProgress("1", true);
      var c2 := new Client("Demo Client", "demo@lovoson.com", "lovoson2025");
      clients := map[c1.email := c1, c2.email := c2];
      new;
      var boxing, demo := "client@oldschoolboxing.com", "demo@lovoson.com";
      assert boxing != demo;
      assert clients.Keys == {boxing, demo};
      assert Snapshot()[boxing] == Portal.Seed()[boxing];
      assert Snapshot()[demo] == Portal.Seed()[demo];
      assert Snapshot().Keys == Portal.Seed().Keys;
      assert Snapshot() == Portal.Seed();
      assert Portal.WellFormed(Snapshot());
      assert clients[boxing] != clients[demo];
    }

    /** POST /api/login: reads the store and changes nothing. */
    method Login(body: Body) returns (r: Portal.LoginReply)
      ensures r == Portal.Login(Snapshot(), body)
    {
      if body.NullBody? || (body.ObjectBody? && ("email" !in body.members || "password" !in body.members)) {
        return Portal.LoginBadRequest;
      }
      if body.Unparsable? {
        return Portal.LoginServerError;
      }
      var email := AsString(body.members["email"]);
      var password := AsString(body.members["password"]);
      if email.Thrown? || password.Thrown? {
        return Portal.LoginServerError;
      }
      if email.value in clients {
        var client := clients[email.value];
        if client.password == password.value {
          return Portal.LoginSuccess(client.businessName);
        }
      }
      return Portal.LoginUnauthorized;
    }

    /** GET /api/client-progress: the first client (in the map's iteration order) whose name matches; changes nothing. */
    method ClientProgress(client: Option<string>) returns (r: Portal.ProgressReply)
      requires Valid()
      ensures r == Portal.ClientProgress(Snapshot(), client)
    {
      if client.None? || client.value == "" {
        return Portal.ProgressBadRequest;
      }
      var name := client.value;
      var foundClient: Client? := null;
      ghost var foundEmail := "";
      var remaining := clients.Keys;
      while remaining != {}
        invariant remaining <= clients.Keys
        invariant foundClient == null
        invariant forall e :: e in clients.Keys - remaining ==> !EqualsIgnoreCase(clients[e].businessName, name)
        decreases remaining
      {
        var e :| e in remaining;
        var c := clients[e];
        if EqualsIgnoreCase(c.businessName, name) {
          foundClient, foundEmail := c, e;
          break;
        }
        remaining := remaining - {e};
      }
      if foundClient != null {
        Portal.FindByNameUnique(Snapshot(), name, foundEmail);
        r := Portal.ProgressMap(foundClient.progress);
      } else {
        r := Portal.ProgressMap(map[]);
      }
    }

    /** POST /api/webhook/tally: at most one client's progress changes, as Portal.Tally says. */
    method Tally(body: Body) returns (r: Portal.WebhookReply)
      requires Valid()
      modifies clients.Values
      ensures Valid()
      ensures (Snapshot(), r) == Portal.Tally(old(Snapshot()), body)
    {
      var extraction := ReadTallyPayload(body);
      if extraction.Malformed? {
        return Portal.WebhookFailed;
      }
      if extraction.Incomplete? {
        return Portal.WebhookIgnored;
      }
      var updated := MarkStepComplete(extraction.clientId, extraction.step);
      r := if updated then Portal.WebhookSuccess else Portal.WebhookIgnored;
    }

    /**
     * The loop over the clients (lines 173-182): the first client whose name matches
     * `clientId` ignoring case gets mapStepToId(stepId) set to true. The source updates
     * inside the loop and returns; here the loop stops at the match and the update follows it.
     */
    method MarkStepComplete(clientId: string, stepId: string) returns (updated: bool)
      requires Valid()
      modifies clients.Values
      ensures Valid()
      ensures updated <==> Portal.FindByName(old(Snapshot()), clientId).Some?
      ensures Snapshot()
              == if updated
                 then Portal.SetProgress(old(Snapshot()), Portal.FindByName(old(Snapshot()), clientId).value,
                                         MapStepToId(Some(stepId)), true)
                 else old(Snapshot())
    {
      var found: Client? := null;
      ghost var foundEmail := "";
      var remaining := clients.Keys;
      while remaining != {}
        invariant remaining <= clients.Keys
        invariant found == null
        invariant forall e :: e in clients.Keys - remaining ==> !EqualsIgnoreCase(clients[e].businessName, clientId)
        decreases remaining
      {
        var e :| e in remaining;
        var c := clients[e];
        if EqualsIgnoreCase(c.businessName, clientId) {
          found, foundEmail := c, e;
          break;
        }
        remaining := remaining - {e};
      }
      if found == null {
        return false;
      }
      ghost var before := Snapshot();
      Portal.FindByNameUnique(before, clientId, foundEmail);
      var numericStepId := MapStepToId(Some(stepId));
      found.SetProgress(numericStepId, true);
      ghost var after := Portal.SetProgress(before, foundEmail, numericStepId, true);
      assert Snapshot() == after;
      Portal.FindByNameSameNames(before, after, clientId);
      return true;
    }
  }
}
