/**
 * Reading a Tally webhook payload `{ data: { fields: [ {key, value}, ... ] } }`:
 * the loop over `fields` that keeps the last non-null `client_id` and `step`,
 * and the shape checks around it (Main.java, the /api/webhook/tally handler).
 */
module TallyPayload {
  import opened Wrappers
  import opened Gson

  /** The two hidden fields as the loop's locals hold them; None is Java's null. */
  datatype Found = Found(clientId: Option<string>, step: Option<string>)

  const NothingFound := Found(None, None)

  /** What the handler learned from the payload before looking for a client. */
  datatype Extraction =
    | Malformed                                // Gson threw: the handler answers 500
    | Incomplete                               // a shape check or a hidden field is missing: "ignored"
    | Complete(clientId: string, step: string)

  /** One iteration of the loop over `fields`. */
  function ScanField(acc: Found, field: Json): (r: Result<Found>)
    ensures r.Thrown? <==> Faulty(field)
    ensures r.Ok? ==>
      r.value == Found(Latest(Supplied(field, "client_id"), acc.clientId),
                       Latest(Supplied(field, "step"), acc.step))
  {
    match field
    case JObject(m) =>
      if "key" in m && "value" in m then
        match AsString(m["key"])
        case Thrown => Thrown
        case Ok(key) =>
          if m["value"].JNull? then Ok(acc)
          else
            match AsString(m["value"])
            case Thrown => Thrown
            case Ok(value) =>
              Ok(Found(if key == "client_id" then Some(value) else acc.clientId,
                       if key == "step" then Some(value) else acc.step))
      else Ok(acc)
    case _ => Thrown   // getAsJsonObject on an element that is not an object
  }

  /** The loop from state `acc` over `fields`; once Gson has thrown nothing more happens. */
  function Scan(acc: Result<Found>, fields: seq<Json>): (r: Result<Found>)
    ensures acc.Thrown? ==> r == Thrown
    ensures r.Ok? ==> acc.Ok? && Provenance(acc.value.clientId, r.value.clientId, fields, "client_id")
    ensures r.Ok? ==> acc.Ok? && Provenance(acc.value.step, r.value.step, fields, "step")
    decreases |fields|
  {
    if fields == [] || acc.Thrown? then acc
    else
      var r := Scan(ScanField(acc.value, fields[0]), fields[1..]);
      assert forall i :: 0 <= i < |fields[1..]| ==> fields[1..][i] == fields[i + 1];
      r
  }

  /** A local ends the scan holding the value it started with, or the value some record supplied for its key. */
  predicate Provenance(before: Option<string>, after: Option<string>, fields: seq<Json>, key: string)
  {
    after == before || exists i :: 0 <= i < |fields| && Supplied(fields[i], key) == after
  }

  /** The scan that the handler starts with both locals null: it throws exactly when some record is faulty, and otherwise holds the last value supplied for each key. */
  function ScanFields(fields: seq<Json>): (r: Result<Found>)
    ensures r.Thrown? <==> exists i :: 0 <= i < |fields| && Faulty(fields[i])
    ensures r.Ok? ==> r.value == Found(LastSupplied(fields, "client_id"), LastSupplied(fields, "step"))
  {
    ScanKeepsLastSupplied(NothingFound, fields);
    Scan(Ok(NothingFound), fields)
  }

  /** The loop of lines 145-167, iterating over the array and stopping at the first exception. */
  method ExtractHiddenFields(fields: seq<Json>) returns (r: Result<Found>)
    ensures r == ScanFields(fields)
  {
    var clientId: Option<string> := None;
    var stepId: Option<string> := None;
    var i := 0;
    while i < |fields|
      invariant 0 <= i <= |fields|
      invariant Scan(Ok(Found(clientId, stepId)), fields[i..]) == ScanFields(fields)
    {
      var field := fields[i];
      assert fields[i..][1..] == fields[i + 1..];
      if !field.JObject? {
        return Thrown;
      }
      if "key" in field.members && "value" in field.members {
        var keyElem := AsString(field.members["key"]);
        if keyElem.Thrown? {
            return Thrown;
        }
        var key := keyElem.value;
        var valueElem := field.members["value"];
        if !valueElem.JNull? {
          var value := AsString(valueElem);
          if value.Thrown? {
                return Thrown;
          }
          if key == "client_id" {
            clientId := Some(value.value);
          }
          if key == "step" {
            stepId := Some(value.value);
          }
        }
      }
      i := i + 1;
    }
    r := Ok(Found(clientId, stepId));
  }

  /** Lines 140-169: the shape checks, the scan, and whether both hidden fields were found. */
  function ReadTally(body: Body): (x: Extraction)
    ensures body.NullBody? || body.Unparsable? ==> x == Malformed
    ensures body.ObjectBody? && "data" !in body.members ==> x == Incomplete
    ensures body.ObjectBody? && "data" in body.members && body.members["data"].JObject?
            && "fields" !in body.members["data"].members
            ==> x == Incomplete
    ensures body.ObjectBody? && "data" in body.members && !body.members["data"].JObject?
            ==> x == Malformed
    ensures body.ObjectBody? && "data" in body.members && body.members["data"].JObject?
            && "fields" in body.members["data"].members && !body.members["data"].members["fields"].JArray?
            ==> x == Malformed
  {
    match body
    case NullBody => Malformed        // json.has on a null reference
    case Unparsable => Malformed
    case ObjectBody(json) =>
      if "data" !in json then Incomplete
      else if !json["data"].JObject? then Malformed
      else
        var data := json["data"].members;
        if "fields" !in data then Incomplete
        else if !data["fields"].JArray? then Malformed
        else
          match ScanFields(data["fields"].items)
          case Thrown => Malformed
          case Ok(Found(Some(clientId), Some(step))) => Complete(clientId, step)
          case Ok(_) => Incomplete
  }

  /** ReadTally computed with the loop, as the handler does. */
  method ReadTallyPayload(body: Body) returns (x: Extraction)
    ensures x == ReadTally(body)
  {
    if !body.ObjectBody? {
      return Malformed;
    }
    var json := body.members;
    if "data" !in json {
      return Incomplete;
    }
    if !json["data"].JObject? {
      return Malformed;
    }
    var data := json["data"].members;
    if "fields" !in data {
      return Incomplete;
    }
    if !data["fields"].JArray? {
      return Malformed;
    }
    var found := ExtractHiddenFields(data["fields"].items);
    match found {
      case Thrown => x := Malformed;
      case Ok(Found(Some(clientId), Some(step))) => x := Complete(clientId, step);
      case Ok(_) => x := Incomplete;
    }
  }

  // ----- properties of the scan -----


  /** Scanning a concatenation is scanning the second part from where the first left off. */
  lemma {:induction false} ScanAppend(acc: Result<Found>, a: seq<Json>, b: seq<Json>)
    ensures Scan(acc, a + b) == Scan(Scan(acc, a), b)
    decreases |a|
  {
    if a == [] {
      assert a + b == b;
    } else if acc.Thrown? {
    } else {
      assert (a + b)[1..] == a[1..] + b;
      ScanAppend(ScanField(acc.value, a[0]), a[1..], b);
    }
  }

  /** Scanning one more field applies one more iteration. */
  lemma ScanSnoc(acc: Result<Found>, a: seq<Json>, f: Json)
    ensures Scan(acc, a + [f]) == if Scan(acc, a).Thrown? then Thrown else ScanField(Scan(acc, a).value, f)
  {
    ScanAppend(acc, a, [f]);
    var mid := Scan(acc, a);
    if mid.Ok? {
      assert Scan(mid, [f]) == Scan(ScanField(mid.value, f), []);
    }
  }

  /** A record the loop passes over: an object lacking `key` or `value`, or whose value is JSON null (and whose key reads as a string). */
  predicate Skipped(field: Json)
  {
    field.JObject?
    && ("key" !in field.members || "value" !in field.members
        || (AsString(field.members["key"]).Ok? && field.members["value"].JNull?))
  }

  /** A record that makes Gson throw: not an object, or a key or non-null value that is not string-like. */
  predicate Faulty(field: Json)
  {
    !field.JObject?
    || ("key" in field.members && "value" in field.members
        && (AsString(field.members["key"]).Thrown?
            || (!field.members["value"].JNull? && AsString(field.members["value"]).Thrown?)))
  }

  /** The value a record supplies for `key`, if it sets that local. */
  function Supplied(field: Json, key: string): (v: Option<string>)
    ensures v.Some? ==> !Skipped(field) && !Faulty(field)
  {
    if field.JObject? && "key" in field.members && "value" in field.members
       && AsString(field.members["key"]) == Ok(key)
       && !field.members["value"].JNull? && AsString(field.members["value"]).Ok?
    then Some(AsString(field.members["value"]).value)
    else None
  }

  /** Reference definition: the value of the last record whose key is `key` and whose value is not null. */
  function LastSupplied(fields: seq<Json>, key: string): Option<string>
    decreases |fields|
  {
    if fields == [] then None
    else if Supplied(fields[|fields| - 1], key).Some? then Supplied(fields[|fields| - 1], key)
    else LastSupplied(fields[..|fields| - 1], key)
  }

  function Latest(later: Option<string>, earlier: Option<string>): Option<string>
  {
    if later.Some? then later else earlier
  }

  /**
   * The loop keeps, for each hidden field, the value of the LAST record that
   * supplies it, or what it held before when no record does; it throws exactly
   * when some record is faulty.
   */
  lemma {:induction false} ScanKeepsLastSupplied(acc: Found, fields: seq<Json>)
    ensures Scan(Ok(acc), fields).Thrown? <==> exists i :: 0 <= i < |fields| && Faulty(fields[i])
    ensures Scan(Ok(acc), fields).Ok? ==>
      Scan(Ok(acc), fields).value
        == Found(Latest(LastSupplied(fields, "client_id"), acc.clientId),
                 Latest(LastSupplied(fields, "step"), acc.step))
    decreases |fields|
  {
    if fields != [] {
      var n := |fields| - 1;
      var front, last := fields[..n], fields[n];
      assert fields == front + [last];
      ScanKeepsLastSupplied(acc, front);
      ScanSnoc(Ok(acc), front, last);
      if Scan(Ok(acc), front).Thrown? {
        var i :| 0 <= i < |front| && Faulty(front[i]);
        assert fields[i] == front[i];
      } else {
        forall i | 0 <= i < n
          ensures !Faulty(fields[i])
        {
          assert fields[i] == front[i];
        }
      }
    }
  }


  /** A skipped record never affects the outcome, wherever it stands in the array. */
  lemma SkippedFieldIrrelevant(a: seq<Json>, field: Json, b: seq<Json>)
    requires Skipped(field)
    ensures ScanFields(a + [field] + b) == ScanFields(a + b)
  {
    ScanAppend(Ok(NothingFound), a + [field], b);
    ScanAppend(Ok(NothingFound), a, b);
    ScanSnoc(Ok(NothingFound), a, field);
  }

  /**
   * For a payload whose data.fields is an array: the read is malformed exactly when
   * some record is faulty, and otherwise complete exactly when both hidden fields
   * are supplied, carrying the last value supplied for each.
   */
  lemma ReadTallyUsesLastSupplied(body: Body, fields: seq<Json>)
    requires body.ObjectBody? && "data" in body.members && body.members["data"].JObject?
    requires "fields" in body.members["data"].members
    requires body.members["data"].members["fields"] == JArray(fields)
    ensures ReadTally(body).Malformed? <==> exists i :: 0 <= i < |fields| && Faulty(fields[i])
    ensures !ReadTally(body).Malformed? ==>
      (ReadTally(body).Complete? <==> LastSupplied(fields, "client_id").Some? && LastSupplied(fields, "step").Some?)
    ensures ReadTally(body).Complete? ==>
      Some(ReadTally(body).clientId) == LastSupplied(fields, "client_id")
      && Some(ReadTally(body).step) == LastSupplied(fields, "step")
  {
  }
}
