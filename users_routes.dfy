/**
 * The `users` router: GET /me answers with the caller's client record under
 * friendly names, PATCH /me changes the caller's contact fields. The caller's
 * identity (`clerkUserId`) is supplied by the authentication layer, and the
 * PATCH body is the request's parsed JSON object.
 */
module UsersRoutes {
  import opened Json
  import opened QuickBase

  const ClientNotFound: string := "Client not found"
  const FetchFailed: string := "Failed to fetch user data"
  const UpdateFailed: string := "Failed to update user data"
  const ContactUpdated: string := "Contact information updated"

  datatype ResponseBody =
    | ErrorMessage(error: string)
    | ClientProfile(fields: map<string, Value>)
    | Updated(success: bool, message: string, data: Body)

  datatype HttpResponse = HttpResponse(status: int, body: ResponseBody)

  /** The friendly name of each client field in a GET /me response. */
  const ClientFieldIds: map<string, FieldId> :=
    map["recordId" := 3, "clerkId" := 6, "companyName" := 7, "email" := 8, "phone" := 9, "address" := 10]

  /** The contact keys PATCH /me forwards. */
  const ContactKeys: set<string> := {"email", "phone", "address"}

  // ------------------------------------------------------ client lookup

  /** How a handler reads the answer to the client query: a thrown error, no
      `data` or an empty `data` list, or the first row. */
  datatype Lookup = LookupFailed(error: Failure) | NotFound | Found(row: Row)

  function ClientLookup(fetched: Result<Body>): (l: Lookup)
    ensures l.LookupFailed? <==> fetched.Err?
    ensures l.LookupFailed? ==> l.error == fetched.error
    ensures l.NotFound? <==> fetched.Ok? && (fetched.value.data.None? || fetched.value.data.value == [])
    ensures l.Found? ==> fetched.value.data.Some? && |fetched.value.data.value| > 0 && l.row == fetched.value.data.value[0]
  {
    match fetched
    case Err(e) => LookupFailed(e)
    case Ok(body) =>
      if body.data.None? || |body.data.value| == 0 then NotFound else Found(body.data.value[0])
  }

  // ------------------------------------------------------------- GET /me

  /** Row 0 under friendly names; a TypeError when one of the six cells is
      missing. */
  function ClientProfileOf(row: Row): (r: Result<map<string, Value>>)
    ensures r.Ok? <==> forall name :: name in ClientFieldIds ==> ClientFieldIds[name] in row
    ensures r.Ok? ==> r.value.Keys == ClientFieldIds.Keys
    ensures r.Ok? ==> forall name :: name in r.value ==> r.value[name] == row[ClientFieldIds[name]]
    ensures r.Err? ==> r.error == TypeError
  {
    if forall name :: name in ClientFieldIds ==> ClientFieldIds[name] in row
    then Ok(map name | name in ClientFieldIds :: row[ClientFieldIds[name]])
    else Err(TypeError)
  }

  /** The friendly name of a client field id. */
  function FieldName(f: FieldId): (name: string)
    requires f in ClientFields
    ensures name in ClientFieldIds && ClientFieldIds[name] == f
  {
    if f == 3 then "recordId"
    else if f == 6 then "clerkId"
    else if f == 7 then "companyName"
    else if f == 8 then "email"
    else if f == 9 then "phone"
    else "address"
  }

  /** Translates a profile back to field ids. */
  function ProfileRow(profile: map<string, Value>): Row
  {
    map f | f in ClientFields && FieldName(f) in profile :: profile[FieldName(f)]
  }

  /** The friendly names cover exactly the fields the client query selects,
      one name per field. */
  lemma ClientFieldsAreSelected(clerkUserId: string)
    ensures forall name :: name in ClientFieldIds ==> ClientFieldIds[name] in ClientQuery(clerkUserId).select
    ensures forall f :: f in ClientQuery(clerkUserId).select ==> FieldName(f) in ClientFieldIds
    ensures forall name :: name in ClientFieldIds ==> FieldName(ClientFieldIds[name]) == name
  {
  }

  /** Round trip: a GET /me profile translates back, field for field, into the
      row restricted to the client query's select list; no selected field is
      dropped and nothing else appears. */
  lemma ProfileRoundTrip(row: Row, clerkUserId: string)
    requires ClientProfileOf(row).Ok?
    ensures ProfileRow(ClientProfileOf(row).value) == Project(row, ClientQuery(clerkUserId).select)
  {
    var profile := ClientProfileOf(row).value;
    var back, projected := ProfileRow(profile), Project(row, ClientQuery(clerkUserId).select);
    forall f | f in back ensures f in projected && back[f] == projected[f] {
      var name := FieldName(f);
      assert profile[name] == row[f];
    }
    forall f | f in projected ensures f in back {
      var name := FieldName(f);
      assert name in profile;
    }
  }

  /** The profile depends only on the cells the client query selects. */
  lemma ProfileUsesSelectedFields(row: Row, clerkUserId: string)
    ensures ClientProfileOf(Project(row, ClientQuery(clerkUserId).select)) == ClientProfileOf(row)
  {
    var projected := Project(row, ClientQuery(clerkUserId).select);
    forall name | name in ClientFieldIds ensures ClientFieldIds[name] in ClientFields {
    }
    if ClientProfileOf(row).Ok? {
      assert ClientProfileOf(projected).Ok?;
      var p1, p2 := ClientProfileOf(projected).value, ClientProfileOf(row).value;
      assert forall name :: name in p1 ==> p1[name] == p2[name];
      assert p1 == p2;
    }
  }

  /** No numeric field id is a key of a profile: every friendly name starts
      with a letter. */
  lemma ProfileKeysAreNames(row: Row)
    requires ClientProfileOf(row).Ok?
    ensures forall name :: name in ClientProfileOf(row).value ==> |name| > 0 && !('0' <= name[0] <= '9')
  {
  }

  /** The response of GET /me for the answer to the caller's client query. */
  function MeResponse(fetched: Result<Body>): (resp: HttpResponse)
    ensures resp.status == 200 || resp.status == 404 || resp.status == 500
    ensures resp.status == 404 <==> ClientLookup(fetched).NotFound?
    ensures resp.status == 200 <==> ClientLookup(fetched).Found? && ClientProfileOf(ClientLookup(fetched).row).Ok?
    ensures resp.status == 200 ==> resp.body == ClientProfile(ClientProfileOf(ClientLookup(fetched).row).value)
    ensures resp.status == 404 ==> resp.body == ErrorMessage(ClientNotFound)
    ensures resp.status == 500 ==> resp.body == ErrorMessage(FetchFailed)
  {
    match ClientLookup(fetched)
    case LookupFailed(_) => HttpResponse(500, ErrorMessage(FetchFailed))
    case NotFound => HttpResponse(404, ErrorMessage(ClientNotFound))
    case Found(row) =>
      match ClientProfileOf(row)
      case Err(_) => HttpResponse(500, ErrorMessage(FetchFailed))
      case Ok(profile) => HttpResponse(200, ClientProfile(profile))
  }

  /** GET /me: one client query for the caller's own identity, and nothing else. */
  method GetMe(env: Env, remote: RemoteStore, clerkUserId: string) returns (resp: HttpResponse)
    modifies remote
    ensures remote.log == old(remote.log) + [QueryRecords(ClientQuery(clerkUserId))]
    ensures resp == MeResponse(Received(remote.answer(old(remote.log), QueryRecords(ClientQuery(clerkUserId)))))
  {
    var qb := new QuickBaseService(env, remote);
    var clientData := qb.GetClientByClerkId(clerkUserId);
    if clientData.Err? {
      return HttpResponse(500, ErrorMessage(FetchFailed));
    }
    if clientData.value.data.None? || |clientData.value.data.value| == 0 {
      return HttpResponse(404, ErrorMessage(ClientNotFound));
    }
    var client := clientData.value.data.value[0];
    var profile := ClientProfileOf(client);
    if profile.Err? {
      return HttpResponse(500, ErrorMessage(FetchFailed));
    }
    resp := HttpResponse(200, ClientProfile(profile.value));
  }

  // ----------------------------------------------------------- PATCH /me

  /** Appends `key` with the body's value when the body holds a truthy value
      under it. */
  function CopyIfTruthy(allowed: Entries, updates: map<string, Value>, key: string): (r: Entries)
    ensures forall i :: 0 <= i < |r| ==> r[i].0 == key || (i < |allowed| && r[i] == allowed[i])
    ensures forall other ::
      Get(r, other) == (if other == key && key in updates && Truthy(updates[key]) then Some(updates[key]) else Get(allowed, other))
  {
    if key in updates && Truthy(updates[key]) then
      forall other ensures Get(allowed + [(key, updates[key])], other) ==
        (if other == key then Some(updates[key]) else Get(allowed, other))
      {
        GetAppend(allowed, key, updates[key], other);
      }
      allowed + [(key, updates[key])]
    else allowed
  }

  /** The value the pre-filter keeps under a contact key. */
  function Kept(updates: map<string, Value>, key: string): Option<Value>
  {
    if key in updates && Truthy(updates[key]) then Some(updates[key]) else None
  }

  /** The three contact keys are different strings. */
  lemma ContactKeysDistinct()
    ensures "email" != "phone" && "email" != "address" && "phone" != "address"
  {
    assert "email"[0] == 'e' && "phone"[0] == 'p' && "address"[0] == 'a';
  }

  /** After copying email: only email may be set, and as `Kept` says. */
  lemma EmailCopied(updates: map<string, Value>, withEmail: Entries)
    requires withEmail == CopyIfTruthy([], updates, "email")
    ensures forall i :: 0 <= i < |withEmail| ==> withEmail[i].0 in ContactKeys
    ensures Get(withEmail, "email") == Kept(updates, "email")
    ensures Get(withEmail, "phone") == None && Get(withEmail, "address") == None
  {
    ContactKeysDistinct();
  }

  /** Copying phone after email: email and phone are as `Kept` says, and
      address is still unset. */
  lemma PhoneCopied(updates: map<string, Value>, withEmail: Entries, withPhone: Entries)
    requires withPhone == CopyIfTruthy(withEmail, updates, "phone")
    requires forall i :: 0 <= i < |withEmail| ==> withEmail[i].0 in ContactKeys
    requires Get(withEmail, "email") == Kept(updates, "email")
    requires Get(withEmail, "phone") == None && Get(withEmail, "address") == None
    ensures forall i :: 0 <= i < |withPhone| ==> withPhone[i].0 in ContactKeys
    ensures Get(withPhone, "email") == Kept(updates, "email")
    ensures Get(withPhone, "phone") == Kept(updates, "phone")
    ensures Get(withPhone, "address") == None
  {
    ContactKeysDistinct();
  }

  /** Copying address after phone: all three keys are as `Kept` says. */
  lemma AddressCopied(updates: map<string, Value>, withPhone: Entries, withAddress: Entries)
    requires withAddress == CopyIfTruthy(withPhone, updates, "address")
    requires forall i :: 0 <= i < |withPhone| ==> withPhone[i].0 in ContactKeys
    requires Get(withPhone, "email") == Kept(updates, "email")
    requires Get(withPhone, "phone") == Kept(updates, "phone")
    requires Get(withPhone, "address") == None
    ensures forall i :: 0 <= i < |withAddress| ==> withAddress[i].0 in ContactKeys
    ensures Get(withAddress, "email") == Kept(updates, "email")
    ensures Get(withAddress, "phone") == Kept(updates, "phone")
    ensures Get(withAddress, "address") == Kept(updates, "address")
  {
    ContactKeysDistinct();
  }

  /** The three copies in turn: each contact key ends up with what `Kept`
      says, one key at a time. */
  lemma CopiedContacts(updates: map<string, Value>, withEmail: Entries, withPhone: Entries, withAddress: Entries)
    requires withEmail == CopyIfTruthy([], updates, "email")
    requires withPhone == CopyIfTruthy(withEmail, updates, "phone")
    requires withAddress == CopyIfTruthy(withPhone, updates, "address")
    ensures forall i :: 0 <= i < |withAddress| ==> withAddress[i].0 in ContactKeys
    ensures forall key :: key in ContactKeys ==> Get(withAddress, key) == Kept(updates, key)
  {
    EmailCopied(updates, withEmail);
    PhoneCopied(updates, withEmail, withPhone);
    AddressCopied(updates, withPhone, withAddress);
    forall key | key in ContactKeys
      ensures Get(withAddress, key) == Kept(updates, key)
    {
      assert key == "email" || key == "phone" || key == "address";
    }
  }

  /** The `allowedUpdates` object PATCH /me builds from the request body. */
  function ContactPatch(updates: map<string, Value>): (allowed: Entries)
    ensures forall i :: 0 <= i < |allowed| ==> allowed[i].0 in ContactKeys
    ensures forall key :: key in ContactKeys ==>
      Get(allowed, key) == if key in updates && Truthy(updates[key]) then Some(updates[key]) else None
  {
    var withEmail := CopyIfTruthy([], updates, "email");
    var withPhone := CopyIfTruthy(withEmail, updates, "phone");
    var withAddress := CopyIfTruthy(withPhone, updates, "address");
    CopiedContacts(updates, withEmail, withPhone, withAddress);
    withAddress
  }

  /** The `allowedUpdates` object, built by conditional assignments one
      contact key at a time. */
  method FilterContactUpdates(updates: map<string, Value>) returns (allowedUpdates: Entries)
    ensures allowedUpdates == ContactPatch(updates)
  {
    allowedUpdates := [];
    if "email" in updates && Truthy(updates["email"]) {
      allowedUpdates := allowedUpdates + [("email", updates["email"])];
    }
    ghost var withEmail := allowedUpdates;
    assert withEmail == CopyIfTruthy([], updates, "email");
    if "phone" in updates && Truthy(updates["phone"]) {
      allowedUpdates := allowedUpdates + [("phone", updates["phone"])];
    }
    ghost var withPhone := allowedUpdates;
    assert withPhone == CopyIfTruthy(withEmail, updates, "phone");
    if "address" in updates && Truthy(updates["address"]) {
      allowedUpdates := allowedUpdates + [("address", updates["address"])];
    }
    assert allowedUpdates == CopyIfTruthy(withPhone, updates, "address");
  }

  /** The handler forwards the same three keys the service whitelists. */
  lemma ContactKeysAreWhitelisted()
    ensures forall key :: key in ContactKeys <==> key in AllowedFields
  {
  }

  /** The upsert PATCH /me sends, if any: only once the caller's own client
      row is found and has a record id, and then for that record id. */
  function ContactWrite(lookup: Lookup, updates: map<string, Value>): (w: Option<Upsert>)
    ensures w.Some? <==> lookup.Found? && RecordIdField in lookup.row
    ensures w.Some? ==> w.value == ContactUpsert(lookup.row[RecordIdField], ContactPatch(updates))
  {
    match lookup
    case Found(row) =>
      if RecordIdField in row then Some(ContactUpsert(row[RecordIdField], ContactPatch(updates))) else None
    case _ => None
  }

  /** What PATCH /me writes: the record id of the caller's own row under
      field 3, and under each contact field the body's value exactly when that
      value is truthy; no other field. */
  lemma ContactWriteFields(lookup: Lookup, updates: map<string, Value>)
    requires ContactWrite(lookup, updates).Some?
    ensures var w := ContactWrite(lookup, updates).value;
      w.to == ClientsTable && |w.data| == 1 &&
      w.data[0][RecordIdField] == lookup.row[RecordIdField] &&
      (forall f :: f in w.data[0] ==> f == RecordIdField || f in AllowedFields.Values) &&
      (forall key :: key in AllowedFields ==>
        (AllowedFields[key] in w.data[0] <==> key in updates && Truthy(updates[key])) &&
        (AllowedFields[key] in w.data[0] ==> w.data[0][AllowedFields[key]] == updates[key]))
  {
    var w := ContactWrite(lookup, updates).value;
    forall key | key in AllowedFields
      ensures (AllowedFields[key] in w.data[0] <==> key in updates && Truthy(updates[key]))
      ensures (AllowedFields[key] in w.data[0] ==> w.data[0][AllowedFields[key]] == updates[key])
    {
      assert key in ContactKeys;
    }
  }

  /** The response of PATCH /me once the upsert has been answered. */
  function PatchedResponse(written: Result<Body>): (resp: HttpResponse)
    ensures resp.status == 200 <==> written.Ok?
    ensures written.Ok? ==> resp.body == Updated(true, ContactUpdated, written.value)
    ensures written.Err? ==> resp == HttpResponse(500, ErrorMessage(UpdateFailed))
  {
    match written
    case Ok(result) => HttpResponse(200, Updated(true, ContactUpdated, result))
    case Err(_) => HttpResponse(500, ErrorMessage(UpdateFailed))
  }

  /** PATCH /me: the caller's client query, then at most one upsert. Without
      a client row nothing is written and the answer is 404; any failure
      before the write leaves it unsent and answers 500. */
  method PatchMe(env: Env, remote: RemoteStore, clerkUserId: string, updates: map<string, Value>) returns (resp: HttpResponse)
    modifies remote
    ensures var lookupQuery := QueryRecords(ClientQuery(clerkUserId));
      var lookup := ClientLookup(Received(remote.answer(old(remote.log), lookupQuery)));
      match ContactWrite(lookup, updates)
      case None =>
        remote.log == old(remote.log) + [lookupQuery] &&
        resp == (if lookup.NotFound? then HttpResponse(404, ErrorMessage(ClientNotFound))
                 else HttpResponse(500, ErrorMessage(UpdateFailed)))
      case Some(w) =>
        remote.log == old(remote.log) + [lookupQuery, UpsertRecords(w)] &&
        resp == PatchedResponse(Received(remote.answer(old(remote.log) + [lookupQuery], UpsertRecords(w))))
  {
    var qb := new QuickBaseService(env, remote);
    var clientData := qb.GetClientByClerkId(clerkUserId);
    if clientData.Err? {
      return HttpResponse(500, ErrorMessage(UpdateFailed));
    }
    if clientData.value.data.None? || |clientData.value.data.value| == 0 {
      return HttpResponse(404, ErrorMessage(ClientNotFound));
    }
    var client := clientData.value.data.value[0];
    if RecordIdField !in client {
      return HttpResponse(500, ErrorMessage(UpdateFailed));
    }
    var clientRecordId := client[RecordIdField];

    var allowedUpdates := FilterContactUpdates(updates);
    var result := qb.UpdateClientContact(clientRecordId, allowedUpdates);
    resp := PatchedResponse(result);
  }

  /** The client row of identity "user_abc": record 42. */
  const ScenarioRow: Row := map[3 := Num(42), 6 := Str("user_abc")]

  /** A PATCH body with a new phone number and an unknown key. */
  const ScenarioBody: map<string, Value> := map["phone" := Str("555-1111"), "bogus" := Str("x")]

  /** The pre-filter keeps only the phone number from that body. */
  lemma ScenarioPatchStep()
    ensures ContactPatch(ScenarioBody) == [("phone", Str("555-1111"))]
  {
    assert "email" !in ScenarioBody;
    assert "address" !in ScenarioBody;
    assert CopyIfTruthy([], ScenarioBody, "email") == [];
    assert CopyIfTruthy([], ScenarioBody, "phone") == [("phone", Str("555-1111"))];
  }

  /** The contact row for record 42 and the filtered body. */
  lemma ScenarioRowStep()
    ensures ContactRow(Num(42), [("phone", Str("555-1111"))]) == map[3 := Num(42), 9 := Str("555-1111")]
  {
    var phone := ("phone", Str("555-1111"));
    assert [phone][..0] == [];
    assert Whitelisted([phone]) == map[9 := Str("555-1111")];
  }

  /** For that row and body, PATCH /me writes the record id and the phone
      field and nothing else; the unknown key is not forwarded. */
  lemma ScenarioWrite()
    ensures ContactWrite(Found(ScenarioRow), ScenarioBody) ==
      Some(Upsert("bq7xyz123", [map[3 := Num(42), 9 := Str("555-1111")]]))
  {
    ScenarioPatchStep();
    ScenarioRowStep();
  }

  /** The same request end to end: the second call to the store is that
      write, and the handler answers 200 once the store acknowledges it. */
  method PatchScenario() returns (written: Request, resp: HttpResponse)
    ensures written == UpsertRecords(Upsert("bq7xyz123", [map[3 := Num(42), 9 := Str("555-1111")]]))
    ensures resp.status == 200
  {
    var remote := new RemoteStore(
      (sent: seq<Request>, req: Request) =>
        if req.QueryRecords? then Reply(200, Body(Some([ScenarioRow]), [])) else Reply(200, Body(None, [])));
    ScenarioWrite();
    resp := PatchMe(Env("realm", "token"), remote, "user_abc", ScenarioBody);
    written := remote.log[1];
  }
}
