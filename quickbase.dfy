/**
 * The record-store access layer: the query and upsert payloads the service
 * builds for the Clients and Vessels tables, the contact-field whitelist,
 * the ownership check in front of a vessel status change, and the service
 * object that sends every payload to the remote store.
 *
 * Rows are maps from numeric field id to the cell's value: the store's JSON
 * keys are the decimal spellings of these ids and each cell is an object
 * `{ value: v }`, read here as `v` itself.
 */
module QuickBase {
  import opened Json

  type FieldId = nat
  type Row = map<FieldId, Value>

  const ClientsTable: string := "bq7xyz123"
  const VesselsTable: string := "bq8abc456"

  /** The store-assigned record id, in both tables. */
  const RecordIdField: FieldId := 3
  /** Clients: the identity provider's user id. */
  const ClerkIdField: FieldId := 6
  /** Vessels: the record id of the owning client. */
  const OwnerField: FieldId := 7
  /** Vessels: the active/inactive status. */
  const ActiveField: FieldId := 12

  datatype Query = Query(from: string, where: string, select: seq<FieldId>)
  datatype Upsert = Upsert(to: string, data: seq<Row>)

  /** A call to the store: `POST /records/query` or `POST /records`. */
  datatype Request = QueryRecords(query: Query) | UpsertRecords(upsert: Upsert)

  /** The store's JSON answer: its `data` list, which may be missing and is
      the only part the service reads, and every other top-level member
      (`fields`, `metadata`, ...), carried along unread. */
  datatype Body = Body(data: Option<seq<Row>>, rest: seq<(string, Json)>)
  datatype Reply = Reply(status: int, body: Body)

  /** What the service throws: an HTTP failure of the store, the ownership
      refusal, and the TypeError of reading a property of `undefined`. */
  datatype Failure = RemoteStoreError(status: int) | Unauthorized | TypeError
  datatype Result<+T> = Ok(value: T) | Err(error: Failure)

  /** A store reply as `makeRequest` returns it: the body when the status is
      a success (2xx), otherwise an error carrying the status. */
  function Received(reply: Reply): (r: Result<Body>)
    ensures r.Ok? <==> 200 <= reply.status <= 299
    ensures r.Ok? ==> r.value == reply.body
    ensures r.Err? ==> r.error == RemoteStoreError(reply.status)
  {
    if 200 <= reply.status <= 299 then Ok(reply.body) else Err(RemoteStoreError(reply.status))
  }

  /** The cells of `row` whose field ids are in `fields`. */
  function Project(row: Row, fields: seq<FieldId>): (r: Row)
    ensures r.Keys <= row.Keys
    ensures forall f :: f in r ==> r[f] == row[f]
    ensures forall f :: f in row && f in fields ==> f in r
  {
    map f | f in row && f in fields :: row[f]
  }

  // ---------------------------------------------------------------- queries

  /** The fields of a client record: id, identity, company name, email,
      phone, address. */
  const ClientFields: seq<FieldId> := [RecordIdField, ClerkIdField, 7, 8, 9, 10]

  /** The filter that holds when field `field` equals `operand` (`EX`). */
  function EqualsFilter(field: FieldId, operand: string): string
  {
    "{" + Decimal(field) + ".EX." + operand + "}"
  }

  /** The Clients row of one identity: the identity field equals `clerkUserId`
      (interpolated as is, between quotes), selecting the six client fields. */
  function ClientQuery(clerkUserId: string): (q: Query)
    ensures q.from == ClientsTable
    ensures q.where == EqualsFilter(ClerkIdField, "'" + clerkUserId + "'")
    ensures q.select == ClientFields && RecordIdField in q.select
  {
    Query(ClientsTable, "{6.EX.'" + clerkUserId + "'}", ClientFields)
  }

  /** The Vessels rows whose owner field equals `clientRecordId`. The owner
      itself is not selected; the record id and the status are. */
  function VesselsQuery(clientRecordId: Value): (q: Query)
    ensures q.from == VesselsTable
    ensures q.where == EqualsFilter(OwnerField, Show(clientRecordId))
    ensures RecordIdField in q.select && ActiveField in q.select && OwnerField !in q.select
  {
    Query(VesselsTable, "{7.EX." + Show(clientRecordId) + "}", [RecordIdField, 6, 8, 9, 10, 11, ActiveField])
  }

  /** One vessel by record id, selecting only its id and its owner. */
  function VesselQuery(vesselRecordId: Value): (q: Query)
    ensures q.from == VesselsTable
    ensures q.where == EqualsFilter(RecordIdField, Show(vesselRecordId))
    ensures forall f :: f in q.select <==> f == RecordIdField || f == OwnerField
  {
    Query(VesselsTable, "{3.EX." + Show(vesselRecordId) + "}", [RecordIdField, OwnerField])
  }

  // ------------------------------------------------------- contact upserts

  /** The contact fields a client may change, by name. */
  const AllowedFields: map<string, FieldId> := map["email" := 8, "phone" := 9, "address" := 10]

  /** The accumulator of the whitelist fold after the given entries: each
      whitelisted key sets its field id to its value, other keys are skipped. */
  function Whitelisted(updates: Entries): map<FieldId, Value>
    decreases |updates|
  {
    if updates == [] then map[]
    else
      var acc := Whitelisted(updates[..|updates| - 1]);
      var (key, value) := updates[|updates| - 1];
      if key in AllowedFields then acc[AllowedFields[key] := value] else acc
  }

  /** Only whitelisted field ids come out of the fold. */
  lemma {:induction false} WhitelistedFieldIds(updates: Entries)
    ensures forall f :: f in Whitelisted(updates) ==> f in AllowedFields.Values
    decreases |updates|
  {
    if updates != [] {
      WhitelistedFieldIds(updates[..|updates| - 1]);
    }
  }

  /** Each whitelisted key that the updates hold sets its field to exactly the
      supplied value; a whitelisted key they do not hold leaves its field out. */
  lemma {:induction false} WhitelistedValues(updates: Entries)
    ensures forall key :: key in AllowedFields ==>
      (AllowedFields[key] in Whitelisted(updates) <==> Get(updates, key).Some?) &&
      (Get(updates, key).Some? ==> Whitelisted(updates)[AllowedFields[key]] == Get(updates, key).value)
    decreases |updates|
  {
    if updates != [] {
      WhitelistedValues(updates[..|updates| - 1]);
    }
  }

  /** Keys outside the whitelist never reach the fold's result: two update
      objects that agree on the three whitelisted keys give the same fields. */
  lemma WhitelistIgnoresOtherKeys(u1: Entries, u2: Entries)
    requires forall key :: key in AllowedFields ==> Get(u1, key) == Get(u2, key)
    ensures Whitelisted(u1) == Whitelisted(u2)
  {
    WhitelistedFieldIds(u1);
    WhitelistedFieldIds(u2);
    WhitelistedValues(u1);
    WhitelistedValues(u2);
    var w1, w2 := Whitelisted(u1), Whitelisted(u2);
    forall f | f in w1 ensures f in w2 && w1[f] == w2[f] {
      var key :| key in AllowedFields && AllowedFields[key] == f;
    }
    forall f | f in w2 ensures f in w1 {
      var key :| key in AllowedFields && AllowedFields[key] == f;
    }
  }

  /** No whitelisted name maps onto the record-id field. */
  lemma RecordIdNotUpdatable()
    ensures forall key :: key in AllowedFields ==> AllowedFields[key] != RecordIdField
  {
  }

  /** The row `updateClientContact` sends: the record id under field 3, then
      the whitelisted updates spread over it. */
  function ContactRow(clientRecordId: Value, updates: Entries): (row: Row)
    ensures RecordIdField in row && row[RecordIdField] == clientRecordId
    ensures forall f :: f in row && f != RecordIdField ==> f in AllowedFields.Values
    ensures forall key :: key in AllowedFields ==>
      (AllowedFields[key] in row <==> Get(updates, key).Some?) &&
      (Get(updates, key).Some? ==> row[AllowedFields[key]] == Get(updates, key).value)
  {
    WhitelistedFieldIds(updates);
    WhitelistedValues(updates);
    map[RecordIdField := clientRecordId] + Whitelisted(updates)
  }

  /** The contact upsert: one Clients row, keyed by the client record id. */
  function ContactUpsert(clientRecordId: Value, updates: Entries): (u: Upsert)
    ensures u.to == ClientsTable && |u.data| == 1
    ensures u.data[0] == ContactRow(clientRecordId, updates)
    ensures RecordIdField in u.data[0] && u.data[0][RecordIdField] == clientRecordId
  {
    Upsert(ClientsTable, [ContactRow(clientRecordId, updates)])
  }

  /** The contact update writes to the table the client query reads from. */
  lemma ContactUpsertTargetsClientTable(clientRecordId: Value, updates: Entries, clerkUserId: string)
    ensures ContactUpsert(clientRecordId, updates).to == ClientQuery(clerkUserId).from
    ensures ContactUpsert(clientRecordId, updates).to == ClientsTable
  {
  }

  /** The whitelist fold of `updateClientContact`, one entry at a time. */
  method FoldWhitelist(updates: Entries) returns (acc: map<FieldId, Value>)
    ensures acc == Whitelisted(updates)
  {
    acc := map[];
    var i := 0;
    while i < |updates|
      invariant 0 <= i <= |updates|
      invariant acc == Whitelisted(updates[..i])
    {
      var (key, value) := updates[i];
      assert updates[..i + 1][..i] == updates[..i];
      if key in AllowedFields {
        acc := acc[AllowedFields[key] := value];
      }
      i := i + 1;
    }
    assert updates[..i] == updates;
  }

  // ------------------------------------------------------ vessel ownership

  /** `vessel.data[0]["7"].value` of a fetched answer: a TypeError when the
      answer has no first row or that row no owner cell. */
  function FetchedOwner(fetched: Result<Body>): (r: Result<Value>)
    ensures fetched.Err? ==> r == Err(fetched.error)
    ensures fetched.Ok? ==> (r.Ok? <==>
      fetched.value.data.Some? && |fetched.value.data.value| > 0 && OwnerField in fetched.value.data.value[0])
    ensures r.Ok? ==> r.value == fetched.value.data.value[0][OwnerField]
    ensures fetched.Ok? && r.Err? ==> r.error == TypeError
  {
    match fetched
    case Err(e) => Err(e)
    case Ok(body) =>
      if body.data.None? || |body.data.value| == 0 || OwnerField !in body.data.value[0] then Err(TypeError)
      else Ok(body.data.value[0][OwnerField])
  }

  /** The owner cell survives the projection of `VesselQuery`: reading it
      from the selected fields gives what the full row holds. */
  lemma OwnerIsSelected(row: Row, vesselRecordId: Value)
    ensures OwnerField in VesselQuery(vesselRecordId).select
    ensures var projected := Project(row, VesselQuery(vesselRecordId).select);
      (OwnerField in projected <==> OwnerField in row) &&
      (OwnerField in row ==> projected[OwnerField] == row[OwnerField])
  {
  }

  /** The status upsert: one Vessels row holding only the record id and the
      status. */
  function StatusUpsert(vesselRecordId: Value, isActive: Value): (u: Upsert)
    ensures u.to == VesselsTable && |u.data| == 1
    ensures u.data[0].Keys == {RecordIdField, ActiveField}
    ensures u.data[0][RecordIdField] == vesselRecordId && u.data[0][ActiveField] == isActive
  {
    Upsert(VesselsTable, [map[RecordIdField := vesselRecordId, ActiveField := isActive]])
  }

  /** The decision of `updateVesselStatus` on the fetched vessel: the status
      write when the vessel's owner is strictly equal to the requesting client,
      otherwise the failure it throws. */
  function StatusWrite(fetched: Result<Body>, vesselRecordId: Value, clientRecordId: Value, isActive: Value): (r: Result<Upsert>)
    ensures r.Ok? <==> FetchedOwner(fetched) == Ok(clientRecordId)
    ensures r.Ok? ==> r.value.to == VesselsTable && |r.value.data| == 1
    ensures r.Ok? ==> r.value.data[0].Keys == {RecordIdField, ActiveField}
    ensures r.Ok? ==> r.value.data[0][RecordIdField] == vesselRecordId && r.value.data[0][ActiveField] == isActive
    ensures FetchedOwner(fetched).Ok? && FetchedOwner(fetched).value != clientRecordId ==> r == Err(Unauthorized)
    ensures FetchedOwner(fetched).Err? ==> r == Err(FetchedOwner(fetched).error)
  {
    match FetchedOwner(fetched)
    case Err(e) => Err(e)
    case Ok(owner) =>
      if owner != clientRecordId then Err(Unauthorized) else Ok(StatusUpsert(vesselRecordId, isActive))
  }

  // ------------------------------------------------------------ the store

  /** The remote store: its answer to each request, which may depend on every
      request sent before, and the log of requests sent to it. */
  class RemoteStore {
    const answer: (seq<Request>, Request) -> Reply
    var log: seq<Request>

    constructor (answer: (seq<Request>, Request) -> Reply)
      ensures this.answer == answer && log == []
    {
      this.answer := answer;
      log := [];
    }

    /** One request/response cycle. */
    method Send(req: Request) returns (reply: Reply)
      modifies this
      ensures log == old(log) + [req]
      ensures reply == answer(old(log), req)
    {
      reply := answer(log, req);
      log := log + [req];
    }
  }

  /** The process-wide configuration the service reads at construction. */
  datatype Env = Env(realm: string, userToken: string)

  class QuickBaseService {
    const realm: string
    const userToken: string
    const baseUrl: string
    const remote: RemoteStore

    constructor (env: Env, remote: RemoteStore)
      ensures realm == env.realm && userToken == env.userToken
      ensures baseUrl == "https://api.quickbase.com/v1" && this.remote == remote
    {
      realm := env.realm;
      userToken := env.userToken;
      baseUrl := "https://api.quickbase.com/v1";
      this.remote := remote;
    }

    /** Sends one request; a non-success status becomes an error. */
    method MakeRequest(req: Request) returns (r: Result<Body>)
      modifies remote
      ensures remote.log == old(remote.log) + [req]
      ensures r == Received(remote.answer(old(remote.log), req))
    {
      var reply := remote.Send(req);
      r := Received(reply);
    }

    method GetClientByClerkId(clerkUserId: string) returns (r: Result<Body>)
      modifies remote
      ensures remote.log == old(remote.log) + [QueryRecords(ClientQuery(clerkUserId))]
      ensures r == Received(remote.answer(old(remote.log), QueryRecords(ClientQuery(clerkUserId))))
    {
      r := MakeRequest(QueryRecords(ClientQuery(clerkUserId)));
    }

    method GetVesselsByClientId(clientRecordId: Value) returns (r: Result<Body>)
      modifies remote
      ensures remote.log == old(remote.log) + [QueryRecords(VesselsQuery(clientRecordId))]
      ensures r == Received(remote.answer(old(remote.log), QueryRecords(VesselsQuery(clientRecordId))))
    {
      r := MakeRequest(QueryRecords(VesselsQuery(clientRecordId)));
    }

    method GetVesselById(vesselRecordId: Value) returns (r: Result<Body>)
      modifies remote
      ensures remote.log == old(remote.log) + [QueryRecords(VesselQuery(vesselRecordId))]
      ensures r == Received(remote.answer(old(remote.log), QueryRecords(VesselQuery(vesselRecordId))))
    {
      r := MakeRequest(QueryRecords(VesselQuery(vesselRecordId)));
    }

    /** Sends one upsert of the record id and the whitelisted updates to the
        Clients table. */
    method UpdateClientContact(clientRecordId: Value, updates: Entries) returns (r: Result<Body>)
      modifies remote
      ensures remote.log == old(remote.log) + [UpsertRecords(ContactUpsert(clientRecordId, updates))]
      ensures r == Received(remote.answer(old(remote.log), UpsertRecords(ContactUpsert(clientRecordId, updates))))
    {
      var fields := FoldWhitelist(updates);
      var row := map[RecordIdField := clientRecordId] + fields;
      r := MakeRequest(UpsertRecords(Upsert(ClientsTable, [row])));
    }

    /** Fetches the vessel, then writes its status only if its owner is the
        requesting client: no write otherwise, exactly one write if so. */
    method UpdateVesselStatus(vesselRecordId: Value, clientRecordId: Value, isActive: Value) returns (r: Result<Body>)
      modifies remote
      ensures var fetch := QueryRecords(VesselQuery(vesselRecordId));
        var decision := StatusWrite(Received(remote.answer(old(remote.log), fetch)), vesselRecordId, clientRecordId, isActive);
        match decision
        case Err(e) =>
          remote.log == old(remote.log) + [fetch] && r == Err(e)
        case Ok(w) =>
          remote.log == old(remote.log) + [fetch, UpsertRecords(w)] &&
          r == Received(remote.answer(old(remote.log) + [fetch], UpsertRecords(w)))
    {
      var vessel := GetVesselById(vesselRecordId);
      var owner := FetchedOwner(vessel);
      if owner.Err? {
        r := Err(owner.error);
        return;
      }
      if owner.value != clientRecordId {
        r := Err(Unauthorized);
        return;
      }
      r := MakeRequest(UpsertRecords(StatusUpsert(vesselRecordId, isActive)));
    }
  }
}
