/**
 * backend/client-service/src/main.rs: the caller's clients. Every query is
 * scoped to the authenticated user; a client of another user reads as
 * missing.
 */
module ClientService {
  import opened Wrappers
  import Tables
  import opened RustDb

  const NotFound: string := "Client not found"

  /** `CreateClientRequest`: the client columns a request supplies. */
  datatype ClientRequest = ClientRequest(
    name: string, email: Option<string>, phone: Option<string>, address: Option<string>,
    taxId: Option<string>, paymentTerms: Option<int>, notes: Option<string>, status: Option<string>)

  /** The row a request describes, for a given id and owner. */
  function Stored(id: int, user: int, req: ClientRequest): (c: Client)
    ensures c.id == id && c.userId == user && c.name == req.name && c.email == req.email
    ensures c.phone == req.phone && c.address == req.address && c.taxId == req.taxId
    ensures c.paymentTerms == req.paymentTerms && c.notes == req.notes && c.status == req.status
  {
    Client(id, user, req.name, req.email, req.phone, req.address, req.taxId, req.paymentTerms, req.notes, req.status)
  }

  predicate Owns(db: Database, user: int, id: int)
    reads db
  {
    id in db.clients && db.clients[id].userId == user
  }

  /** `list_clients`: exactly the caller's clients. */
  function ListClients(db: Database, user: int): (rows: seq<Client>)
    reads db
    requires db.Valid()
    ensures forall c :: c in rows <==> c in db.clients.Values && c.userId == user
  {
    Tables.Select(db.clients, (c: Client) => c.userId == user)
  }

  /** `get_client`: the caller's client, or 404 "Client not found". */
  function GetClient(db: Database, user: int, id: int): (r: Outcome<Client>)
    reads db
    ensures r.Ok? <==> Owns(db, user, id)
    ensures r.Ok? ==> r.value == db.clients[id]
    ensures r.Fail? ==> r == Fail(404, NotFound)
  {
    if Owns(db, user, id) then Ok(db.clients[id]) else Fail(404, NotFound)
  }

  /** `create_client`: a new client owned by the caller, whatever the request says. */
  method CreateClient(db: Database, user: int, req: ClientRequest, fault: bool) returns (r: Outcome<Client>)
    requires db.Valid()
    modifies db`clients
    ensures db.Valid()
    ensures fault ==> r == Fail(500, DbError) && db.clients == old(db.clients)
    ensures !fault ==> r.Ok? && r.value.id !in old(db.clients)
                       && r.value == Stored(r.value.id, user, req)
                       && db.clients == old(db.clients)[r.value.id := r.value]
    ensures r.Ok? ==> GetClient(db, user, r.value.id) == Ok(r.value)
  {
    if fault {
      return Fail(500, DbError);
    }
    var id := Tables.NextId(db.clients.Keys);
    var row := Stored(id, user, req);
    db.clients := db.clients[id := row];
    return Ok(row);
  }

  /**
   * `update_client`: overwrites all eight columns of the caller's client;
   * `fetch_one` finds no row for a missing or foreign id, which is a 500.
   */
  method UpdateClient(db: Database, user: int, id: int, req: ClientRequest, fault: bool) returns (r: Outcome<Client>)
    requires db.Valid()
    modifies db`clients
    ensures db.Valid()
    ensures fault ==> r == Fail(500, DbError) && db.clients == old(db.clients)
    ensures !fault && !old(Owns(db, user, id)) ==> r == Fail(500, RowNotFound) && db.clients == old(db.clients)
    ensures !fault && old(Owns(db, user, id)) ==>
              r == Ok(Stored(id, user, req)) && db.clients == old(db.clients)[id := Stored(id, user, req)]
    ensures forall k :: k in old(db.clients) && old(db.clients)[k].userId != user ==>
              k in db.clients && db.clients[k] == old(db.clients)[k]
  {
    if fault {
      return Fail(500, DbError);
    }
    if !Owns(db, user, id) {
      return Fail(500, RowNotFound);
    }
    var row := Stored(id, user, req);
    db.clients := db.clients[id := row];
    return Ok(row);
  }

  /** `delete_client`: 204 when a row of the caller went, 404 when none matched. */
  method DeleteClient(db: Database, user: int, id: int, fault: bool) returns (r: Outcome<int>)
    requires db.Valid()
    modifies db`clients
    ensures db.Valid()
    ensures fault ==> r == Fail(500, DbError) && db.clients == old(db.clients)
    ensures !fault && !old(Owns(db, user, id)) ==> r == Fail(404, NotFound) && db.clients == old(db.clients)
    ensures !fault && old(Owns(db, user, id)) ==> r == Ok(204) && db.clients == old(db.clients) - {id}
    ensures forall k :: k in old(db.clients) && old(db.clients)[k].userId != user ==>
              k in db.clients && db.clients[k] == old(db.clients)[k]
  {
    if fault {
      return Fail(500, DbError);
    }
    if !Owns(db, user, id) {
      return Fail(404, NotFound);
    }
    db.clients := db.clients - {id};
    return Ok(204);
  }
}
