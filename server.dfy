/** The request service: the table it creates at start-up and the route
    that stores a boarding request sent by the app. */
module Server {
  import opened Base

  /** A value of the JSON request body, as far as the route tells values
      apart; objects and arrays are `Composite`. */
  datatype Json = Undefined | Null | Bool(b: bool) | Num(n: real) | Str(s: string) | Composite

  /** JavaScript truthiness of a body value: the falsy values are
      `undefined`, `null`, `false`, `0` and `''`. */
  function JsTruthy(v: Json): (r: bool)
    ensures r <==> v !in {Undefined, Null, Bool(false), Num(0.0), Str("")}
  {
    match v
    case Undefined => false
    case Null => false
    case Bool(b) => b
    case Num(n) => n != 0.0
    case Str(s) => s != ""
    case Composite => true
  }

  /** The fields the route destructures from `req.body`; a missing field
      is `Undefined`. */
  datatype Payload = Payload(origin: Json, destination: Json, requested: Json, timestamp: Json)

  /** The guard of `POST /api/requests`: origin and destination truthy and
      `requested` the boolean `true` itself (`requested !== true` rejects
      everything else). The timestamp is not looked at. */
  function ValidPayload(p: Payload): (ok: bool)
    ensures ok <==> p.origin !in {Undefined, Null, Bool(false), Num(0.0), Str("")}
                    && p.destination !in {Undefined, Null, Bool(false), Num(0.0), Str("")}
                    && p.requested == Bool(true)
  {
    JsTruthy(p.origin) && JsTruthy(p.destination) && p.requested == Bool(true)
  }

  /** Truthy look-alikes of `true` are refused, and so is an empty or
      missing origin or destination, whatever the timestamp. */
  lemma GuardRejects(o: Json, d: Json, t: Json)
    ensures !ValidPayload(Payload(o, d, Str("true"), t))
    ensures !ValidPayload(Payload(o, d, Num(1.0), t))
    ensures !ValidPayload(Payload(o, d, Composite, t))
    ensures !ValidPayload(Payload(Str(""), d, Bool(true), t))
    ensures !ValidPayload(Payload(Undefined, d, Bool(true), t))
    ensures !ValidPayload(Payload(o, Str(""), Bool(true), t))
    ensures !ValidPayload(Payload(o, Null, Bool(true), t))
  {
  }

  /** The guard does not depend on the timestamp. */
  lemma GuardIgnoresTimestamp(p: Payload, t: Json)
    ensures ValidPayload(p.(timestamp := t)) == ValidPayload(p)
  {
  }

  /** The name of a column: the five the route knows, or any other. */
  datatype ColumnName = Id | Origin | Destination | Requested | CreatedAt | OtherColumn(text: string)

  /** A column of a table: its name, its type and whether it is NOT NULL. */
  datatype Column = Column(name: ColumnName, sqlType: string, notNull: bool)

  /** The columns `ensureSchema` declares for `requests`; `id` is the
      SERIAL primary key. */
  const RequestsColumns: seq<Column> := [
    Column(Id, "SERIAL", true),
    Column(Origin, "TEXT", true),
    Column(Destination, "TEXT", true),
    Column(Requested, "BOOLEAN", true),
    Column(CreatedAt, "TIMESTAMP", true)
  ]

  /** `CREATE TABLE IF NOT EXISTS requests (...)` on the catalogue of
      tables: the table is added when missing and left as it is (whatever
      its columns) when present. */
  function WithRequestsTable(tables: map<string, seq<Column>>): (r: map<string, seq<Column>>)
    ensures "requests" in r
    ensures "requests" in tables ==> r == tables
    ensures "requests" !in tables ==> r == tables["requests" := RequestsColumns]
  {
    if "requests" in tables then tables else tables["requests" := RequestsColumns]
  }

  /** Running the start-up statement again changes nothing. */
  lemma EnsureSchemaIdempotent(tables: map<string, seq<Column>>)
    ensures WithRequestsTable(WithRequestsTable(tables)) == WithRequestsTable(tables)
    ensures forall t :: t in tables && t != "requests" ==> WithRequestsTable(tables)[t] == tables[t]
  {
  }

  /** A stored request; `requested` is always true for a row that got
      past the guard. */
  datatype Row = Row(id: nat, origin: Json, destination: Json, requested: bool, createdAt: Json)

  datatype Response = BadRequest | Created(id: nat) | ServerError

  /** The parameters `$1` to `$4` of the insert, bound in order to the
      columns `origin`, `destination`, `requested` and `created_at`; a
      JavaScript `undefined` is sent as NULL. */
  function InsertValues(p: Payload): (v: seq<Json>)
    ensures |v| == 4
    ensures v[0] == p.origin && v[1] == p.destination && v[2] == p.requested && v[3] == p.timestamp
  {
    [p.origin, p.destination, p.requested, p.timestamp]
  }

  /** The column of a table with the given name, if it has one. */
  function ColumnNamed(cols: seq<Column>, name: ColumnName): (r: Option<Column>)
    ensures r.Some? ==> r.value in cols && r.value.name == name
    ensures r.None? ==> forall c :: c in cols ==> c.name != name
  {
    if cols == [] then None
    else if cols[0].name == name then Some(cols[0])
    else ColumnNamed(cols[1..], name)
  }

  /** A value JavaScript sends to PostgreSQL as NULL. */
  predicate SentAsNull(v: Json) {
    v.Undefined? || v.Null?
  }

  /** The named column exists and, when it is NOT NULL, the value sent
      to it is not NULL. */
  predicate Fits(cols: seq<Column>, name: ColumnName, v: Json) {
    ColumnNamed(cols, name).Some? && (ColumnNamed(cols, name).value.notNull ==> !SentAsNull(v))
  }

  /** The columns the insert names. */
  predicate Inserted(name: ColumnName) {
    name.Origin? || name.Destination? || name.Requested? || name.CreatedAt?
  }

  /** Every NOT NULL column outside the insert is a SERIAL, which fills
      itself. */
  predicate DefaultsCover(cols: seq<Column>) {
    forall i :: 0 <= i < |cols| && cols[i].notNull && !Inserted(cols[i].name) ==> cols[i].sqlType == "SERIAL"
  }

  /** The lookup finds the first column of the name. */
  lemma {:induction false} ColumnAt(cols: seq<Column>, k: nat, name: ColumnName)
    requires k < |cols| && cols[k].name == name
    requires forall j :: 0 <= j < k ==> cols[j].name != name
    ensures ColumnNamed(cols, name) == Some(cols[k])
  {
    if k > 0 {
      ColumnAt(cols[1..], k - 1, name);
    }
  }

  /** A table whose columns are `id` (SERIAL), `origin`, `destination`,
      `requested` and `created_at`, in that order, with the first four
      NOT NULL: each name is found at its place. */
  lemma DeclaredShape(cs: seq<Column>)
    requires |cs| == 5
    requires cs[0] == Column(Id, "SERIAL", true)
    requires cs[1].name == Origin && cs[1].notNull
    requires cs[2].name == Destination && cs[2].notNull
    requires cs[3].name == Requested && cs[3].notNull
    requires cs[4].name == CreatedAt
    ensures ColumnNamed(cs, Id) == Some(cs[0])
    ensures ColumnNamed(cs, Origin) == Some(cs[1])
    ensures ColumnNamed(cs, Destination) == Some(cs[2])
    ensures ColumnNamed(cs, Requested) == Some(cs[3])
    ensures ColumnNamed(cs, CreatedAt) == Some(cs[4])
    ensures DefaultsCover(cs)
  {
    ColumnAt(cs, 0, Id);
    ColumnAt(cs, 1, Origin);
    ColumnAt(cs, 2, Destination);
    ColumnAt(cs, 3, Requested);
    ColumnAt(cs, 4, CreatedAt);
  }

  /** Whether `INSERT INTO requests (origin, destination, requested,
      created_at) ... RETURNING id` succeeds on a table with columns
      `cols`: every named column and `id` exist, no NOT NULL column among
      them receives NULL, and every NOT NULL column the insert leaves out
      has the default of a SERIAL. */
  predicate InsertAccepted(cols: seq<Column>, vals: seq<Json>)
    requires |vals| == 4
  {
    && ColumnNamed(cols, Id).Some?
    && Fits(cols, Origin, vals[0]) && Fits(cols, Destination, vals[1])
    && Fits(cols, Requested, vals[2]) && Fits(cols, CreatedAt, vals[3])
    && DefaultsCover(cols)
  }

  /** Whether the insert of an accepted payload fails, on the `requests`
      table as it stands: the table is missing, the insert does not fit
      its columns, or the database reports another error (`storeFails`,
      standing for any failure outside the model). On the table
      `ensureSchema` declares, an accepted payload fails exactly when its
      timestamp is missing or null. */
  function InsertFails(tables: map<string, seq<Column>>, p: Payload, storeFails: bool): (r: bool)
    ensures "requests" !in tables || storeFails ==> r
    ensures "requests" in tables && ColumnNamed(tables["requests"], CreatedAt).None? ==> r
    ensures "requests" in tables && tables["requests"] == RequestsColumns && ValidPayload(p) && !storeFails ==>
              (r <==> p.timestamp in {Undefined, Null})
  {
    if "requests" in tables && tables["requests"] == RequestsColumns then
      DeclaredTable(InsertValues(p));
      storeFails || !InsertAccepted(tables["requests"], InsertValues(p))
    else
      "requests" !in tables || storeFails || !InsertAccepted(tables["requests"], InsertValues(p))
  }

  /** The declared table accepts exactly the inserts that send no NULL. */
  lemma DeclaredTable(vals: seq<Json>)
    requires |vals| == 4
    ensures InsertAccepted(RequestsColumns, vals) <==>
            !SentAsNull(vals[0]) && !SentAsNull(vals[1]) && !SentAsNull(vals[2]) && !SentAsNull(vals[3])
  {
    DeclaredShape(RequestsColumns);
  }

  /** A `requests` table that already existed with a nullable
      `created_at` accepts a payload without a timestamp, where the
      declared table refuses it. */
  lemma NullableTimestampAccepted(p: Payload)
    requires ValidPayload(p) && p.timestamp == Undefined
    ensures !InsertFails(map["requests" := RequestsColumns[4 := Column(CreatedAt, "TIMESTAMP", false)]], p, false)
  {
    var cs := RequestsColumns[4 := Column(CreatedAt, "TIMESTAMP", false)];
    DeclaredShape(cs);
    assert InsertAccepted(cs, InsertValues(p));
  }

  /** A `requests` table that already existed with only an `id` refuses
      every insert. */
  lemma MissingColumnsRefused(p: Payload)
    ensures InsertFails(map["requests" := [Column(Id, "SERIAL", true)]], p, false)
  {
    var cs := [Column(Id, "SERIAL", true)];
    assert cs[1..] == [];
    assert ColumnNamed(cs, CreatedAt) == None;
  }

  /** A missing timestamp passes the guard but not the insert into the
      declared table. */
  lemma MissingTimestampIsServerError(p: Payload, tables: map<string, seq<Column>>)
    requires ValidPayload(p) && p.timestamp == Undefined
    requires "requests" in tables ==> tables["requests"] == RequestsColumns
    ensures InsertFails(tables, p, false)
  {
  }

  /** The database behind the route: the tables, the rows of `requests`
      in insertion order and the next value of the SERIAL sequence. */
  class Database {
    var tables: map<string, seq<Column>>
    var requests: seq<Row>
    var nextId: nat

    /** Every stored id was handed out by the sequence, in increasing
        order. */
    ghost predicate Valid()
      reads this
    {
      1 <= nextId
      && (forall i :: 0 <= i < |requests| ==> requests[i].id < nextId)
      && (forall i, j :: 0 <= i < j < |requests| ==> requests[i].id < requests[j].id)
    }

    constructor ()
      ensures tables == map[] && requests == [] && nextId == 1
      ensures Valid()
    {
      tables := map[];
      requests := [];
      nextId := 1;
    }

    /** `ensureSchema`. */
    method EnsureSchema()
      requires Valid()
      modifies this
      ensures Valid()
      ensures tables == WithRequestsTable(old(tables))
      ensures requests == old(requests) && nextId == old(nextId)
    {
      if "requests" !in tables {
        tables := tables["requests" := RequestsColumns];
      }
    }

    /** `POST /api/requests`: 400 without touching the database when the
        guard refuses; otherwise one insert with the parameters `(origin,
        destination, requested, timestamp)` in that order, answered with
        201 and the new id, or with 500 and no new row when it fails. */
    method PostRequest(p: Payload, storeFails: bool) returns (resp: Response)
      requires Valid()
      modifies this
      ensures Valid()
      ensures tables == old(tables) && nextId >= old(nextId)
      ensures !ValidPayload(p) ==> resp == BadRequest && requests == old(requests) && nextId == old(nextId)
      ensures ValidPayload(p) && InsertFails(tables, p, storeFails) ==>
                resp == ServerError && requests == old(requests) && nextId == old(nextId)
      ensures ValidPayload(p) && !InsertFails(tables, p, storeFails) ==>
                && resp == Created(old(nextId))
                && requests == old(requests) + [Row(old(nextId), p.origin, p.destination, true, p.timestamp)]
                && nextId == old(nextId) + 1
      ensures resp.Created? ==> forall i :: 0 <= i < |old(requests)| ==> old(requests)[i].id < resp.id
    {
      if !ValidPayload(p) {
        return BadRequest;
      }
      if InsertFails(tables, p, storeFails) {
        return ServerError;
      }
      var id := nextId;
      requests := requests + [Row(id, p.origin, p.destination, true, p.timestamp)];
      nextId := nextId + 1;
      resp := Created(id);
    }
  }

  /** Two accepted requests, one after the other, get different ids, the
      later one the larger. */
  method TwoRequests(db: Database, p: Payload, q: Payload, fails1: bool, fails2: bool)
    returns (r1: Response, r2: Response)
    requires db.Valid()
    modifies db
    ensures db.Valid()
    ensures r1.Created? && r2.Created? ==> r1.id < r2.id
  {
    r1 := db.PostRequest(p, fails1);
    r2 := db.PostRequest(q, fails2);
  }
}
