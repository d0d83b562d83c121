/** supabase/functions/save-pipeline/index.ts: the `serve` handler that saves a
    pipeline configuration into the `pipeline_responses` table.

    The handler's environment is given as inputs: `verify` stands for the
    authentication service's answer to a token, `storeFault` for an error the
    store reports on the update or insert, `zeroRows` for how `.single()`
    reports an update that matched no row, `newId` for the id the database
    assigns to an inserted row and `now` for the current time stamp. */
module SavePipeline {
  import opened Wrappers
  import opened Json

  /** A row of `pipeline_responses` as this handler writes it. `updatedAt` is
      None while the row still has the value its table default gave it. */
  datatype Row = Row(
    id: string,
    userId: string,
    userName: Json,
    pipelineData: Json,
    status: Json,
    updatedAt: Option<string>)

  /** The result of `await req.json()`: a JSON value, or a body that does not parse. */
  datatype RequestBody = Unreadable | Body(value: Json)

  /** `verb` is `req.method`. */
  datatype Request = Request(verb: string, authorization: Option<string>, body: RequestBody)

  /** `supabaseAuth.auth.getUser(token)`: an error, no user, or the user's id. */
  datatype AuthResult = AuthError | NoUser | User(id: string)

  /** An error the store returns; only an `Error` instance contributes its message. */
  datatype StoreError = StoreError(isErrorInstance: bool, message: string)

  datatype ReplyBody =
    | NoBody                   // `new Response(null, ...)`
    | ErrorMessage(msg: string) // `{ error: msg }`
    | RuntimeError             // `{ error: e.message }` for an exception the JavaScript runtime raises
    | Success(row: Row)        // `{ success: true, data: row }`

  datatype Reply = Reply(status: int, body: ReplyBody)

  /** The reply together with the table after the request. */
  datatype Outcome = Outcome(reply: Reply, rows: map<string, Row>)

  const BearerPrefix: string := "Bearer "

  /** `!authHeader` is false: the header is there and is not the empty string. */
  predicate HeaderPresent(h: Option<string>) {
    h.Some? && h.value != ""
  }

  /** `pat` occurs in `s` starting at index `i`. */
  predicate OccursAt(s: string, pat: string, i: nat) {
    i + |pat| <= |s| && s[i..i + |pat|] == pat
  }

  /** The first index from `from` on at which `pat` occurs in `s`, if any. */
  function IndexFrom(s: string, pat: string, from: nat): (r: Option<nat>)
    ensures r.Some? ==> from <= r.value && OccursAt(s, pat, r.value)
    ensures r.Some? ==> forall i :: from <= i < r.value ==> !OccursAt(s, pat, i)
    ensures r.None? ==> forall i :: from <= i ==> !OccursAt(s, pat, i)
    decreases |s| - from
  {
    if from + |pat| > |s| then None
    else if OccursAt(s, pat, from) then Some(from)
    else IndexFrom(s, pat, from + 1)
  }

  /** `s.indexOf(pat)`. */
  function IndexOf(s: string, pat: string): Option<nat> {
    IndexFrom(s, pat, 0)
  }

  /** `pat` occurs at `i` and nowhere before. */
  predicate FirstOccursAt(s: string, pat: string, i: nat) {
    OccursAt(s, pat, i) && forall j :: 0 <= j < i ==> !OccursAt(s, pat, j)
  }

  /** `indexOf` finds the first occurrence. */
  lemma FirstOccurrence(s: string, pat: string, i: nat)
    requires FirstOccursAt(s, pat, i)
    ensures IndexOf(s, pat) == Some(i)
  {
  }

  /** `authHeader.replace('Bearer ', '')`: only the first occurrence is removed,
      wherever it is. */
  function Token(h: string): (t: string)
    ensures IndexOf(h, BearerPrefix).None? ==> t == h
    ensures IndexOf(h, BearerPrefix).Some? ==> |t| == |h| - |BearerPrefix|
    ensures forall i: nat :: FirstOccursAt(h, BearerPrefix, i) ==> t == h[..i] + h[i + |BearerPrefix|..]
  {
    forall i: nat | FirstOccursAt(h, BearerPrefix, i) ensures IndexOf(h, BearerPrefix) == Some(i) {
      FirstOccurrence(h, BearerPrefix, i);
    }
    match IndexOf(h, BearerPrefix)
    case None => h
    case Some(i) => h[..i] + h[i + |BearerPrefix|..]
  }

  /** A header of the form `Bearer <jwt>` passes exactly `<jwt>` on. */
  lemma BearerTokenIsRest(jwt: string)
    ensures Token(BearerPrefix + jwt) == jwt
  {
    var h := BearerPrefix + jwt;
    assert OccursAt(h, BearerPrefix, 0) by {
      assert h[0..|BearerPrefix|] == BearerPrefix;
    }
  }

  /** The caller's user id once both authentication gates have passed. */
  function Caller(req: Request, verify: string -> AuthResult): (r: Option<string>)
    ensures r.Some? ==> req.verb != "OPTIONS" && HeaderPresent(req.authorization)
    ensures r.Some? ==> verify(Token(req.authorization.value)) == User(r.value)
    ensures req.verb != "OPTIONS" && HeaderPresent(req.authorization) && verify(Token(req.authorization.value)).User? ==>
      r == Some(verify(Token(req.authorization.value)).id)
  {
    if req.verb == "OPTIONS" || !HeaderPresent(req.authorization) then None
    else match verify(Token(req.authorization.value))
      case User(uid) => Some(uid)
      case _ => None
  }

  /** Destructuring `{ pipelineData, userName, status, pipelineId }`: a missing
      property, or any property of a non-object, reads as undefined, which the
      model writes as null. */
  function Field(body: Json, key: string): Json {
    if body.JObj? && key in body.fields then body.fields[key] else JNull
  }

  /** `status || 'draft'`. */
  function StoredStatus(status: Json): (r: Json)
    ensures Truthy(r)
    ensures Truthy(status) ==> r == status
    ensures !Truthy(status) ==> r == JStr("draft")
  {
    if Truthy(status) then status else JStr("draft")
  }

  /** The row `.eq('id', pipelineId).eq('user_id', uid)` selects, if any. */
  function Target(rows: map<string, Row>, pipelineId: Json, uid: string): (r: Option<string>)
    ensures r.Some? <==> pipelineId.JStr? && pipelineId.s in rows && rows[pipelineId.s].userId == uid
    ensures r.Some? ==> r.value == pipelineId.s
  {
    if pipelineId.JStr? && pipelineId.s in rows && rows[pipelineId.s].userId == uid then Some(pipelineId.s) else None
  }

  /** `error instanceof Error ? error.message : 'Unknown error'`. */
  function ThrownMessage(e: StoreError): (m: string)
    ensures e.isErrorInstance ==> m == e.message
    ensures !e.isErrorInstance ==> m == "Unknown error"
  {
    if e.isErrorInstance then e.message else "Unknown error"
  }

  /** The row an update with the request's values makes of `row`. */
  function Updated(row: Row, body: Json, now: string): (r: Row)
    ensures r.id == row.id && r.userId == row.userId
    ensures r.pipelineData == Field(body, "pipelineData") && r.userName == Field(body, "userName")
    ensures r.status == StoredStatus(Field(body, "status")) && r.updatedAt == Some(now)
  {
    row.(pipelineData := Field(body, "pipelineData"),
         status := StoredStatus(Field(body, "status")),
         userName := Field(body, "userName"),
         updatedAt := Some(now))
  }

  /** The row an insert with the request's values creates. */
  function Inserted(id: string, uid: string, body: Json): (r: Row)
    ensures r.id == id && r.userId == uid && r.updatedAt.None?
    ensures r.pipelineData == Field(body, "pipelineData") && r.userName == Field(body, "userName")
    ensures r.status == StoredStatus(Field(body, "status"))
  {
    Row(id, uid, Field(body, "userName"), Field(body, "pipelineData"), StoredStatus(Field(body, "status")), None)
  }

  /** The handler's reply and the table it leaves behind. */
  function Handle(rows: map<string, Row>, req: Request, verify: string -> AuthResult,
                  storeFault: Option<StoreError>, zeroRows: Option<StoreError>,
                  newId: string, now: string): (o: Outcome)
    requires newId !in rows
    // A preflight request is answered before authentication and the table.
    ensures req.verb == "OPTIONS" ==> o == Outcome(Reply(200, NoBody), rows)
    ensures req.verb != "OPTIONS" && !HeaderPresent(req.authorization) ==>
      o == Outcome(Reply(401, ErrorMessage("No authorization header")), rows)
    ensures req.verb != "OPTIONS" && HeaderPresent(req.authorization) && Caller(req, verify).None? ==>
      o == Outcome(Reply(401, ErrorMessage("Unauthorized")), rows)
    ensures o.reply.status == 401 <==> req.verb != "OPTIONS" && Caller(req, verify).None?
    ensures o.reply.status in {200, 401, 404, 500}
    // Any reply but a success leaves the table as it was.
    ensures o.reply.status != 200 ==> o.rows == rows
    ensures o.reply.status == 200 <==> req.verb == "OPTIONS" || o.reply.body.Success?
    // No row is ever deleted; at most the new id is added.
    ensures rows.Keys <= o.rows.Keys <= rows.Keys + {newId}
    // A row that changes is the caller's own row named by `pipelineId`.
    ensures forall id :: id in rows && o.rows[id] != rows[id] ==>
      && Caller(req, verify) == Some(rows[id].userId)
      && req.body.Body? && Field(req.body.value, "pipelineId") == JStr(id)
      && o.reply == Reply(200, Success(o.rows[id]))
    // An inserted row belongs to the caller and is the reply's data.
    ensures newId in o.rows ==>
      && Caller(req, verify) == Some(o.rows[newId].userId)
      && req.body.Body? && !Truthy(Field(req.body.value, "pipelineId"))
      && o.reply == Reply(200, Success(o.rows[newId]))
    // A saved row carries the request's values and a truthy status.
    ensures o.reply.body.Success? ==>
      && req.body.Body?
      && o.reply.body.row.pipelineData == Field(req.body.value, "pipelineData")
      && o.reply.body.row.userName == Field(req.body.value, "userName")
      && o.reply.body.row.status == StoredStatus(Field(req.body.value, "status"))
      && o.reply.body.row in o.rows.Values
    ensures o.reply.status == 404 ==>
      && o.reply.body == ErrorMessage("Pipeline not found")
      && Caller(req, verify).Some? && req.body.Body?
      && Truthy(Field(req.body.value, "pipelineId"))
      && Target(rows, Field(req.body.value, "pipelineId"), Caller(req, verify).value).None?
    // Past authentication: a body that cannot be destructured is a runtime error,
    // and a store fault is reported with its message.
    ensures Caller(req, verify).Some? && (req.body.Unreadable? || req.body.value.JNull?) ==>
      o == Outcome(Reply(500, RuntimeError), rows)
    ensures Caller(req, verify).Some? && req.body.Body? && !req.body.value.JNull? && storeFault.Some? ==>
      o == Outcome(Reply(500, ErrorMessage(ThrownMessage(storeFault.value))), rows)
    // Otherwise a falsy `pipelineId` inserts, a truthy one updates the caller's
    // row or, when there is none, ends in 404 or the zero-rows error.
    ensures Caller(req, verify).Some? && req.body.Body? && !req.body.value.JNull? && storeFault.None? ==>
      var uid := Caller(req, verify).value;
      var body := req.body.value;
      var pid := Field(body, "pipelineId");
      && (!Truthy(pid) ==>
            o == Outcome(Reply(200, Success(Inserted(newId, uid, body))), rows[newId := Inserted(newId, uid, body)]))
      && (Truthy(pid) && Target(rows, pid, uid).Some? ==>
            var id := Target(rows, pid, uid).value;
            o == Outcome(Reply(200, Success(Updated(rows[id], body, now))), rows[id := Updated(rows[id], body, now)]))
      && (Truthy(pid) && Target(rows, pid, uid).None? && zeroRows.None? ==>
            o == Outcome(Reply(404, ErrorMessage("Pipeline not found")), rows))
      && (Truthy(pid) && Target(rows, pid, uid).None? && zeroRows.Some? ==>
            o == Outcome(Reply(500, ErrorMessage(ThrownMessage(zeroRows.value))), rows))
  {
    if req.verb == "OPTIONS" then Outcome(Reply(200, NoBody), rows)
    else if !HeaderPresent(req.authorization) then Outcome(Reply(401, ErrorMessage("No authorization header")), rows)
    else match Caller(req, verify)
      case None => Outcome(Reply(401, ErrorMessage("Unauthorized")), rows)
      case Some(uid) =>
        match req.body
        case Unreadable => Outcome(Reply(500, RuntimeError), rows)
        case Body(body) =>
          if body.JNull? then Outcome(Reply(500, RuntimeError), rows)
          else if Truthy(Field(body, "pipelineId")) then
            if storeFault.Some? then Outcome(Reply(500, ErrorMessage(ThrownMessage(storeFault.value))), rows)
            else match Target(rows, Field(body, "pipelineId"), uid)
              case None =>
                if zeroRows.Some? then Outcome(Reply(500, ErrorMessage(ThrownMessage(zeroRows.value))), rows)
                else Outcome(Reply(404, ErrorMessage("Pipeline not found")), rows)
              case Some(id) =>
                var row := Updated(rows[id], body, now);
                Outcome(Reply(200, Success(row)), rows[id := row])
          else if storeFault.Some? then Outcome(Reply(500, ErrorMessage(ThrownMessage(storeFault.value))), rows)
          else
            var row := Inserted(newId, uid, body);
            Outcome(Reply(200, Success(row)), rows[newId := row])
  }

  /** The update path changes exactly the caller's row: its id, owner and
      creation-time values stay, and every other row is untouched. */
  lemma UpdateTouchesOnlyTarget(rows: map<string, Row>, req: Request, verify: string -> AuthResult,
                                storeFault: Option<StoreError>, zeroRows: Option<StoreError>,
                                newId: string, now: string, other: string)
    requires newId !in rows
    requires req.body.Body? && Truthy(Field(req.body.value, "pipelineId"))
    requires other in rows && Field(req.body.value, "pipelineId") != JStr(other)
    ensures Handle(rows, req, verify, storeFault, zeroRows, newId, now).rows.Keys == rows.Keys
    ensures Handle(rows, req, verify, storeFault, zeroRows, newId, now).rows[other] == rows[other]
  {
  }

  /** A caller cannot change a row another user owns. */
  lemma OthersRowsUntouched(rows: map<string, Row>, req: Request, verify: string -> AuthResult,
                            storeFault: Option<StoreError>, zeroRows: Option<StoreError>,
                            newId: string, now: string, id: string)
    requires newId !in rows
    requires id in rows && Caller(req, verify) != Some(rows[id].userId)
    ensures Handle(rows, req, verify, storeFault, zeroRows, newId, now).rows[id] == rows[id]
  {
  }

  /** The `pipeline_responses` table and the handler that writes it. */
  class PipelineTable {
    var rows: map<string, Row>

    /** `serve(async (req) => ...)`: the guarded steps with their early returns. */
    method Serve(req: Request, verify: string -> AuthResult,
                 storeFault: Option<StoreError>, zeroRows: Option<StoreError>,
                 newId: string, now: string) returns (reply: Reply)
      requires newId !in rows
      modifies this`rows
      ensures Outcome(reply, rows) == Handle(old(rows), req, verify, storeFault, zeroRows, newId, now)
    {
      if req.verb == "OPTIONS" {
        return Reply(200, NoBody);
      }
      var authHeader := req.authorization;
      if !HeaderPresent(authHeader) {
        return Reply(401, ErrorMessage("No authorization header"));
      }
      var user := verify(Token(authHeader.value));
      if !user.User? {
        return Reply(401, ErrorMessage("Unauthorized"));
      }
      if req.body.Unreadable? || req.body.value.JNull? {
        return Reply(500, RuntimeError);
      }
      var body := req.body.value;
      var result: Row;
      if Truthy(Field(body, "pipelineId")) {
        if storeFault.Some? {
          return Reply(500, ErrorMessage(ThrownMessage(storeFault.value)));
        }
        var target := Target(rows, Field(body, "pipelineId"), user.id);
        if target.None? {
          if zeroRows.Some? {
            return Reply(500, ErrorMessage(ThrownMessage(zeroRows.value)));
          }
          return Reply(404, ErrorMessage("Pipeline not found"));
        }
        result := Updated(rows[target.value], body, now);
        rows := rows[target.value := result];
      } else {
        if storeFault.Some? {
          return Reply(500, ErrorMessage(ThrownMessage(storeFault.value)));
        }
        result := Inserted(newId, user.id, body);
        rows := rows[newId := result];
      }
      return Reply(200, Success(result));
    }
  }
}
