/** The server's error handler, the last layer after every route: it turns an
    error passed on by a gate or a route function into the HTTP response. */
module Server {
  import opened Json
  import opened Http
  import opened Schemas
  import opened Storage
  import opened Crud
  import opened Registry

  const DefaultErrorMessage := "Internal Server Error Processing Request."

  /** What the error handler does: send a status and a body, or call
      `next(null)` without sending anything. */
  datatype Handled = Respond(status: int, body: Value) | PassOn

  /** `error.code || error.statusCode || 500`: the first present, non-zero
      code. */
  function ErrorCode(error: HttpError): (c: int)
    ensures error.code.Some? && error.code.value != 0 ==> c == error.code.value
    ensures (error.code.None? || error.code.value == 0) && error.statusCode.Some? && error.statusCode.value != 0 ==>
      c == error.statusCode.value
    ensures (error.code.None? || error.code.value == 0) && (error.statusCode.None? || error.statusCode.value == 0) ==>
      c == 500
  {
    if error.code.Some? && error.code.value != 0 then error.code.value
    else if error.statusCode.Some? && error.statusCode.value != 0 then error.statusCode.value
    else 500
  }

  /** The error handler: no error, no response; otherwise a status in
      100..530 and the body `{error: message}`. A status outside that range
      becomes 500 with the default message; an empty message is replaced by
      the default one. */
  function ErrorHandler(error: Option<HttpError>): (h: Handled)
    ensures h.PassOn? <==> error.None?
    ensures h.Respond? ==> 100 <= h.status <= 530 && h.body.Obj? && h.body.fields.Keys == {"error"}
    ensures error.Some? && 100 <= ErrorCode(error.value) <= 530 ==>
      h.status == ErrorCode(error.value)
      && h.body == ErrorBody(if Truthy(error.value.message) then error.value.message else Str(DefaultErrorMessage))
    ensures error.Some? && !(100 <= ErrorCode(error.value) <= 530) ==>
      h == Respond(500, ErrorBody(Str(DefaultErrorMessage)))
  {
    match error
    case None => PassOn
    case Some(e) =>
      var code := ErrorCode(e);
      var message := if Truthy(e.message) then e.message else Str(DefaultErrorMessage);
      if code < 100 || code > 530 then Respond(500, ErrorBody(Str(DefaultErrorMessage)))
      else Respond(code, ErrorBody(message))
  }

  /** The response a client receives for a route function's outcome: a sent
      response as it is, an error through the error handler. The route
      wrapper guarantees no throw reaches this point. */
  function Finish(r: Reply): (resp: Handled)
    requires !r.Fault?
    ensures resp.Respond?
    ensures r.Send? ==> resp == Respond(r.status, r.body)
    ensures r.Next? ==> resp == ErrorHandler(Some(r.error))
  {
    match r
    case Send(status, body) => Respond(status, body)
    case Next(error) => ErrorHandler(Some(error))
  }

  /** What a route function answers before wrapping: 200, or 404 for a
      missing record on read, or an error with code 400 and a non-empty
      message, or a throw; anything but a 200 leaves the table alone. */
  lemma OpReplies(cfg: Config, t: Table, op: Operation, req: Request, parseInt: IntParser, pager: Pager)
    requires KeyedBy(cfg.primaryKey, t) && Progress(pager)
    ensures var inner := OpResult(cfg, t, op, req, parseInt, pager);
      && (inner.reply.Send? ==> inner.reply.status == 200 || (op == ReadOp && req.key !in t && inner.reply.status == 404))
      && (op == ReadOp && req.key !in t ==> inner.reply.Send? && inner.reply.status == 404)
      && (inner.reply.Next? ==> inner.reply.error.code == Some(400) && Truthy(inner.reply.error.message))
      && (!(inner.reply.Send? && inner.reply.status == 200) ==> inner.table == t)
  {
    match op
    case ListOp =>
      var c := CheckLimit(req.limit, parseInt, cfg.maxLimit);
      if c.Refused? {
        assert c.message != "";
      }
    case CreateOp =>
    case ReadOp =>
    case UpdateOp =>
    case DeleteOp =>
  }

  /** The client's view of a route function's outcome once wrapped: 200,
      404 for a missing record on read, 400 with the operation's message, or
      500 with the wrapper's message; only a 200 changes the table. */
  lemma WrappedResponses(cfg: Config, t: Table, op: Operation, req: Request, parseInt: IntParser, pager: Pager)
    requires KeyedBy(cfg.primaryKey, t) && Progress(pager)
    ensures var inner := OpResult(cfg, t, op, req, parseInt, pager);
      var resp := Finish(Wrap(inner.reply));
      && resp.Respond?
      && (resp.status == 200 || resp.status == 404 || resp.status == 400 || resp.status == 500)
      && (resp.status == 404 ==> op == ReadOp && req.key !in t)
      && (op == ReadOp && req.key !in t ==> resp.status == 404)
      && (resp.status == 400 ==> inner.reply.Next? && resp.body == ErrorBody(inner.reply.error.message))
      && (resp.status == 500 ==> resp.body == ErrorBody(Str(InternalErrorMessage)))
      && (resp.status != 200 ==> inner.table == t)
  {
    OpReplies(cfg, t, op, req, parseInt, pager);
  }

  /** The client's view of one request to the CRUD service: the status is
      200, 404, 400 or 500; a 400 carries the operation's message or the
      validator's error list, and a 500 the wrapper's message. */
  lemma CrudResponses(cfg: Config, t: Table, schema: Option<Schema>, op: Operation, req: Request,
                      parseInt: IntParser, pager: Pager)
    requires KeyedBy(cfg.primaryKey, t) && Progress(pager)
    ensures var s := Serve(cfg, t, schema, op, req, parseInt, pager);
      var resp := Finish(s.reply);
      && resp.Respond?
      && (resp.status == 200 || resp.status == 404 || resp.status == 400 || resp.status == 500)
      && (resp.status == 404 ==> op == ReadOp && req.key !in t)
      && (op == ReadOp && req.key !in t && req.verb == GET ==> resp.status == 404)
      && (resp.status == 400 ==> s.reply.Next? && resp.body == ErrorBody(s.reply.error.message))
      && (resp.status == 500 ==> resp.body == ErrorBody(Str(InternalErrorMessage)))
      && (resp.status != 200 ==> s.table == t)
  {
    var g := if schema.Some? then GateCheck(schema.value, req.verb, req.body) else Pass(req.body);
    var s := Serve(cfg, t, schema, op, req, parseInt, pager);
    if g.Pass? {
      var passed := req.(body := g.body);
      var inner := OpResult(cfg, t, op, passed, parseInt, pager);
      WrappedResponses(cfg, t, op, passed, parseInt, pager);
      assert passed.key == req.key;
      assert s == Step(Wrap(inner.reply), inner.table);
    } else {
      assert s == Step(Next(g.error), t);
    }
  }

  /** A refused PUT or POST body reaches the client as 400 with the
      validator's error list, even when that list is empty. */
  lemma ValidationResponse(cfg: Config, t: Table, schema: Schema, op: Operation, req: Request,
                           parseInt: IntParser, pager: Pager)
    requires KeyedBy(cfg.primaryKey, t) && Progress(pager)
    requires req.verb == PUT || req.verb == POST
    requires Validate(schema, req.body).Invalid?
    ensures Finish(Serve(cfg, t, Some(schema), op, req, parseInt, pager).reply)
         == Respond(400, ErrorBody(Arr(Validate(schema, req.body).errors)))
  {
  }
}
