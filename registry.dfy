/** Registration of the handlers' routes on the router: for every handler,
    every route and every method, a validation gate (when the route has a
    schema) followed by the wrapped route function. */
module Registry {
  import opened Json
  import opened Http
  import opened Schemas
  import opened Storage
  import opened Crud

  /** What registration reads from a handler object: its version and its
      `routes` table. */
  datatype HandlerInfo = HandlerInfo(version: string, routes: seq<RouteInfo>)

  /** The handler object of the CRUD service. */
  function CrudHandler(cfg: Config): HandlerInfo {
    HandlerInfo(cfg.version, Routes(cfg))
  }

  /** One layer of the router: a validation gate or a wrapped route function,
      bound to a method and a path. */
  datatype Layer =
    | Gate(verb: HttpMethod, path: string, schema: Schema)
    | Endpoint(verb: HttpMethod, path: string, op: Operation)

  /** The mounted path of a route: `/{version}{route}`. */
  function PathOf(version: string, route: string): string {
    "/" + version + route
  }

  /** The layers one method entry adds. */
  function EntryLayers(path: string, schema: Option<Schema>, entry: (HttpMethod, Operation)): seq<Layer> {
    (if schema.Some? then [Gate(entry.0, path, schema.value)] else []) + [Endpoint(entry.0, path, entry.1)]
  }

  /** The layers a route's method entries add, in entry order. */
  function MethodsLayers(path: string, schema: Option<Schema>, entries: seq<(HttpMethod, Operation)>): seq<Layer> {
    if entries == [] then []
    else MethodsLayers(path, schema, entries[..|entries| - 1]) + EntryLayers(path, schema, entries[|entries| - 1])
  }

  /** The layers a handler's routes add, in route order. */
  function RoutesLayers(version: string, routes: seq<RouteInfo>): seq<Layer> {
    if routes == [] then []
    else
      var info := routes[|routes| - 1];
      RoutesLayers(version, routes[..|routes| - 1]) + MethodsLayers(PathOf(version, info.route), info.schema, info.methods)
  }

  /** The layers all handlers add, in handler order. */
  function Layers(handlers: seq<HandlerInfo>): seq<Layer> {
    if handlers == [] then []
    else
      var h := handlers[|handlers| - 1];
      Layers(handlers[..|handlers| - 1]) + RoutesLayers(h.version, h.routes)
  }

  /** The router's stack of layers. */
  class Router {
    var layers: seq<Layer>

    constructor ()
      ensures layers == []
    {
      layers := [];
    }

    /** `router[method](path, fn)`: appends one layer. */
    method Add(layer: Layer)
      modifies this
      ensures layers == old(layers) + [layer]
    {
      layers := layers + [layer];
    }
  }

  /** The exported setup function: walks handlers, routes and methods and adds
      their layers in that order. */
  method Register(router: Router, handlers: seq<HandlerInfo>)
    modifies router
    ensures router.layers == old(router.layers) + Layers(handlers)
  {
    for i := 0 to |handlers|
      invariant router.layers == old(router.layers) + Layers(handlers[..i])
    {
      RegisterRoutes(router, handlers[i].version, handlers[i].routes);
      assert handlers[..i + 1][..i] == handlers[..i];
    }
    assert handlers[..|handlers|] == handlers;
  }

  /** The `forEach` over one handler's routes. */
  method RegisterRoutes(router: Router, version: string, routes: seq<RouteInfo>)
    modifies router
    ensures router.layers == old(router.layers) + RoutesLayers(version, routes)
  {
    for j := 0 to |routes|
      invariant router.layers == old(router.layers) + RoutesLayers(version, routes[..j])
    {
      RegisterMethods(router, PathOf(version, routes[j].route), routes[j].schema, routes[j].methods);
      assert routes[..j + 1][..j] == routes[..j];
    }
    assert routes[..|routes|] == routes;
  }

  /** The `forEach` over one route's methods: the gate first when the route
      has a schema, then the wrapped route function. */
  method RegisterMethods(router: Router, path: string, schema: Option<Schema>, entries: seq<(HttpMethod, Operation)>)
    modifies router
    ensures router.layers == old(router.layers) + MethodsLayers(path, schema, entries)
  {
    for k := 0 to |entries|
      invariant router.layers == old(router.layers) + MethodsLayers(path, schema, entries[..k])
    {
      var (m, op) := entries[k];
      if schema.Some? {
        router.Add(Gate(m, path, schema.value));
      }
      router.Add(Endpoint(m, path, op));
      assert entries[..k + 1][..k] == entries[..k];
    }
    assert entries[..|entries|] == entries;
  }

  // -------------------------------------------------------- the layer table

  /** With a schema, entry `i` puts its gate at `2i` and its route function
      at `2i + 1`; without one, its route function at `i`. */
  lemma {:induction false} MethodsShape(path: string, schema: Option<Schema>, entries: seq<(HttpMethod, Operation)>)
    ensures var ls := MethodsLayers(path, schema, entries);
      && (schema.Some? ==>
            && |ls| == 2 * |entries|
            && (forall i :: 0 <= i < |entries| ==>
                  ls[2 * i] == Gate(entries[i].0, path, schema.value) && ls[2 * i + 1] == Endpoint(entries[i].0, path, entries[i].1)))
      && (schema.None? ==>
            && |ls| == |entries|
            && (forall i :: 0 <= i < |entries| ==> ls[i] == Endpoint(entries[i].0, path, entries[i].1)))
  {
    if entries != [] {
      var init := entries[..|entries| - 1];
      MethodsShape(path, schema, init);
      forall i | 0 <= i < |init| ensures init[i] == entries[i] { }
    }
  }

  /** A layer is in a route's layers exactly when one of its entries adds it. */
  lemma {:induction false} MethodsMember(path: string, schema: Option<Schema>, entries: seq<(HttpMethod, Operation)>, l: Layer)
    ensures l in MethodsLayers(path, schema, entries) <==> exists e :: e in entries && l in EntryLayers(path, schema, e)
  {
    if entries != [] {
      var init := entries[..|entries| - 1];
      var last := entries[|entries| - 1];
      MethodsMember(path, schema, init, l);
      assert entries == init + [last];
      if l in EntryLayers(path, schema, last) {
        assert last in entries;
      }
      if exists e :: e in entries && l in EntryLayers(path, schema, e) {
        var e :| e in entries && l in EntryLayers(path, schema, e);
        if e != last {
          assert e in init;
        }
      }
    }
  }

  /** A layer is in a handler's layers exactly when an entry of one of its
      routes adds it at that route's path. */
  lemma {:induction false} RoutesMember(version: string, routes: seq<RouteInfo>, l: Layer)
    ensures l in RoutesLayers(version, routes) <==>
      exists r, e :: r in routes && e in r.methods && l in EntryLayers(PathOf(version, r.route), r.schema, e)
  {
    if routes != [] {
      var init := routes[..|routes| - 1];
      var last := routes[|routes| - 1];
      RoutesMember(version, init, l);
      MethodsMember(PathOf(version, last.route), last.schema, last.methods, l);
      assert routes == init + [last];
      if exists r, e :: r in routes && e in r.methods && l in EntryLayers(PathOf(version, r.route), r.schema, e) {
        var r, e :| r in routes && e in r.methods && l in EntryLayers(PathOf(version, r.route), r.schema, e);
        if r != last {
          assert r in init;
        }
      }
    }
  }

  /** Every layer of the router comes from a method entry of some route of
      some handler, and every method entry's layers are registered. */
  lemma {:induction false} LayersMember(handlers: seq<HandlerInfo>, l: Layer)
    ensures l in Layers(handlers) <==>
      exists h, r, e :: h in handlers && r in h.routes && e in r.methods && l in EntryLayers(PathOf(h.version, r.route), r.schema, e)
  {
    if handlers != [] {
      var init := handlers[..|handlers| - 1];
      var last := handlers[|handlers| - 1];
      LayersMember(init, l);
      RoutesMember(last.version, last.routes, l);
      assert handlers == init + [last];
      if exists h, r, e :: h in handlers && r in h.routes && e in r.methods && l in EntryLayers(PathOf(h.version, r.route), r.schema, e) {
        var h, r, e :| h in handlers && r in h.routes && e in r.methods && l in EntryLayers(PathOf(h.version, r.route), r.schema, e);
        if h != last {
          assert h in init;
        }
      }
    }
  }

  /** A route function is registered for `(method, path)` exactly when some
      route of some handler declares that method at that path. */
  lemma EndpointRegistered(handlers: seq<HandlerInfo>, m: HttpMethod, path: string, op: Operation)
    ensures Endpoint(m, path, op) in Layers(handlers) <==>
      exists h, r :: h in handlers && r in h.routes && (m, op) in r.methods && path == PathOf(h.version, r.route)
  {
    LayersMember(handlers, Endpoint(m, path, op));
  }

  /** A gate is registered for `(method, path)` exactly when some route with
      that schema declares the method at that path. */
  lemma GateRegistered(handlers: seq<HandlerInfo>, m: HttpMethod, path: string, schema: Schema)
    ensures Gate(m, path, schema) in Layers(handlers) <==>
      exists h, r, e :: h in handlers && r in h.routes && e in r.methods && e.0 == m
                     && path == PathOf(h.version, r.route) && r.schema == Some(schema)
  {
    LayersMember(handlers, Gate(m, path, schema));
  }

  /** One more entry adds its layers at the end. */
  lemma MethodsSnoc(path: string, schema: Option<Schema>, entries: seq<(HttpMethod, Operation)>, e: (HttpMethod, Operation))
    ensures MethodsLayers(path, schema, entries + [e]) == MethodsLayers(path, schema, entries) + EntryLayers(path, schema, e)
  {
    assert (entries + [e])[..|entries|] == entries;
  }

  /** One more route adds its layers at the end. */
  lemma RoutesSnoc(version: string, routes: seq<RouteInfo>, r: RouteInfo)
    ensures RoutesLayers(version, routes + [r])
         == RoutesLayers(version, routes) + MethodsLayers(PathOf(version, r.route), r.schema, r.methods)
  {
    assert (routes + [r])[..|routes|] == routes;
  }

  /** The collection route's layers: list, then create, each behind a gate. */
  lemma CollectionLayers(cfg: Config)
    ensures var items := PathOf(cfg.version, "/" + cfg.tableName);
      var r := Routes(cfg)[0];
      MethodsLayers(items, r.schema, r.methods) ==
        [ Gate(GET, items, r.schema.value), Endpoint(GET, items, ListOp),
          Gate(POST, items, r.schema.value), Endpoint(POST, items, CreateOp) ]
  {
    var items := PathOf(cfg.version, "/" + cfg.tableName);
    var r := Routes(cfg)[0];
    MethodsSnoc(items, r.schema, [], (GET, ListOp));
    MethodsSnoc(items, r.schema, [(GET, ListOp)], (POST, CreateOp));
    assert [(GET, ListOp)] + [(POST, CreateOp)] == r.methods;
  }

  /** The item route's layers: update, read, then delete, each behind a gate. */
  lemma ItemLayers(cfg: Config)
    ensures var item := PathOf(cfg.version, "/" + cfg.tableName + "/:" + cfg.primaryKey);
      var r := Routes(cfg)[1];
      MethodsLayers(item, r.schema, r.methods) ==
        [ Gate(PUT, item, r.schema.value), Endpoint(PUT, item, UpdateOp),
          Gate(GET, item, r.schema.value), Endpoint(GET, item, ReadOp),
          Gate(DELETE, item, r.schema.value), Endpoint(DELETE, item, DeleteOp) ]
  {
    var item := PathOf(cfg.version, "/" + cfg.tableName + "/:" + cfg.primaryKey);
    var r := Routes(cfg)[1];
    MethodsSnoc(item, r.schema, [], (PUT, UpdateOp));
    MethodsSnoc(item, r.schema, [(PUT, UpdateOp)], (GET, ReadOp));
    MethodsSnoc(item, r.schema, [(PUT, UpdateOp), (GET, ReadOp)], (DELETE, DeleteOp));
    assert [(PUT, UpdateOp), (GET, ReadOp)] + [(DELETE, DeleteOp)] == r.methods;
  }

  /** The router of the CRUD service: each of the five methods behind its own
      gate, collection route first. */
  lemma CrudTable(cfg: Config)
    ensures var items := PathOf(cfg.version, "/" + cfg.tableName);
      var item := PathOf(cfg.version, "/" + cfg.tableName + "/:" + cfg.primaryKey);
      var collection := Routes(cfg)[0].schema.value;
      var single := Routes(cfg)[1].schema.value;
      Layers([CrudHandler(cfg)]) ==
        [ Gate(GET, items, collection), Endpoint(GET, items, ListOp),
          Gate(POST, items, collection), Endpoint(POST, items, CreateOp),
          Gate(PUT, item, single), Endpoint(PUT, item, UpdateOp),
          Gate(GET, item, single), Endpoint(GET, item, ReadOp),
          Gate(DELETE, item, single), Endpoint(DELETE, item, DeleteOp) ]
  {
    var routes := Routes(cfg);
    CollectionLayers(cfg);
    ItemLayers(cfg);
    RoutesSnoc(cfg.version, [], routes[0]);
    RoutesSnoc(cfg.version, [routes[0]], routes[1]);
    assert [routes[0]] + [routes[1]] == routes;
    assert [CrudHandler(cfg)][..0] == [];
    assert Layers([CrudHandler(cfg)]) == RoutesLayers(cfg.version, routes);
  }

  // ------------------------------------------------------ gate and wrapper

  /** An incoming request as the route functions read it: the method, the
      `:primaryKey` path parameter, the `limit` query parameter and the body. */
  datatype Request = Request(verb: HttpMethod, key: string, limit: Option<string>, body: Record)

  datatype Gated = Pass(body: Record) | Reject(error: HttpError)

  /** The validation gate: only PUT and POST bodies are validated; a failure
      passes the validator's errors on with code 400, a success continues
      with the body as the validator left it. */
  function GateCheck(schema: Schema, m: HttpMethod, body: Record): (g: Gated)
    ensures m != PUT && m != POST ==> g == Pass(body)
    ensures (m == PUT || m == POST) ==> (g.Reject? <==> Validate(schema, body).Invalid?)
    ensures g.Reject? ==> g.error == HttpError(Arr(Validate(schema, body).errors), Some(400), None)
    ensures (m == PUT || m == POST) && g.Pass? ==> g.body == Validate(schema, body).body
  {
    if m != PUT && m != POST then Pass(body)
    else
      match Validate(schema, body)
      case Valid(normalised) => Pass(normalised)
      case Invalid(errors) => Reject(HttpError(Arr(errors), Some(400), None))
  }

  const InternalErrorMessage := "Internal Server Error processing request."

  /** The error wrapper: a throw or rejection of the route function becomes an
      error with code 500; every other outcome is left as it is. */
  function Wrap(r: Reply): (w: Reply)
    ensures w != Fault
    ensures r.Fault? ==> w == Next(HttpError(Str(InternalErrorMessage), Some(500), None))
    ensures !r.Fault? ==> w == r
  {
    if r.Fault? then Next(HttpError(Str(InternalErrorMessage), Some(500), None)) else r
  }

  /** What the route function bound to `op` does with a request. */
  function OpResult(cfg: Config, t: Table, op: Operation, req: Request, parseInt: IntParser, pager: Pager): Step
    requires KeyedBy(cfg.primaryKey, t) && Progress(pager)
  {
    match op
    case ListOp => Step(ListResult(cfg, req.limit, parseInt, pager), t)
    case CreateOp => CreateResult(cfg, t, req.body)
    case ReadOp => Step(ReadResult(cfg, t, req.key), t)
    case UpdateOp => UpdateResult(cfg, t, req.key, req.body)
    case DeleteOp => DeleteResult(cfg, t, req.key)
  }

  /** A request through the gate of its route (if it has a schema) and then the
      wrapped route function: never a throw, and any error passed on carries
      code 400 (validation, or the operation's own refusal) or 500. */
  function Serve(cfg: Config, t: Table, schema: Option<Schema>, op: Operation, req: Request,
                 parseInt: IntParser, pager: Pager): (s: Step)
    requires KeyedBy(cfg.primaryKey, t) && Progress(pager)
    ensures KeyedBy(cfg.primaryKey, s.table)
    ensures s.reply != Fault
    ensures s.reply.Next? ==> s.reply.error.code == Some(400) || s.reply.error.code == Some(500)
  {
    var g := if schema.Some? then GateCheck(schema.value, req.verb, req.body) else Pass(req.body);
    match g
    case Reject(error) => Step(Next(error), t)
    case Pass(body) =>
      var s := OpResult(cfg, t, op, req.(body := body), parseInt, pager);
      Step(Wrap(s.reply), s.table)
  }

  /** A PUT or POST body the schema refuses is answered with the validator's
      errors and code 400 before the route function runs: whatever the
      operation, the table is unchanged. */
  lemma RejectedBeforeOperation(cfg: Config, t: Table, schema: Schema, op1: Operation, op2: Operation,
                                req: Request, parseInt: IntParser, pager: Pager)
    requires KeyedBy(cfg.primaryKey, t) && Progress(pager)
    requires req.verb == PUT || req.verb == POST
    requires Validate(schema, req.body).Invalid?
    ensures Serve(cfg, t, Some(schema), op1, req, parseInt, pager) == Serve(cfg, t, Some(schema), op2, req, parseInt, pager)
    ensures Serve(cfg, t, Some(schema), op1, req, parseInt, pager)
         == Step(Next(HttpError(Arr(Validate(schema, req.body).errors), Some(400), None)), t)
  {
  }

  /** GET and DELETE requests are never validated: the gate makes no
      difference to them. */
  lemma GateIgnoresReads(cfg: Config, t: Table, schema: Schema, op: Operation, req: Request,
                         parseInt: IntParser, pager: Pager)
    requires KeyedBy(cfg.primaryKey, t) && Progress(pager)
    requires req.verb == GET || req.verb == DELETE
    ensures Serve(cfg, t, Some(schema), op, req, parseInt, pager) == Serve(cfg, t, None, op, req, parseInt, pager)
  {
  }

  /** A PUT or POST body the schema accepts reaches the route function as
      the validator left it (unknown fields removed, strings transformed). */
  lemma ValidatedBodyReachesOperation(cfg: Config, t: Table, schema: Schema, op: Operation, req: Request,
                                      parseInt: IntParser, pager: Pager)
    requires KeyedBy(cfg.primaryKey, t) && Progress(pager)
    requires req.verb == PUT || req.verb == POST
    requires Validate(schema, req.body).Valid?
    ensures var inner := OpResult(cfg, t, op, req.(body := Validate(schema, req.body).body), parseInt, pager);
      Serve(cfg, t, Some(schema), op, req, parseInt, pager) == Step(Wrap(inner.reply), inner.table)
  {
  }

  /** Errors with code 500 come from exactly the operations that throw or
      reject, and leave the table as the operation left it. */
  lemma FaultBecomes500(cfg: Config, t: Table, schema: Option<Schema>, op: Operation, req: Request,
                        parseInt: IntParser, pager: Pager)
    requires KeyedBy(cfg.primaryKey, t) && Progress(pager)
    requires schema.None? || GateCheck(schema.value, req.verb, req.body).Pass?
    ensures var body := if schema.Some? then GateCheck(schema.value, req.verb, req.body).body else req.body;
      var inner := OpResult(cfg, t, op, req.(body := body), parseInt, pager);
      var s := Serve(cfg, t, schema, op, req, parseInt, pager);
      && (s.reply == Next(HttpError(Str(InternalErrorMessage), Some(500), None)) <==> inner.reply.Fault?)
      && s.table == inner.table
  {
    var body := if schema.Some? then GateCheck(schema.value, req.verb, req.body).body else req.body;
    var inner := OpResult(cfg, t, op, req.(body := body), parseInt, pager);
    if !inner.reply.Fault? && inner.reply.Next? {
      assert inner.reply.error.code == Some(400) by {
        match op
        case ListOp =>
        case CreateOp =>
        case ReadOp =>
        case UpdateOp =>
        case DeleteOp =>
      }
    }
  }

  /** The registered route function bound to the CRUD service: the gate for
      the route's schema, the operation, and the error wrapper. */
  method Handle(svc: CrudService, schema: Option<Schema>, op: Operation, req: Request,
                parseInt: IntParser, pager: Pager) returns (r: Reply)
    requires svc.Valid() && Progress(pager)
    modifies svc.db
    ensures svc.Valid()
    ensures Step(r, svc.db.items) == Serve(svc.config, old(svc.db.items), schema, op, req, parseInt, pager)
  {
    var body := req.body;
    if schema.Some? {
      match GateCheck(schema.value, req.verb, req.body)
      case Reject(error) =>
        return Next(error);
      case Pass(normalised) =>
        body := normalised;
    }
    var inner: Reply;
    match op {
      case ListOp => inner := svc.GetAllInfo(req.limit, parseInt, pager);
      case CreateOp => inner := svc.CreateInfo(body);
      case ReadOp => inner := svc.GetInfo(req.key);
      case UpdateOp => inner := svc.UpdateInfo(req.key, body);
      case DeleteOp => inner := svc.DeleteInfo(req.key);
    }
    r := Wrap(inner);
  }
}
