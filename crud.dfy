/** The CRUD handler for one collection of info records: its route table and
    the list, create, read, update and delete operations over the storage
    adapter. */
module Crud {
  import opened Json
  import opened Http
  import opened Schemas
  import opened Storage

  /** The configuration values the handler reads. */
  datatype Config = Config(
    primaryKey: string,
    tableName: string,
    infoType: string,
    version: string,
    maxLimit: int,
    defaultLimit: nat,
    removeNulls: bool,
    schema: Schema)

  // ------------------------------------------------------------------ routes

  datatype Operation = ListOp | CreateOp | ReadOp | UpdateOp | DeleteOp

  /** One entry of the `routes` getter: a path fragment, its schema and its
      methods in declaration order. */
  datatype RouteInfo = RouteInfo(route: string, schema: Option<Schema>, methods: seq<(HttpMethod, Operation)>)

  /** The `routes` getter: the collection route `/{tableName}` (list, create)
      and the item route `/{tableName}/:{primaryKey}` (update, read, delete),
      whose schema is the configured one with no required fields. */
  function Routes(cfg: Config): (routes: seq<RouteInfo>)
    ensures |routes| == 2
    ensures routes[0].route == "/" + cfg.tableName
    ensures routes[1].route == "/" + cfg.tableName + "/:" + cfg.primaryKey
    ensures routes[0].methods == [(GET, ListOp), (POST, CreateOp)]
    ensures routes[1].methods == [(PUT, UpdateOp), (GET, ReadOp), (DELETE, DeleteOp)]
    ensures routes[0].schema.Some? && routes[0].schema.value.required == cfg.schema.required
    ensures routes[1].schema.Some? && routes[1].schema.value.required == []
    ensures forall r :: r in routes ==> r.schema.Some? && r.schema.value.rules == cfg.schema.rules
  {
    [ RouteInfo("/" + cfg.tableName, Some(cfg.schema), [(GET, ListOp), (POST, CreateOp)]),
      RouteInfo("/" + cfg.tableName + "/:" + cfg.primaryKey, Some(cfg.schema.(required := [])),
                [(PUT, UpdateOp), (GET, ReadOp), (DELETE, DeleteOp)]) ]
  }

  /** A partial payload is never refused by the item route's required-field
      check: only the schema's other rules decide. */
  lemma ItemRouteSkipsRequired(cfg: Config, body: Record)
    ensures Validate(Routes(cfg)[1].schema.value, body) == cfg.schema.rules(body)
  {
  }

  // ---------------------------------------------------------------- messages

  const IntegerLimitMessage := "limit must be an integer value."
  const NegativeLimitMessage := "limit must be a positive number."
  const EmptyUpdateMessage := "Empty Update Object Recieved."

  function MaxLimitMessage(maxLimit: int): string {
    "Limit cannot be greater than the maximum configure limit: " + IntToString(maxLimit)
  }

  function EmptyKeyMessage(cfg: Config): string {
    cfg.primaryKey + " is required and cannot be empty."
  }

  function ExistsMessage(cfg: Config, key: string): string {
    cfg.infoType + " already exists with " + cfg.primaryKey + ": " + key
      + ". Please use update endpoint to change " + cfg.infoType + " info."
  }

  function AddedMessage(cfg: Config, key: string): string {
    "Added " + cfg.infoType + " for " + cfg.primaryKey + ": " + key
  }

  function NotFoundMessage(cfg: Config, key: string): string {
    "No " + cfg.infoType + " found for " + cfg.primaryKey + ": " + key
  }

  function MissingMessage(cfg: Config, key: string): string {
    cfg.infoType + " does not exist for " + cfg.primaryKey + ": " + key
      + ". Please use create endpoint to add new entries."
  }

  function RenameTakenMessage(cfg: Config, key: string, newKey: string): string {
    "Cannot update " + ToLower(cfg.infoType) + " with " + cfg.primaryKey + ": " + key
      + " to new " + cfg.primaryKey + ": " + newKey + ". As " + newKey + " already exists."
  }

  function UpdatedMessage(cfg: Config, key: string): string {
    "Updated " + cfg.infoType + " for " + cfg.primaryKey + ": " + key
  }

  function RemovedMessage(cfg: Config, key: string): string {
    "Removed " + cfg.primaryKey + ": " + key
  }

  // ------------------------------------------------------------------- limit

  /** `Number.parseInt` on the query string: `None` for a result that is not
      an integer (NaN). */
  type IntParser = string -> Option<int>

  datatype LimitCheck = Accepted(limit: Option<nat>) | Refused(message: string)

  /** The `limit` query parameter's checks, in the handler's order: an absent
      or empty parameter means no limit; otherwise not an integer, then
      negative, then above the maximum, each refuse with its own message. */
  function CheckLimit(query: Option<string>, parseInt: IntParser, maxLimit: int): (r: LimitCheck)
    ensures (query.None? || query.value == "") ==> r == Accepted(None)
    ensures r.Accepted? && r.limit.Some? ==>
      query.Some? && parseInt(query.value) == Some(r.limit.value) && r.limit.value <= maxLimit
    ensures r.Accepted? && query.Some? && query.value != "" ==>
      r.limit.Some? && parseInt(query.value) == Some(r.limit.value)
    ensures r.Refused? <==>
      && query.Some? && query.value != ""
      && (parseInt(query.value).None? || parseInt(query.value).value < 0
          || parseInt(query.value).value > maxLimit)
    ensures r.Refused? && parseInt(query.value).None? ==> r.message == IntegerLimitMessage
    ensures r.Refused? && parseInt(query.value).Some? && parseInt(query.value).value < 0 ==>
      r.message == NegativeLimitMessage
    ensures r.Refused? && parseInt(query.value).Some? && parseInt(query.value).value >= 0 ==>
      r.message == MaxLimitMessage(maxLimit)
  {
    if query.None? || query.value == "" then Accepted(None)
    else
      match parseInt(query.value)
      case None => Refused(IntegerLimitMessage)
      case Some(n) =>
        if n < 0 then Refused(NegativeLimitMessage)
        else if n > maxLimit then Refused(MaxLimitMessage(maxLimit))
        else Accepted(Some(n))
  }

  // ----------------------------------------------------- operation semantics

  /** A response body listing records. */
  function Records(rs: seq<Record>): (v: Value)
    ensures v.Arr? && |v.elems| == |rs|
    ensures forall i :: 0 <= i < |rs| ==> v.elems[i] == Obj(rs[i])
  {
    Arr(seq(|rs|, i requires 0 <= i < |rs| => Obj(rs[i])))
  }

  /** The record written for a payload under the null-removal policy. */
  function Cleaned(cfg: Config, info: Record): Record {
    if cfg.removeNulls then WithoutNulls(info) else info
  }

  /** What an operation answers and the table it leaves behind. */
  datatype Step = Step(reply: Reply, table: Table)

  /** List: refuse a bad limit before any scan, else scan up to the limit
      (the default one when no limit is given). */
  function ListResult(cfg: Config, query: Option<string>, parseInt: IntParser, pager: Pager): (r: Reply)
    requires Progress(pager)
    ensures CheckLimit(query, parseInt, cfg.maxLimit).Refused? ==>
      r == Next(BadRequest(CheckLimit(query, parseInt, cfg.maxLimit).message))
    ensures CheckLimit(query, parseInt, cfg.maxLimit).Accepted? ==> r.Send? && r.status == 200
  {
    match CheckLimit(query, parseInt, cfg.maxLimit)
    case Refused(message) => Next(BadRequest(message))
    case Accepted(limit) =>
      Send(200, Records(AllInfo(pager, if limit.Some? then limit.value else cfg.defaultLimit)))
  }

  /** Read: 200 with the stored record, or 404 naming the key. */
  function ReadResult(cfg: Config, t: Table, key: string): (r: Reply)
    ensures key in t <==> r.Send? && r.status == 200
    ensures key in t ==> r.body == Obj(t[key])
    ensures key !in t ==> r == Send(404, ErrorBody(Str(NotFoundMessage(cfg, key))))
  {
    match Lookup(t, key)
    case Some(item) => Send(200, Obj(item))
    case None => Send(404, ErrorBody(Str(NotFoundMessage(cfg, key))))
  }

  /** Create. A missing or non-string key field makes `trim` throw. */
  function CreateResult(cfg: Config, t: Table, body: Record): (s: Step)
    requires KeyedBy(cfg.primaryKey, t)
    ensures KeyedBy(cfg.primaryKey, s.table)
    ensures s.reply.Fault? <==> !(cfg.primaryKey in body && body[cfg.primaryKey].Str?)
    ensures !s.reply.Send? ==> s.table == t
    ensures s.reply.Next? ==> s.reply.error.code == Some(400)
    ensures cfg.primaryKey in body && body[cfg.primaryKey].Str? ==>
      var key := body[cfg.primaryKey].s;
      && (AllSpace(key) ==> s.reply == Next(BadRequest(EmptyKeyMessage(cfg))))
      && (!AllSpace(key) && key in t ==> s.reply == Next(BadRequest(ExistsMessage(cfg, key))))
      && (s.reply.Send? <==> !AllSpace(key) && key !in t)
      && (s.reply.Send? ==>
            s.reply == Send(200, SuccessBody(AddedMessage(cfg, key)))
            && s.table == t[key := Cleaned(cfg, body)])
  {
    var pk := cfg.primaryKey;
    if pk !in body || !body[pk].Str? then Step(Fault, t)
    else
      var key := body[pk].s;
      TrimEmptyIff(key);
      if Trim(key) == "" then Step(Next(BadRequest(EmptyKeyMessage(cfg))), t)
      else if key in t then Step(Next(BadRequest(ExistsMessage(cfg, key))), t)
      else
        CreateWrites(cfg, t, key, body);
        match PutItem(pk, t, key, Cleaned(cfg, body))
        case Some(t') => Step(Send(200, SuccessBody(AddedMessage(cfg, key))), t')
        case None => Step(Fault, t)
  }

  /** The put that create issues stores the cleaned payload under its key. */
  lemma CreateWrites(cfg: Config, t: Table, key: string, body: Record)
    requires KeyedBy(cfg.primaryKey, t)
    requires cfg.primaryKey in body && body[cfg.primaryKey] == Str(key)
    ensures PutItem(cfg.primaryKey, t, key, Cleaned(cfg, body)) == Some(t[key := Cleaned(cfg, body)])
    ensures KeyedBy(cfg.primaryKey, t[key := Cleaned(cfg, body)])
  {
    var info := Cleaned(cfg, body);
    assert info[cfg.primaryKey] == Str(key);
    PutAtKey(cfg.primaryKey, t, key, info);
    PutKeepsKeys(cfg.primaryKey, t, key, info);
  }

  /** The payload asks for a rename: its key field is truthy and differs
      from the path key. */
  predicate Renames(cfg: Config, key: string, payload: Record) {
    cfg.primaryKey in payload && Truthy(payload[cfg.primaryKey]) && payload[cfg.primaryKey] != Str(key)
  }

  /** The key an update writes to: the new key on a rename, else the path key. */
  function Target(cfg: Config, key: string, payload: Record): string {
    if Renames(cfg, key, payload) && payload[cfg.primaryKey].Str? then payload[cfg.primaryKey].s else key
  }

  /** Update. A rename onto a non-string key makes the store call reject. */
  function UpdateResult(cfg: Config, t: Table, key: string, payload: Record): (s: Step)
    requires KeyedBy(cfg.primaryKey, t)
    ensures KeyedBy(cfg.primaryKey, s.table)
    ensures key !in t ==> s == Step(Next(BadRequest(MissingMessage(cfg, key))), t)
    ensures key in t && payload == map[] ==> s == Step(Next(BadRequest(EmptyUpdateMessage)), t)
    ensures !s.reply.Send? ==> s.table == t
    ensures s.reply.Next? ==> s.reply.error.code == Some(400)
    ensures s.reply.Send? ==>
      key in t && payload != map[] && s.reply == Send(200, SuccessBody(UpdatedMessage(cfg, Target(cfg, key, payload))))
    ensures s.reply.Fault? <==>
      key in t && payload != map[] &&
      (if Renames(cfg, key, payload) then !payload[cfg.primaryKey].Str?
       else !ItemFor(cfg.primaryKey, key, Cleaned(cfg, Overlay(t[key], payload)))[cfg.primaryKey].Str?)
  {
    var pk := cfg.primaryKey;
    if key !in t then Step(Next(BadRequest(MissingMessage(cfg, key))), t)
    else if payload == map[] then Step(Next(BadRequest(EmptyUpdateMessage)), t)
    else if Renames(cfg, key, payload) && !payload[pk].Str? then Step(Fault, t)
    else if Renames(cfg, key, payload) && payload[pk].s in t then
      Step(Next(BadRequest(RenameTakenMessage(cfg, key, payload[pk].s))), t)
    else
      var target := Target(cfg, key, payload);
      var rest := if Renames(cfg, key, payload) then t - {key} else t;
      var info := Cleaned(cfg, Overlay(t[key], payload));
      assert Renames(cfg, key, payload) ==> info[pk] == Str(target);
      match PutItem(pk, rest, target, info)
      case Some(t') => Step(Send(200, SuccessBody(UpdatedMessage(cfg, target))), t')
      case None => Step(Fault, rest)
  }

  /** Delete: always 200, and the key is gone afterwards. */
  function DeleteResult(cfg: Config, t: Table, key: string): (s: Step)
    ensures s.reply == Send(200, SuccessBody(RemovedMessage(cfg, key)))
    ensures key !in s.table
    ensures forall k :: k != key ==> (k in s.table <==> k in t) && (k in t ==> s.table[k] == t[k])
  {
    Step(Send(200, SuccessBody(RemovedMessage(cfg, key))), t - {key})
  }

  // ------------------------------------------------------- the handler class

  /** The `forEach` that deletes every null-valued field of a payload. */
  method RemoveNulls(info: Record) returns (cleaned: Record)
    ensures cleaned == WithoutNulls(info)
  {
    cleaned := info;
    var keys := info.Keys;
    while keys != {}
      invariant keys <= info.Keys
      invariant cleaned.Keys <= info.Keys
      invariant forall f :: f in cleaned ==> cleaned[f] == info[f]
      invariant forall f :: f in info && f !in keys ==> (f in cleaned <==> info[f] != Null)
      invariant forall f :: f in keys ==> f in cleaned
      decreases keys
    {
      var f :| f in keys;
      if cleaned[f] == Null {
        cleaned := cleaned - {f};
      }
      keys := keys - {f};
    }
    assert cleaned.Keys == WithoutNulls(info).Keys;
  }

  class CrudService {
    const config: Config
    const db: DynamoDbService

    ghost predicate Valid()
      reads this, db
    {
      db.Valid() && db.primaryKey == config.primaryKey && db.defaultLimit == config.defaultLimit
    }

    constructor (config: Config, initial: Table)
      requires KeyedBy(config.primaryKey, initial)
      ensures Valid() && fresh(db)
      ensures this.config == config && db.items == initial
    {
      this.config := config;
      db := new DynamoDbService(config.primaryKey, config.defaultLimit, initial);
    }

    /** `_getAllInfo`. */
    method GetAllInfo(query: Option<string>, parseInt: IntParser, pager: Pager) returns (r: Reply)
      requires Valid() && Progress(pager)
      ensures r == ListResult(config, query, parseInt, pager)
    {
      match CheckLimit(query, parseInt, config.maxLimit)
      case Refused(message) =>
        r := Next(BadRequest(message));
      case Accepted(limit) =>
        var infoList := db.GetAllInfo(pager, limit);
        r := Send(200, Records(infoList));
    }

    /** `_createInfo`. */
    method CreateInfo(body: Record) returns (r: Reply)
      requires Valid()
      modifies db
      ensures Valid()
      ensures Step(r, db.items) == CreateResult(config, old(db.items), body)
    {
      var info := body;
      var pk := config.primaryKey;
      if pk !in info || !info[pk].Str? {
        return Fault;
      }
      var key := info[pk].s;
      if Trim(key) == "" {
        return Next(BadRequest(EmptyKeyMessage(config)));
      }
      var existing := db.Get(key);
      if existing.Some? {
        return Next(BadRequest(ExistsMessage(config, key)));
      }
      if config.removeNulls {
        info := RemoveNulls(info);
      }
      var ok := db.Put(key, info);
      if !ok {
        return Fault;
      }
      return Send(200, SuccessBody(AddedMessage(config, key)));
    }

    /** `_getInfo`. */
    method GetInfo(key: string) returns (r: Reply)
      requires Valid()
      ensures r == ReadResult(config, db.items, key)
    {
      var info := db.Get(key);
      if info.Some? {
        r := Send(200, Obj(info.value));
      } else {
        r := Send(404, ErrorBody(Str(NotFoundMessage(config, key))));
      }
    }

    /** `_updateInfo`. */
    method UpdateInfo(pathKey: string, payload: Record) returns (r: Reply)
      requires Valid()
      modifies db
      ensures Valid()
      ensures Step(r, db.items) == UpdateResult(config, old(db.items), pathKey, payload)
    {
      var key := pathKey;
      var pk := config.primaryKey;
      var existing := db.Get(key);
      if existing.None? {
        return Next(BadRequest(MissingMessage(config, key)));
      }
      var info := payload;
      if info == map[] {
        return Next(BadRequest(EmptyUpdateMessage));
      }
      if pk in info && Truthy(info[pk]) && info[pk] != Str(key) {
        if !info[pk].Str? {
          return Fault;
        }
        var renameExisting := db.Get(info[pk].s);
        if renameExisting.Some? {
          return Next(BadRequest(RenameTakenMessage(config, key, info[pk].s)));
        }
        db.Delete(key);
        key := info[pk].s;
      }
      info := Overlay(existing.value, info);
      if config.removeNulls {
        info := RemoveNulls(info);
      }
      var ok := db.Put(key, info);
      if !ok {
        return Fault;
      }
      return Send(200, SuccessBody(UpdatedMessage(config, key)));
    }

    /** `_deleteInfo`. */
    method DeleteInfo(key: string) returns (r: Reply)
      requires Valid()
      modifies db
      ensures Valid()
      ensures Step(r, db.items) == DeleteResult(config, old(db.items), key)
    {
      db.Delete(key);
      r := Send(200, SuccessBody(RemovedMessage(config, key)));
    }
  }
}
