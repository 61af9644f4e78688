/** Properties of the CRUD operations, alone and in sequence: what the
    handler's test suite exercises, stated for every table and payload. */
module CrudProperties {
  import opened Json
  import opened Http
  import opened Storage
  import opened Crud

  // -------------------------------------------------------------------- list

  /** A refused limit is answered before the store is scanned: the reply does
      not depend on the table's pages at all. */
  lemma ListRefusalScansNothing(cfg: Config, query: Option<string>, parseInt: IntParser, p1: Pager, p2: Pager)
    requires Progress(p1) && Progress(p2)
    requires CheckLimit(query, parseInt, cfg.maxLimit).Refused?
    ensures ListResult(cfg, query, parseInt, p1) == ListResult(cfg, query, parseInt, p2)
    ensures ListResult(cfg, query, parseInt, p1).error.code == Some(400)
  {
  }

  /** Without a limit the listing scans up to the configured default. */
  lemma ListDefaultLimit(cfg: Config, parseInt: IntParser, pager: Pager)
    requires Progress(pager)
    ensures ListResult(cfg, None, parseInt, pager) == Send(200, Records(AllInfo(pager, cfg.defaultLimit)))
  {
  }

  /** A valid explicit limit is the one the listing scans up to. */
  lemma ListExplicitLimit(cfg: Config, query: Option<string>, parseInt: IntParser, pager: Pager, n: nat)
    requires Progress(pager)
    requires query.Some? && query.value != "" && parseInt(query.value) == Some(n) && n <= cfg.maxLimit
    ensures ListResult(cfg, query, parseInt, pager) == Send(200, Records(AllInfo(pager, n)))
  {
  }

  /** A successful listing holds at most the accepted limit (or the default)
      of records when every page keeps to its requested size; an explicit
      limit is at most the configured maximum. */
  lemma ListBound(cfg: Config, query: Option<string>, parseInt: IntParser, pager: Pager)
    requires Progress(pager) && PageBound(pager)
    requires CheckLimit(query, parseInt, cfg.maxLimit).Accepted?
    ensures var limit := CheckLimit(query, parseInt, cfg.maxLimit).limit;
      var r := ListResult(cfg, query, parseInt, pager);
      && r.body.Arr?
      && (limit.Some? ==> |r.body.elems| <= limit.value <= cfg.maxLimit)
      && (limit.None? ==> |r.body.elems| <= cfg.defaultLimit)
  {
    var limit := CheckLimit(query, parseInt, cfg.maxLimit).limit;
    ListingFacts(pager, if limit.Some? then limit.value else cfg.defaultLimit);
  }

  /** A successful listing over pages drawn from the table returns stored
      records only, each the one stored under its own key. */
  lemma ListFromTable(cfg: Config, query: Option<string>, parseInt: IntParser, pager: Pager, t: Table)
    requires Progress(pager) && PagesOf(pager, cfg.primaryKey, t)
    requires CheckLimit(query, parseInt, cfg.maxLimit).Accepted?
    ensures var r := ListResult(cfg, query, parseInt, pager);
      forall i :: 0 <= i < |r.body.elems| ==> r.body.elems[i].Obj? && StoredIn(cfg.primaryKey, t, r.body.elems[i].fields)
  {
    var limit := CheckLimit(query, parseInt, cfg.maxLimit).limit;
    var lim := if limit.Some? then limit.value else cfg.defaultLimit;
    WalkFromTable(pager, cfg.primaryKey, t, None, lim, 0);
    var rs := AllInfo(pager, lim);
    assert rs == Collected(Walk(pager, None, lim, 0));
    assert ListResult(cfg, query, parseInt, pager) == Send(200, Records(rs));
  }

  // ------------------------------------------------------------ create, read

  /** After a successful create, reading the key returns the payload
      (without its nulls when null removal is on). */
  lemma CreateThenRead(cfg: Config, t: Table, body: Record)
    requires KeyedBy(cfg.primaryKey, t)
    requires CreateResult(cfg, t, body).reply.Send?
    ensures cfg.primaryKey in body && body[cfg.primaryKey].Str?
    ensures ReadResult(cfg, CreateResult(cfg, t, body).table, body[cfg.primaryKey].s)
         == Send(200, Obj(Cleaned(cfg, body)))
  {
  }

  /** A second create with the same key fails with 400, whatever its payload,
      and leaves the table as the first create left it. */
  lemma CreateTwiceConflicts(cfg: Config, t: Table, body: Record, again: Record)
    requires KeyedBy(cfg.primaryKey, t)
    requires CreateResult(cfg, t, body).reply.Send?
    requires cfg.primaryKey in again && again[cfg.primaryKey] == body[cfg.primaryKey]
    ensures var t1 := CreateResult(cfg, t, body).table;
      && CreateResult(cfg, t1, again).reply == Next(BadRequest(ExistsMessage(cfg, body[cfg.primaryKey].s)))
      && CreateResult(cfg, t1, again).table == t1
  {
  }

  /** A key of white space only is refused and nothing is stored. */
  lemma CreateBlankKeyRefused(cfg: Config, t: Table, body: Record)
    requires KeyedBy(cfg.primaryKey, t)
    requires cfg.primaryKey in body && body[cfg.primaryKey].Str? && AllSpace(body[cfg.primaryKey].s)
    ensures CreateResult(cfg, t, body) == Step(Next(BadRequest(EmptyKeyMessage(cfg))), t)
  {
  }

  // ------------------------------------------------------------------ update

  /** The payload's key field cannot send the write anywhere but the target:
      it is absent, the path key, a non-empty string, or a null that null
      removal drops. */
  predicate KeySound(cfg: Config, key: string, payload: Record) {
    var pk := cfg.primaryKey;
    || pk !in payload
    || payload[pk] == Str(key)
    || (payload[pk].Str? && payload[pk].s != "")
    || (payload[pk] == Null && cfg.removeNulls)
  }

  /** The record an update writes: the existing record overlaid by the
      payload, cleaned, with the target key in its key field. */
  function Merged(cfg: Config, existing: Record, payload: Record, target: string): Record {
    ItemFor(cfg.primaryKey, target, Cleaned(cfg, Overlay(existing, payload)))
  }

  /** Field by field: payload fields win, fields the payload does not mention
      are kept, null fields are dropped under null removal, and the key field
      holds the target key. */
  lemma MergedFields(cfg: Config, existing: Record, payload: Record, target: string)
    requires cfg.primaryKey in existing && existing[cfg.primaryKey].Str?
    requires cfg.primaryKey in payload ==>
      (payload[cfg.primaryKey] == Str(target) || (payload[cfg.primaryKey] == Null && cfg.removeNulls))
    requires cfg.primaryKey !in payload ==> existing[cfg.primaryKey] == Str(target)
    ensures var m := Merged(cfg, existing, payload, target);
      && m.Keys <= existing.Keys + payload.Keys
      && m[cfg.primaryKey] == Str(target)
      && (forall f :: f in payload && (payload[f] != Null || !cfg.removeNulls) ==> f in m && m[f] == payload[f])
      && (forall f :: f in existing && f !in payload && (existing[f] != Null || !cfg.removeNulls) ==>
            f in m && m[f] == existing[f])
      && (cfg.removeNulls ==> forall f :: f in payload && payload[f] == Null && f != cfg.primaryKey ==> f !in m)
      && (cfg.removeNulls ==> forall f :: f in m ==> m[f] != Null)
  {
    var pk := cfg.primaryKey;
    var o := Overlay(existing, payload);
    var c := Cleaned(cfg, o);
    var m := Merged(cfg, existing, payload, target);
    if pk in c {
      assert c[pk] == o[pk];
      assert m[pk] == Str(target);
    }
  }

  /** A successful update (no rename collision): 200 naming the target key,
      the path key removed on a rename, the merged record stored under the
      target key, and every other key untouched. */
  lemma UpdateWrites(cfg: Config, t: Table, key: string, payload: Record)
    requires KeyedBy(cfg.primaryKey, t)
    requires key in t && payload != map[]
    requires KeySound(cfg, key, payload)
    requires Renames(cfg, key, payload) ==> payload[cfg.primaryKey].s !in t
    ensures var s := UpdateResult(cfg, t, key, payload);
      var target := Target(cfg, key, payload);
      && s.reply == Send(200, SuccessBody(UpdatedMessage(cfg, target)))
      && (target == key <==> !Renames(cfg, key, payload))
      && target in s.table
      && s.table[target] == Merged(cfg, t[key], payload, target)
      && (target != key ==> key !in s.table && target !in t)
      && (forall k :: k != key && k != target ==>
            (k in s.table <==> k in t) && (k in t ==> s.table[k] == t[k]))
  {
    var pk := cfg.primaryKey;
    var target := Target(cfg, key, payload);
    var rest := if Renames(cfg, key, payload) then t - {key} else t;
    var info := Cleaned(cfg, Overlay(t[key], payload));
    if pk in info {
      assert info[pk] == Overlay(t[key], payload)[pk];
      assert info[pk] == Str(target);
    }
    PutAtKey(pk, rest, target, info);
  }

  /** Update then read: the target key reads back the merged record, and after
      a rename the old key is gone. */
  lemma UpdateThenRead(cfg: Config, t: Table, key: string, payload: Record)
    requires KeyedBy(cfg.primaryKey, t)
    requires key in t && payload != map[]
    requires KeySound(cfg, key, payload)
    requires Renames(cfg, key, payload) ==> payload[cfg.primaryKey].s !in t
    ensures var s := UpdateResult(cfg, t, key, payload);
      var target := Target(cfg, key, payload);
      && ReadResult(cfg, s.table, target) == Send(200, Obj(Merged(cfg, t[key], payload, target)))
      && (Renames(cfg, key, payload) ==>
            ReadResult(cfg, s.table, key) == Send(404, ErrorBody(Str(NotFoundMessage(cfg, key)))))
  {
    UpdateWrites(cfg, t, key, payload);
  }

  /** A rename onto an occupied key is refused before anything is deleted:
      both records stay as they were. */
  lemma RenameCollisionRefused(cfg: Config, t: Table, key: string, payload: Record)
    requires KeyedBy(cfg.primaryKey, t)
    requires key in t && payload != map[]
    requires Renames(cfg, key, payload) && payload[cfg.primaryKey].Str?
    requires payload[cfg.primaryKey].s in t
    ensures UpdateResult(cfg, t, key, payload)
         == Step(Next(BadRequest(RenameTakenMessage(cfg, key, payload[cfg.primaryKey].s))), t)
  {
  }

  // ------------------------------------------------------------------ delete

  /** Delete succeeds whether or not the key exists, a later read is 404, and
      deleting twice leaves the same table as deleting once. */
  lemma DeleteThenRead(cfg: Config, t: Table, key: string)
    ensures var s := DeleteResult(cfg, t, key);
      && s.reply.status == 200
      && ReadResult(cfg, s.table, key) == Send(404, ErrorBody(Str(NotFoundMessage(cfg, key))))
      && DeleteResult(cfg, s.table, key).table == s.table
  {
  }

  // -------------------------------------------------------------- a session

  /** The create step of the session: the record is stored as sent. */
  lemma SessionCreate(cfg: Config, t: Table)
    requires KeyedBy(cfg.primaryKey, t) && "testemail@mail" !in t
    ensures var created := CreateResult(cfg, t, map[cfg.primaryKey := Str("testemail@mail")]);
      && created.reply.Send? && created.reply.status == 200
      && created.table == t["testemail@mail" := map[cfg.primaryKey := Str("testemail@mail")]]
  {
    var body := map[cfg.primaryKey := Str("testemail@mail")];
    assert "testemail@mail"[0] == 't' && !IsSpace('t');
    assert WithoutNulls(body) == body;
  }

  /** The update step of the session: the new field joins the stored one. */
  lemma SessionUpdate(cfg: Config, t: Table)
    requires cfg.primaryKey != "firstName"
    requires KeyedBy(cfg.primaryKey, t) && "testemail@mail" in t
    requires t["testemail@mail"] == map[cfg.primaryKey := Str("testemail@mail")]
    ensures var updated := UpdateResult(cfg, t, "testemail@mail", map["firstName" := Str("Tester")]);
      && updated.reply.Send? && updated.reply.status == 200
      && updated.table == t["testemail@mail" := map[cfg.primaryKey := Str("testemail@mail"), "firstName" := Str("Tester")]]
  {
    var body := t["testemail@mail"];
    var payload := map["firstName" := Str("Tester")];
    assert "firstName" in payload;
    UpdateWrites(cfg, t, "testemail@mail", payload);
    MergedFields(cfg, body, payload, "testemail@mail");
    var m := Merged(cfg, body, payload, "testemail@mail");
    assert m.Keys == {cfg.primaryKey, "firstName"};
    assert m == map[cfg.primaryKey := Str("testemail@mail"), "firstName" := Str("Tester")];
    var s := UpdateResult(cfg, t, "testemail@mail", payload);
    assert s.table.Keys == t.Keys;
  }

  /** Create `{[primaryKey]: "testemail@mail"}`, update it with
      `{firstName: "Tester"}`, read back both fields, delete it, and read
      404. */
  lemma Session(cfg: Config, t: Table)
    requires cfg.primaryKey != "firstName"
    requires KeyedBy(cfg.primaryKey, t) && "testemail@mail" !in t
    ensures var created := CreateResult(cfg, t, map[cfg.primaryKey := Str("testemail@mail")]);
      var updated := UpdateResult(cfg, created.table, "testemail@mail", map["firstName" := Str("Tester")]);
      var removed := DeleteResult(cfg, updated.table, "testemail@mail");
      && created.reply.Send? && created.reply.status == 200
      && updated.reply.Send? && updated.reply.status == 200
      && ReadResult(cfg, updated.table, "testemail@mail")
         == Send(200, Obj(map[cfg.primaryKey := Str("testemail@mail"), "firstName" := Str("Tester")]))
      && removed.reply.status == 200
      && ReadResult(cfg, removed.table, "testemail@mail").status == 404
  {
    SessionCreate(cfg, t);
    var created := CreateResult(cfg, t, map[cfg.primaryKey := Str("testemail@mail")]);
    SessionUpdate(cfg, created.table);
    var updated := UpdateResult(cfg, created.table, "testemail@mail", map["firstName" := Str("Tester")]);
    DeleteThenRead(cfg, updated.table, "testemail@mail");
  }
}
