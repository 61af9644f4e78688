/** The storage adapter over one DynamoDB table: get, put, delete, and the
    paginated scan that lists items up to a limit. */
module Storage {
  import opened Json

  /** The table, by primary-key value. */
  type Table = map<string, Record>

  /** Every stored item carries its own key in the primary-key attribute
      (DynamoDB takes an item's key from the item itself). */
  ghost predicate KeyedBy(primaryKey: string, t: Table) {
    forall k :: k in t ==> primaryKey in t[k] && t[k][primaryKey] == Str(k)
  }

  /** The lookup `get` performs: the item, or no `Item` in the answer. */
  function Lookup(t: Table, key: string): (r: Option<Record>)
    ensures r.Some? <==> key in t
    ensures r.Some? ==> r.value == t[key]
  {
    if key in t then Some(t[key]) else None
  }

  /** The item `put` sends: `{[primaryKey]: key, ...info}`. A primary-key
      field inside `info` wins over `key`. */
  function ItemFor(primaryKey: string, key: string, info: Record): (item: Record)
    ensures item.Keys == info.Keys + {primaryKey}
    ensures forall f :: f in info ==> item[f] == info[f]
    ensures primaryKey !in info ==> item[primaryKey] == Str(key)
  {
    Overlay(map[primaryKey := Str(key)], info)
  }

  /** A full overwrite of the entry named by the item's own key attribute;
      `None` when that attribute is not a string (the store rejects the call). */
  function PutItem(primaryKey: string, t: Table, key: string, info: Record): (r: Option<Table>)
    ensures r.Some? <==> ItemFor(primaryKey, key, info)[primaryKey].Str?
    ensures r.Some? ==>
      var k := ItemFor(primaryKey, key, info)[primaryKey].s;
      && r.value.Keys == t.Keys + {k}
      && r.value[k] == ItemFor(primaryKey, key, info)
      && forall other :: other in t && other != k ==> r.value[other] == t[other]
  {
    var item := ItemFor(primaryKey, key, info);
    match item[primaryKey]
    case Str(k) => Some(t[k := item])
    case _ => None
  }

  /** A put keeps every item keyed by its own primary-key attribute. */
  lemma PutKeepsKeys(primaryKey: string, t: Table, key: string, info: Record)
    requires KeyedBy(primaryKey, t)
    requires PutItem(primaryKey, t, key, info).Some?
    ensures KeyedBy(primaryKey, PutItem(primaryKey, t, key, info).value)
  {
  }

  /** When `info` names no other key, `put(key, info)` writes exactly under
      `key`, and if `info` already carries the key the item is `info` itself. */
  lemma PutAtKey(primaryKey: string, t: Table, key: string, info: Record)
    requires primaryKey !in info || info[primaryKey] == Str(key)
    ensures PutItem(primaryKey, t, key, info) == Some(t[key := ItemFor(primaryKey, key, info)])
    ensures primaryKey in info ==> ItemFor(primaryKey, key, info) == info
  {
  }

  // ---------------------------------------------------------------- scanning

  /** One scan answer: `Items` and `LastEvaluatedKey`. */
  datatype Page = Page(items: seq<Record>, next: Option<Record>)

  /** The table as DynamoDB pages it: `scan(ExclusiveStartKey, Limit)`, and a
      measure of how much of the table lies after a cursor. */
  datatype Pager = Pager(scan: (Option<Record>, nat) -> Page, rank: Record -> nat)

  /** A page holds at most the requested number of items. */
  ghost predicate PageBound(p: Pager) {
    forall start: Option<Record>, n: nat :: |p.scan(start, n).items| <= n
  }

  /** Each continuation token lies further into the table than the one the
      scan started from (the table is finite). */
  ghost predicate Progress(p: Pager) {
    forall start: Option<Record>, n: nat ::
      start.Some? && p.scan(start, n).next.Some? ==>
        p.rank(p.scan(start, n).next.value) < p.rank(start.value)
  }

  /** `r` is the item `t` stores under `r`'s own primary-key attribute. */
  ghost predicate StoredIn(primaryKey: string, t: Table, r: Record) {
    primaryKey in r && r[primaryKey].Str? && r[primaryKey].s in t && t[r[primaryKey].s] == r
  }

  /** The pages are drawn from table `t`: every item a scan returns is stored
      in it. */
  ghost predicate PagesOf(p: Pager, primaryKey: string, t: Table) {
    forall start: Option<Record>, n: nat, i: int :: 0 <= i < |p.scan(start, n).items| ==>
      StoredIn(primaryKey, t, p.scan(start, n).items[i])
  }

  /** One scan call of the listing loop: where it started, how many items it
      asked for, and what it got. */
  datatype Call = Call(start: Option<Record>, requested: nat, page: Page)

  /** The scan calls the do-while loop makes from `start` once `count` items
      have been gathered. */
  function Walk(p: Pager, start: Option<Record>, limit: nat, count: nat): (calls: seq<Call>)
    requires Progress(p)
    requires count <= limit
    requires start.Some? ==> count < limit
    decreases if start.None? then 1 else 0, if start.Some? then p.rank(start.value) else 0
  {
    var page := p.scan(start, limit - count);
    var seen := count + |page.items|;
    [Call(start, limit - count, page)]
      + (if seen < limit && page.next.Some? then Walk(p, page.next, limit, seen) else [])
  }

  /** The items of the calls' pages, in order. */
  function Collected(calls: seq<Call>): seq<Record> {
    if calls == [] then [] else calls[0].page.items + Collected(calls[1..])
  }

  /** The scan calls of one listing and what it returns. */
  function Scans(p: Pager, limit: nat): seq<Call>
    requires Progress(p)
  {
    Walk(p, None, limit, 0)
  }

  function AllInfo(p: Pager, limit: nat): seq<Record>
    requires Progress(p)
  {
    Collected(Scans(p, limit))
  }

  lemma CollectedAppend(a: seq<Call>, b: seq<Call>)
    ensures Collected(a + b) == Collected(a) + Collected(b)
  {
    if a == [] {
      assert a + b == b;
    } else {
      assert (a + b)[0] == a[0];
      assert (a + b)[1..] == a[1..] + b;
      CollectedAppend(a[1..], b);
      calc {
        Collected(a + b);
        a[0].page.items + Collected(a[1..] + b);
        a[0].page.items + (Collected(a[1..]) + Collected(b));
        (a[0].page.items + Collected(a[1..])) + Collected(b);
      }
    }
  }

  /** The first call of a walk, and the walk after it. */
  lemma WalkUnfold(p: Pager, start: Option<Record>, limit: nat, count: nat)
    requires Progress(p)
    requires count <= limit
    requires start.Some? ==> count < limit
    ensures var t := Walk(p, start, limit, count);
      var page := p.scan(start, limit - count);
      var seen := count + |page.items|;
      && |t| >= 1
      && t[0] == Call(start, limit - count, page)
      && t[1..] == (if seen < limit && page.next.Some? then Walk(p, page.next, limit, seen) else [])
      && Collected(t) == page.items + Collected(t[1..])
  {
    var t := Walk(p, start, limit, count);
    assert t == [t[0]] + t[1..];
  }

  /** What the first `i` calls gather is the first page followed by what the
      first `i - 1` later calls gather. */
  lemma CollectedPrefix(t: seq<Call>, i: nat)
    requires 0 < i <= |t|
    ensures Collected(t[..i]) == t[0].page.items + Collected(t[1..][..i - 1])
  {
    assert t[..i] == [t[0]] + t[1..][..i - 1];
    CollectedAppend([t[0]], t[1..][..i - 1]);
  }

  /** What the scans from `start` gather once `count` items are gathered,
      or nothing when the loop has already stopped there. */
  ghost function Remaining(p: Pager, start: Option<Record>, limit: nat, count: nat): seq<Record>
    requires Progress(p)
  {
    if count < limit && start.Some? then Collected(Walk(p, start, limit, count)) else []
  }

  /** One turn of the loop: the gathered items are the current page followed
      by what the remaining scans gather. */
  lemma WalkStep(p: Pager, start: Option<Record>, limit: nat, count: nat)
    requires Progress(p)
    requires count <= limit
    requires start.Some? ==> count < limit
    ensures var page := p.scan(start, limit - count);
      Collected(Walk(p, start, limit, count)) == page.items + Remaining(p, page.next, limit, count + |page.items|)
  {
    WalkUnfold(p, start, limit, count);
  }

  /** The loop scans at least once, and every later scan starts from the
      previous page's `LastEvaluatedKey`. */
  lemma {:induction false} WalkChained(p: Pager, start: Option<Record>, limit: nat, count: nat)
    requires Progress(p)
    requires count <= limit
    requires start.Some? ==> count < limit
    ensures var t := Walk(p, start, limit, count);
      && |t| >= 1
      && t[0].start == start
      && (forall i :: 0 <= i < |t| ==> t[i].page == p.scan(t[i].start, t[i].requested))
      && (forall i :: 0 < i < |t| ==> t[i].start == t[i - 1].page.next)
    decreases if start.None? then 1 else 0, if start.Some? then p.rank(start.value) else 0
  {
    var t := Walk(p, start, limit, count);
    WalkUnfold(p, start, limit, count);
    var page := p.scan(start, limit - count);
    var seen := count + |page.items|;
    if seen < limit && page.next.Some? {
      var rest := t[1..];
      WalkChained(p, page.next, limit, seen);
      forall i | 0 < i < |t| ensures t[i].start == t[i - 1].page.next {
        assert t[i] == rest[i - 1];
        if i > 1 {
          assert t[i - 1] == rest[i - 2];
        }
      }
      forall i | 0 <= i < |t| ensures t[i].page == p.scan(t[i].start, t[i].requested) {
        if i > 0 {
          assert t[i] == rest[i - 1];
        }
      }
    }
  }

  /** Every scan asks for exactly the number of items still missing. */
  lemma {:induction false} WalkRequests(p: Pager, start: Option<Record>, limit: nat, count: nat)
    requires Progress(p)
    requires count <= limit
    requires start.Some? ==> count < limit
    ensures var t := Walk(p, start, limit, count);
      forall i :: 0 <= i < |t| ==> t[i].requested + count + |Collected(t[..i])| == limit
    decreases if start.None? then 1 else 0, if start.Some? then p.rank(start.value) else 0
  {
    var t := Walk(p, start, limit, count);
    WalkUnfold(p, start, limit, count);
    var page := p.scan(start, limit - count);
    var seen := count + |page.items|;
    assert t[..0] == [];
    if seen < limit && page.next.Some? {
      var rest := t[1..];
      WalkRequests(p, page.next, limit, seen);
      forall i | 0 < i < |t| ensures t[i].requested + count + |Collected(t[..i])| == limit {
        CollectedPrefix(t, i);
        assert t[i] == rest[i - 1];
      }
    }
  }

  /** The loop goes on only while fewer than `limit` items are gathered and
      the last page had a continuation token: a call follows the first `i`
      calls only when they gathered fewer than `limit` items and the last of
      them returned a token. */
  lemma {:induction false} WalkContinues(p: Pager, start: Option<Record>, limit: nat, count: nat)
    requires Progress(p)
    requires count <= limit
    requires start.Some? ==> count < limit
    ensures var t := Walk(p, start, limit, count);
      forall i :: 0 < i < |t| ==> count + |Collected(t[..i])| < limit && t[i - 1].page.next.Some?
  {
    var t := Walk(p, start, limit, count);
    forall i | 0 < i < |t|
      ensures count + |Collected(t[..i])| < limit && t[i - 1].page.next.Some?
    {
      WalkContinuesAt(p, start, limit, count, i);
    }
  }

  /** `WalkContinues` for the call at index `i`. */
  lemma {:induction false} WalkContinuesAt(p: Pager, start: Option<Record>, limit: nat, count: nat, i: nat)
    requires Progress(p)
    requires count <= limit
    requires start.Some? ==> count < limit
    requires 0 < i < |Walk(p, start, limit, count)|
    ensures var t := Walk(p, start, limit, count);
      count + |Collected(t[..i])| < limit && t[i - 1].page.next.Some?
    decreases i
  {
    var t := Walk(p, start, limit, count);
    WalkUnfold(p, start, limit, count);
    var page := p.scan(start, limit - count);
    var seen := count + |page.items|;
    CollectedPrefix(t, i);
    if i == 1 {
      assert t[1..][..0] == [];
    } else {
      var rest := t[1..];
      WalkContinuesAt(p, page.next, limit, seen, i - 1);
      assert t[i - 1] == rest[i - 2];
    }
  }

  /** The loop stops once `limit` items are gathered or a page comes without
      a continuation token. */
  lemma {:induction false} WalkEnds(p: Pager, start: Option<Record>, limit: nat, count: nat)
    requires Progress(p)
    requires count <= limit
    requires start.Some? ==> count < limit
    ensures var t := Walk(p, start, limit, count);
      |t| >= 1 && (count + |Collected(t)| >= limit || t[|t| - 1].page.next.None?)
    decreases if start.None? then 1 else 0, if start.Some? then p.rank(start.value) else 0
  {
    var t := Walk(p, start, limit, count);
    WalkStep(p, start, limit, count);
    WalkUnfold(p, start, limit, count);
    var page := p.scan(start, limit - count);
    var seen := count + |page.items|;
    if seen < limit && page.next.Some? {
      var rest := t[1..];
      WalkEnds(p, page.next, limit, seen);
      assert t[|t| - 1] == rest[|rest| - 1];
    } else {
      assert t == [t[0]];
    }
  }

  /** If every page is within its requested size, a listing returns at most
      `limit` items. */
  lemma {:induction false} WalkBound(p: Pager, start: Option<Record>, limit: nat, count: nat)
    requires Progress(p) && PageBound(p)
    requires count <= limit
    requires start.Some? ==> count < limit
    ensures count + |Collected(Walk(p, start, limit, count))| <= limit
    decreases if start.None? then 1 else 0, if start.Some? then p.rank(start.value) else 0
  {
    WalkUnfold(p, start, limit, count);
    var page := p.scan(start, limit - count);
    var seen := count + |page.items|;
    if seen < limit && page.next.Some? {
      WalkBound(p, page.next, limit, seen);
    }
  }

  /** A listing of pages drawn from a table returns only stored items. */
  lemma WalkFromTable(p: Pager, primaryKey: string, t: Table, start: Option<Record>, limit: nat, count: nat)
    requires Progress(p) && PagesOf(p, primaryKey, t)
    requires count <= limit
    requires start.Some? ==> count < limit
    ensures var c := Collected(Walk(p, start, limit, count));
      forall i :: 0 <= i < |c| ==> StoredIn(primaryKey, t, c[i])
  {
    var c := Collected(Walk(p, start, limit, count));
    forall i | 0 <= i < |c| ensures StoredIn(primaryKey, t, c[i]) {
      WalkFromTableAt(p, primaryKey, t, start, limit, count, i);
    }
  }

  /** `WalkFromTable` for the item at index `i` of the listing. */
  lemma {:induction false} WalkFromTableAt(p: Pager, primaryKey: string, t: Table, start: Option<Record>,
                                           limit: nat, count: nat, i: nat)
    requires Progress(p) && PagesOf(p, primaryKey, t)
    requires count <= limit
    requires start.Some? ==> count < limit
    requires i < |Collected(Walk(p, start, limit, count))|
    ensures StoredIn(primaryKey, t, Collected(Walk(p, start, limit, count))[i])
    decreases if start.None? then 1 else 0, if start.Some? then p.rank(start.value) else 0
  {
    var page := p.scan(start, limit - count);
    var seen := count + |page.items|;
    var rest := Remaining(p, page.next, limit, seen);
    WalkStep(p, start, limit, count);
    var c := Collected(Walk(p, start, limit, count));
    if i < |page.items| {
      assert c[i] == page.items[i];
    } else {
      assert seen < limit && page.next.Some?;
      WalkFromTableAt(p, primaryKey, t, page.next, limit, seen, i - |page.items|);
      assert c[i] == rest[i - |page.items|];
    }
  }

  /** What one listing does: its first scan starts at the beginning of the
      table and asks for `limit` items, the loop body runs at least once, the
      result starts with the first page, and it holds at most `limit` items
      when pages keep to their requested size. */
  lemma ListingFacts(p: Pager, limit: nat)
    requires Progress(p)
    ensures |Scans(p, limit)| >= 1
    ensures Scans(p, limit)[0] == Call(None, limit, p.scan(None, limit))
    ensures p.scan(None, limit).items <= AllInfo(p, limit)
    ensures PageBound(p) ==> |AllInfo(p, limit)| <= limit
  {
    WalkUnfold(p, None, limit, 0);
    if PageBound(p) {
      WalkBound(p, None, limit, 0);
    }
  }

  /** The adapter object: the table it talks to and its configuration. */
  class DynamoDbService {
    const primaryKey: string
    const defaultLimit: nat
    var items: Table

    ghost predicate Valid()
      reads this
    {
      KeyedBy(primaryKey, items)
    }

    constructor (primaryKey: string, defaultLimit: nat, initial: Table)
      requires KeyedBy(primaryKey, initial)
      ensures Valid()
      ensures this.primaryKey == primaryKey && this.defaultLimit == defaultLimit
      ensures items == initial
    {
      this.primaryKey := primaryKey;
      this.defaultLimit := defaultLimit;
      items := initial;
    }

    /** `get(key)`: the stored item or nothing; the table is not changed. */
    method Get(key: string) returns (found: Option<Record>)
      requires Valid()
      ensures found == Lookup(items, key)
      ensures found.Some? ==> primaryKey in found.value && found.value[primaryKey] == Str(key)
    {
      if key in items {
        found := Some(items[key]);
      } else {
        found := None;
      }
    }

    /** `update(key, info)`: a put of `{[primaryKey]: key, ...info}`. */
    method Put(key: string, info: Record) returns (ok: bool)
      requires Valid()
      modifies this
      ensures Valid()
      ensures var r := PutItem(primaryKey, old(items), key, info);
        ok == r.Some? && items == (if ok then r.value else old(items))
    {
      var item := ItemFor(primaryKey, key, info);
      if item[primaryKey].Str? {
        items := items[item[primaryKey].s := item];
        ok := true;
      } else {
        ok := false;
      }
    }

    /** `delete(key)`: removes the entry if there is one, else does nothing. */
    method Delete(key: string)
      requires Valid()
      modifies this
      ensures Valid()
      ensures items == old(items) - {key}
    {
      items := items - {key};
    }

    /** The `forEach` over a page's items: push each onto the list and count it. */
    static method PushAll(infoList: seq<Record>, currentCount: nat, items: seq<Record>)
      returns (list: seq<Record>, count: nat)
      ensures list == infoList + items
      ensures count == currentCount + |items|
    {
      list, count := infoList, currentCount;
      var i := 0;
      while i < |items|
        invariant 0 <= i <= |items|
        invariant list == infoList + items[..i]
        invariant count == currentCount + i
      {
        list := list + [items[i]];
        count := count + 1;
        i := i + 1;
      }
      assert items[..i] == items;
    }

    /** `getAllInfo(limit = defaultLimit)`: scan page after page until `limit`
        items are gathered or the table has no further page. */
    method GetAllInfo(pager: Pager, limit: Option<nat>) returns (infoList: seq<Record>)
      requires Progress(pager)
      ensures infoList == AllInfo(pager, if limit.Some? then limit.value else defaultLimit)
    {
      var lim := if limit.Some? then limit.value else defaultLimit;
      var start: Option<Record> := None;
      var currentCount := 0;
      var page := Page([], None);
      var first := true;
      infoList := [];
      ghost var todo := AllInfo(pager, lim);
      while first || (currentCount < lim && page.next.Some?)
        invariant currentCount == |infoList|
        invariant AllInfo(pager, lim) == infoList + todo
        invariant first ==> start.None? && currentCount == 0 && todo == Collected(Walk(pager, None, lim, 0))
        invariant !first ==> start == page.next && todo == Remaining(pager, start, lim, currentCount)
        decreases if first then 1 else 0, if start.Some? then pager.rank(start.value) + 1 else 0
      {
        WalkStep(pager, start, lim, currentCount);
        page := pager.scan(start, lim - currentCount);
        assert start.Some? && page.next.Some? ==> pager.rank(page.next.value) < pager.rank(start.value);
        ghost var rest := Remaining(pager, page.next, lim, currentCount + |page.items|);
        assert infoList + (page.items + rest) == (infoList + page.items) + rest;
        todo := rest;
        infoList, currentCount := PushAll(infoList, currentCount, page.items);
        start := page.next;
        first := false;
      }
    }
  }
}
