/** The metadata endpoint of django/bosscore/views.py (class BossMeta): a
    key/value store scoped by the first element of the request's resolved
    lookup key, with one handler per HTTP verb. The store behind `MetaDB`
    is modelled as a map from (scope, key) to value; the request parser
    (`BossRequest(...).get_lookup_key()`) is an input to each handler, its
    list of keys or the BossError it raised. */
module Metadata {
  import opened Wrappers

  /** The single error code the metadata handlers use. */
  const MetaErrorCode: int := 30000

  datatype MetaItem = MetaItem(key: string, value: string)

  /** A BossError raised while parsing the request; `to_http()` turns it
      into an error response with its own status and code. */
  datatype BossError = BossError(status: int, code: int, message: string)

  /** Why a handler refused, one per message in the source. */
  datatype Reason =
    | MissingKeyValue       // "Missing optional argument key/value in the request"
    | MissingKey            // "Missing optional argument key in the request"
    | UnparsableDatamodel   // "Unable to parse the datamodel arguments"
    | NoMatchingKeys        // "Cannot find keys that match this request"
    | KeyNotFound(key: string)
    | KeyExists(key: string)
    | Raised(message: string)

  datatype Response =
    | KeyList(keys: seq<string>)              // 200, {'keys': keys}
    | KeyValue(key: string, value: string)    // 200, {'key': ..., 'value': ...}
    | Created                                 // HttpResponse(status=201)
    | BossHttpError(status: int, code: int, reason: Reason)
    | BadRequest(key: string)                 // HttpResponseBadRequest, "Key ... not found"
  {
    function Status(): int
    {
      match this
      case KeyList(_) => 200
      case KeyValue(_, _) => 200
      case Created => 201
      case BossHttpError(status, _, _) => status
      case BadRequest(_) => 400
    }
  }

  function ToHttp(err: BossError): Response
  {
    BossHttpError(err.status, err.code, Raised(err.message))
  }

  function KeysOf(items: seq<MetaItem>): set<string>
  {
    set i | 0 <= i < |items| :: items[i].key
  }

  lemma KeysOfAppend(items: seq<MetaItem>, item: MetaItem)
    ensures KeysOf(items + [item]) == KeysOf(items) + {item.key}
  {
    var extended := items + [item];
    assert extended[|items|] == item;
    forall k | k in KeysOf(items)
      ensures k in KeysOf(extended)
    {
      var i :| 0 <= i < |items| && items[i].key == k;
      assert extended[i] == items[i];
    }
  }

  predicate DistinctKeys(keys: seq<string>)
  {
    forall i, j :: 0 <= i < j < |keys| ==> keys[i] != keys[j]
  }

  /** The metadata table. */
  class MetaDB {
    var entries: map<(string, string), string>

    /** `metadb.MetaDB()`: a handle on the shared table as it stands. */
    constructor (entries: map<(string, string), string>)
      ensures this.entries == entries
    {
      this.entries := entries;
    }

    /** The keys stored under one scope. */
    function ScopeKeys(scope: string): (keys: set<string>)
      reads this
      ensures forall k :: k in keys <==> (scope, k) in entries
    {
      set p | p in entries.Keys && p.0 == scope :: p.1
    }

    /** `get_meta(scope, key)`: the stored item, or None. */
    function GetMeta(scope: string, key: string): (r: Option<MetaItem>)
      reads this
      ensures r.Some? <==> (scope, key) in entries
      ensures r.Some? ==> r.value == MetaItem(key, entries[(scope, key)])
    {
      if (scope, key) in entries then Some(MetaItem(key, entries[(scope, key)])) else None
    }

    /** `get_meta_list(scope)`: every item stored under the scope, once
        each, in an order the store chooses. */
    method GetMetaList(scope: string) returns (items: seq<MetaItem>)
      ensures KeysOf(items) == ScopeKeys(scope)
      ensures forall i, j :: 0 <= i < j < |items| ==> items[i].key != items[j].key
      ensures forall i :: 0 <= i < |items| ==>
                (scope, items[i].key) in entries && items[i].value == entries[(scope, items[i].key)]
    {
      items := [];
      var rest := ScopeKeys(scope);
      while rest != {}
        invariant rest !! KeysOf(items)
        invariant KeysOf(items) + rest == ScopeKeys(scope)
        invariant forall i, j :: 0 <= i < j < |items| ==> items[i].key != items[j].key
        invariant forall i :: 0 <= i < |items| ==>
                    (scope, items[i].key) in entries && items[i].value == entries[(scope, items[i].key)]
        decreases rest
      {
        var k :| k in rest;
        KeysOfAppend(items, MetaItem(k, entries[(scope, k)]));
        items := items + [MetaItem(k, entries[(scope, k)])];
        rest := rest - {k};
      }
    }

    /** `write_meta`. */
    method WriteMeta(scope: string, key: string, value: string)
      modifies this
      ensures entries == old(entries)[(scope, key) := value]
    {
      entries := entries[(scope, key) := value];
    }

    /** `update_meta`: the same write, with no check that the entry exists. */
    method UpdateMeta(scope: string, key: string, value: string)
      modifies this
      ensures entries == old(entries)[(scope, key) := value]
    {
      entries := entries[(scope, key) := value];
    }

    /** `delete_meta`: removes the entry and reports whether there was one
        (the 'Attributes' of the store's response). */
    method DeleteMeta(scope: string, key: string) returns (existed: bool)
      modifies this
      ensures existed <==> (scope, key) in old(entries)
      ensures entries == old(entries) - {(scope, key)}
    {
      existed := (scope, key) in entries;
      entries := entries - {(scope, key)};
    }
  }

  /** GET and POST refuse an empty lookup key or an empty first element. */
  predicate NoScope(lookupKey: seq<string>)
  {
    |lookupKey| == 0 || lookupKey[0] == ""
  }

  /** BossMeta.get: without `key`, the list of keys under the scope (an
      error when there are none); with `key`, that key and its value. */
  method Get(db: MetaDB, lookup: Result<seq<string>, BossError>, query: map<string, string>) returns (r: Response)
    ensures lookup.Failure? ==> r == ToHttp(lookup.error)
    ensures lookup.Success? && NoScope(lookup.value) ==>
              r == BossHttpError(404, MetaErrorCode, UnparsableDatamodel)
    ensures lookup.Success? && !NoScope(lookup.value) && "key" !in query ==>
              if db.ScopeKeys(lookup.value[0]) == {}
              then r == BossHttpError(404, MetaErrorCode, NoMatchingKeys)
              else r.KeyList? && DistinctKeys(r.keys)
                   && (forall k :: k in r.keys <==> k in db.ScopeKeys(lookup.value[0]))
    ensures lookup.Success? && !NoScope(lookup.value) && "key" in query ==>
              var scope, key := lookup.value[0], query["key"];
              r == if (scope, key) in db.entries
                   then KeyValue(key, db.entries[(scope, key)])
                   else BossHttpError(404, MetaErrorCode, KeyNotFound(key))
  {
    if lookup.Failure? {
      return ToHttp(lookup.error);
    }
    var lookupKey := lookup.value;
    if NoScope(lookupKey) {
      return BossHttpError(404, MetaErrorCode, UnparsableDatamodel);
    }
    if "key" !in query {
      var mdata := db.GetMetaList(lookupKey[0]);
      if |mdata| == 0 {
        return BossHttpError(404, MetaErrorCode, NoMatchingKeys);
      }
      assert mdata[0].key in KeysOf(mdata);
      var keys := [];
      var i := 0;
      while i < |mdata|
        invariant 0 <= i <= |mdata|
        invariant |keys| == i
        invariant forall j :: 0 <= j < i ==> keys[j] == mdata[j].key
      {
        keys := keys + [mdata[i].key];
        i := i + 1;
      }
      assert keys == seq(|mdata|, j requires 0 <= j < |mdata| => mdata[j].key);
      forall k | k in db.ScopeKeys(lookupKey[0])
        ensures k in keys
      {
        assert k in KeysOf(mdata);
      }
      return KeyList(keys);
    } else {
      var mkey := query["key"];
      var mdata := db.GetMeta(lookupKey[0], mkey);
      if mdata.Some? {
        return KeyValue(mdata.value.key, mdata.value.value);
      } else {
        return BossHttpError(404, MetaErrorCode, KeyNotFound(mkey));
      }
    }
  }

  predicate HasKeyAndValue(query: map<string, string>)
  {
    "key" in query && "value" in query
  }

  /** BossMeta.post: create an entry; refuses when it already exists. */
  method Post(db: MetaDB, lookup: Result<seq<string>, BossError>, query: map<string, string>) returns (r: Response)
    modifies db
    ensures !HasKeyAndValue(query) ==>
              r == BossHttpError(404, MetaErrorCode, MissingKeyValue) && r.Status() == 404
              && db.entries == old(db.entries)
    ensures HasKeyAndValue(query) && lookup.Failure? ==>
              r == ToHttp(lookup.error) && db.entries == old(db.entries)
    ensures HasKeyAndValue(query) && lookup.Success? && NoScope(lookup.value) ==>
              r == BossHttpError(404, MetaErrorCode, UnparsableDatamodel) && db.entries == old(db.entries)
    ensures HasKeyAndValue(query) && lookup.Success? && !NoScope(lookup.value) ==>
              var scope, key := lookup.value[0], query["key"];
              if (scope, key) in old(db.entries)
              then r == BossHttpError(404, MetaErrorCode, KeyExists(key)) && db.entries == old(db.entries)
              else r == Created && r.Status() == 201 && db.entries == old(db.entries)[(scope, key) := query["value"]]
  {
    if !HasKeyAndValue(query) {
      return BossHttpError(404, MetaErrorCode, MissingKeyValue);
    }
    if lookup.Failure? {
      return ToHttp(lookup.error);
    }
    var lookupKey := lookup.value;
    if NoScope(lookupKey) {
      return BossHttpError(404, MetaErrorCode, UnparsableDatamodel);
    }
    var mkey, value := query["key"], query["value"];
    if db.GetMeta(lookupKey[0], mkey).Some? {
      return BossHttpError(404, MetaErrorCode, KeyExists(mkey));
    }
    db.WriteMeta(lookupKey[0], mkey, value);
    return Created;
  }

  /** BossMeta.delete: remove an entry, 201 if it was there, 400 if not.
      Only an empty lookup key is refused; an empty first element is used
      as the scope. */
  method Delete(db: MetaDB, lookup: Result<seq<string>, BossError>, query: map<string, string>) returns (r: Response)
    modifies db
    ensures "key" !in query ==>
              r == BossHttpError(404, MetaErrorCode, MissingKey) && db.entries == old(db.entries)
    ensures "key" in query && lookup.Failure? ==>
              r == ToHttp(lookup.error) && db.entries == old(db.entries)
    ensures "key" in query && lookup.Success? && |lookup.value| == 0 ==>
              r == BossHttpError(404, MetaErrorCode, UnparsableDatamodel) && db.entries == old(db.entries)
    ensures "key" in query && lookup.Success? && |lookup.value| > 0 ==>
              var scope, key := lookup.value[0], query["key"];
              && db.entries == old(db.entries) - {(scope, key)}
              && r == (if (scope, key) in old(db.entries) then Created else BadRequest(key))
              && r.Status() == if (scope, key) in old(db.entries) then 201 else 400
  {
    if "key" !in query {
      return BossHttpError(404, MetaErrorCode, MissingKey);
    }
    if lookup.Failure? {
      return ToHttp(lookup.error);
    }
    var lookupKey := lookup.value;
    if |lookupKey| == 0 {
      return BossHttpError(404, MetaErrorCode, UnparsableDatamodel);
    }
    var mkey := query["key"];
    var existed := db.DeleteMeta(lookupKey[0], mkey);
    if existed {
      return Created;
    } else {
      return BadRequest(mkey);
    }
  }

  /** BossMeta.put: write the entry whether or not it existed. Only an
      empty lookup key is refused. */
  method Put(db: MetaDB, lookup: Result<seq<string>, BossError>, query: map<string, string>) returns (r: Response)
    modifies db
    ensures !HasKeyAndValue(query) ==>
              r == BossHttpError(404, MetaErrorCode, MissingKeyValue) && r.Status() == 404
              && db.entries == old(db.entries)
    ensures HasKeyAndValue(query) && lookup.Failure? ==>
              r == ToHttp(lookup.error) && db.entries == old(db.entries)
    ensures HasKeyAndValue(query) && lookup.Success? && |lookup.value| == 0 ==>
              r == BossHttpError(404, MetaErrorCode, UnparsableDatamodel) && db.entries == old(db.entries)
    ensures HasKeyAndValue(query) && lookup.Success? && |lookup.value| > 0 ==>
              r == Created && r.Status() == 201
              && db.entries == old(db.entries)[(lookup.value[0], query["key"]) := query["value"]]
  {
    if !HasKeyAndValue(query) {
      return BossHttpError(404, MetaErrorCode, MissingKeyValue);
    }
    if lookup.Failure? {
      return ToHttp(lookup.error);
    }
    var lookupKey := lookup.value;
    if |lookupKey| == 0 {
      return BossHttpError(404, MetaErrorCode, UnparsableDatamodel);
    }
    db.UpdateMeta(lookupKey[0], query["key"], query["value"]);
    return Created;
  }

  /** Create, read back, create again, delete, read again, on one scope:
      the value written is the value read, the second create is refused
      without touching the entry, and after the delete the key is gone. */
  method CreateReadDelete(db: MetaDB, scope: string, key: string, v1: string, v2: string)
    returns (created: Response, read: Response, again: Response, deleted: Response, gone: Response)
    requires scope != "" && (scope, key) !in db.entries
    modifies db
    ensures created == Created
    ensures read == KeyValue(key, v1)
    ensures again == BossHttpError(404, MetaErrorCode, KeyExists(key))
    ensures deleted == Created
    ensures gone == BossHttpError(404, MetaErrorCode, KeyNotFound(key))
    ensures db.entries == old(db.entries)
  {
    var lookup := Success([scope]);
    created := Post(db, lookup, map["key" := key, "value" := v1]);
    read := Get(db, lookup, map["key" := key]);
    again := Post(db, lookup, map["key" := key, "value" := v2]);
    deleted := Delete(db, lookup, map["key" := key]);
    gone := Get(db, lookup, map["key" := key]);
  }
}
