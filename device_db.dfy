/** The device database: the `devices` collection, held as a map from device
    id to stored document, and the cache of device tokens. Stored documents
    keep the id under `_id` and the token under `_token`; records handed to
    callers use `id` and `token`. */
module DeviceDb {
  import opened Wrappers
  import opened Strings
  import opened Values
  import opened Errors
  import DeviceErrors

  /** A projection: the stored field names to load, each mapped to 1. */
  type Selector = map<string, int>

  /** The stored name a requested key selects; `None` for a blank key. */
  function SelectorKey(key: string): (k: Option<string>)
    ensures k.None? <==> TrimSpace(key) == ""
    ensures k.Some? ==> k.value != "" && k.value != "id" && k.value != "token"
    ensures TrimSpace(key) == "id" ==> k == Some("_id")
    ensures TrimSpace(key) == "token" ==> k == Some("_token")
  {
    var t := TrimSpace(key);
    if t == "" then None
    else if t == "id" then Some("_id")
    else if t == "token" then Some("_token")
    else Some(t)
  }

  /** The stored names the keys select. */
  function SelectedKeys(keys: seq<string>): (names: set<string>)
    ensures forall k | k in names :: k != "id" && k != "token" && k != ""
    decreases |keys|
  {
    if |keys| == 0 then {}
    else
      var last := SelectorKey(keys[|keys| - 1]);
      SelectedKeys(keys[..|keys| - 1]) + (if last.Some? then {last.value} else {})
  }

  /** A name is selected exactly when some key selects it. */
  lemma {:induction false} SelectedKeysMeaning(keys: seq<string>, name: string)
    ensures name in SelectedKeys(keys) <==> exists i | 0 <= i < |keys| :: SelectorKey(keys[i]) == Some(name)
    decreases |keys|
  {
    if |keys| > 0 {
      var init := keys[..|keys| - 1];
      SelectedKeysMeaning(init, name);
      if exists i | 0 <= i < |init| :: SelectorKey(init[i]) == Some(name) {
        var i :| 0 <= i < |init| && SelectorKey(init[i]) == Some(name);
        assert keys[i] == init[i];
      }
      if exists i | 0 <= i < |keys| :: SelectorKey(keys[i]) == Some(name) {
        var i :| 0 <= i < |keys| && SelectorKey(keys[i]) == Some(name);
        if i < |keys| - 1 {
          assert init[i] == keys[i];
        }
      }
    }
  }

  /** `newSelector`. */
  method NewSelector(keys: seq<string>) returns (sel: Selector)
    ensures sel.Keys == SelectedKeys(keys)
    ensures forall k | k in sel :: sel[k] == 1
  {
    sel := map[];
    var i := 0;
    while i < |keys|
      invariant 0 <= i <= |keys|
      invariant sel.Keys == SelectedKeys(keys[..i])
      invariant forall k | k in sel :: sel[k] == 1
    {
      var key := TrimSpace(keys[i]);
      if key != "" {
        if key == "id" {
          key := "_id";
        } else if key == "token" {
          key := "_token";
        }
        sel := sel[key := 1];
      }
      assert keys[..i + 1][..i] == keys[..i];
      i := i + 1;
    }
    assert keys[..|keys|] == keys;
  }

  /** The selector `Find` builds: none for no keys, otherwise each selected
      name mapped to 1. */
  function SelectorFor(keys: seq<string>): (sel: Selector)
    ensures |keys| == 0 ==> sel == map[]
    ensures |keys| != 0 ==> sel.Keys == SelectedKeys(keys) && forall k | k in sel :: sel[k] == 1
  {
    if |keys| == 0 then map[] else map k | k in SelectedKeys(keys) :: 1
  }

  /** A selector is determined by its keys when every value is 1. */
  lemma UniformSelector(sel: Selector, names: set<string>)
    requires sel.Keys == names && forall k | k in sel :: sel[k] == 1
    ensures sel == map k | k in names :: 1
  {
  }

  /** `selector.contains`: an empty selector selects everything. */
  function Contains(sel: Selector, key: string): (ok: bool)
    ensures ok <==> |sel| == 0 || key in sel
  {
    if |sel| == 0 then true else key in sel
  }

  /** `Record.afterLoad`: the stored `_id` becomes `id` when the selector
      selects it and is dropped otherwise; `_token` always becomes `token`. */
  function AfterLoad(r: Record, sel: Selector): (out: Record)
    ensures "_id" !in out && "_token" !in out
    ensures forall k | k != "_id" && k != "_token" && k != "id" && k != "token" ::
              (k in out <==> k in r) && (k in r ==> out[k] == r[k])
    ensures "_id" in r && Contains(sel, "_id") ==> "id" in out && out["id"] == r["_id"]
    ensures !("_id" in r && Contains(sel, "_id")) ==>
              ("id" in out <==> "id" in r) && ("id" in r ==> out["id"] == r["id"])
    ensures "_token" in r ==> "token" in out && out["token"] == r["_token"]
    ensures "_token" !in r ==> ("token" in out <==> "token" in r) && ("token" in r ==> out["token"] == r["token"])
  {
    LoadToken(LoadId(r, sel))
  }

  /** The first step of `afterLoad`: `_id` is renamed or dropped. */
  function LoadId(r: Record, sel: Selector): (out: Record)
    ensures "_id" !in out
    ensures forall k | k != "_id" && k != "id" :: (k in out <==> k in r) && (k in r ==> out[k] == r[k])
    ensures "_id" in r && Contains(sel, "_id") ==> "id" in out && out["id"] == r["_id"]
    ensures !("_id" in r && Contains(sel, "_id")) ==>
              ("id" in out <==> "id" in r) && ("id" in r ==> out["id"] == r["id"])
  {
    if "_id" in r then
      var d := r - {"_id"};
      if Contains(sel, "_id") then d["id" := r["_id"]] else d
    else r
  }

  /** The second step of `afterLoad`: `_token` becomes `token`. */
  function LoadToken(r: Record): (out: Record)
    ensures "_token" !in out
    ensures forall k | k != "_token" && k != "token" :: (k in out <==> k in r) && (k in r ==> out[k] == r[k])
    ensures "_token" in r ==> "token" in out && out["token"] == r["_token"]
    ensures "_token" !in r ==> ("token" in out <==> "token" in r) && ("token" in r ==> out["token"] == r["token"])
  {
    if "_token" in r then (r - {"_token"})["token" := r["_token"]] else r
  }

  /** Asking for the id by its public name keeps it in the loaded record. */
  lemma RequestedIdIsLoaded(keys: seq<string>, i: int, r: Record)
    requires 0 <= i < |keys| && TrimSpace(keys[i]) == "id" && "_id" in r
    ensures var out := AfterLoad(r, SelectorFor(keys));
            "id" in out && out["id"] == r["_id"]
  {
    SelectedKeysMeaning(keys, "_id");
  }

  /** The token a stored document holds; "" when it holds none. */
  function StoredToken(doc: Record): string {
    if "_token" in doc && doc["_token"].Str? then doc["_token"].s else ""
  }

  /** The document `Create` inserts: the attributes without `id` and
      `token`, with the id and token under their stored names. */
  function NewDocument(id: string, token: string, attributes: Record): (doc: Record)
    ensures "_id" in doc && doc["_id"] == Str(id) && StoredToken(doc) == token
    ensures "id" !in doc && "token" !in doc
    ensures forall k | k !in {"_id", "_token", "id", "token"} :: (k in doc <==> k in attributes) && (k in doc ==> doc[k] == attributes[k])
  {
    (attributes - {"id", "token"})["_id" := Str(id)]["_token" := Str(token)]
  }

  /** The fields `Upsert` sets: all but `id`, `_id` and `token`, with the
      new token as `_token`. */
  function UpsertFields(token: string, fields: Record): (f: Record)
    ensures StoredToken(f) == token && "_id" !in f && "id" !in f && "token" !in f
    ensures forall k | k !in {"_id", "_token", "id", "token"} :: (k in f <==> k in fields) && (k in f ==> f[k] == fields[k])
  {
    (fields - {"id", "_id", "token"})["_token" := Str(token)]
  }

  /** The document after an upsert with `$set`: an existing document gets the
      fields, a missing one is created from them with the id. */
  function Upserted(old_doc: Option<Record>, id: string, f: Record): Record {
    match old_doc
    case Some(doc) => doc + f
    case None => f["_id" := Str(id)]
  }

  /** The keys `Update` never changes. */
  const Protected: set<string> := {"_id", "id", "_token", "token"}

  /** The update command `Update` sends. */
  datatype UpdateCmd =
    | NoCall
    | SetOnly(fields: Record)
    | UnsetOnly(keys: seq<string>)
    | SetAndUnset(fields: Record, keys: seq<string>)

  /** A document after `$set` of `assign` and `$unset` of `remove`. */
  function Applied(doc: Record, assign: Record, remove: set<string>): Record {
    (doc + assign) - remove
  }

  /** `Update`'s loop: moves the `nil`-valued fields into the unset list. */
  method PartitionNil(fields: Record) returns (assign: Record, remove: seq<string>)
    ensures assign == WithoutNil(fields)
    ensures forall k :: k in remove <==> k in NilKeys(fields)
    ensures forall i, j | 0 <= i < j < |remove| :: remove[i] != remove[j]
  {
    assign, remove := fields, [];
    var rest := fields.Keys;
    while rest != {}
      invariant rest <= fields.Keys
      invariant forall k | k in fields :: (k in assign <==> k in rest || fields[k] != Nil)
      invariant forall k | k in assign :: k in fields && assign[k] == fields[k]
      invariant forall k :: k in remove <==> k in fields && k !in rest && fields[k] == Nil
      invariant forall i, j | 0 <= i < j < |remove| :: remove[i] != remove[j]
      decreases |rest|
    {
      var k :| k in rest;
      if fields[k] == Nil {
        assign := assign - {k};
        remove := remove + [k];
      }
      rest := rest - {k};
    }
  }

  class DeviceDb {
    /** The `devices` collection: stored documents by id. */
    var docs: map<string, Record>
    /** The token cache: device id to token. */
    var cache: map<string, string>

    /** Every cached token is the one stored for that device. */
    predicate CacheCoherent()
      reads this
    {
      forall id | id in cache :: id in docs && StoredToken(docs[id]) == cache[id]
    }

    constructor ()
      ensures docs == map[] && cache == map[] && CacheCoherent()
    {
      docs, cache := map[], map[];
    }

    /** `Create`. A duplicate id is reported by the store's unique index. */
    method Create(id: string, token: string, attributes: Record) returns (err: Option<Error>)
      modifies this
      ensures old(CacheCoherent()) ==> CacheCoherent()
      ensures cache == old(cache)
      ensures !DeviceErrors.ValidateDeviceId(id) ==> err == Some(InvalidDeviceId(id)) && docs == old(docs)
      ensures DeviceErrors.ValidateDeviceId(id) && id in old(docs) ==> err == Some(DuplicateDevice(id)) && docs == old(docs)
      ensures DeviceErrors.ValidateDeviceId(id) && id !in old(docs) ==>
                err.None? && docs == old(docs)[id := NewDocument(id, token, attributes)]
    {
      if !DeviceErrors.ValidateDeviceId(id) {
        return Some(InvalidDeviceId(id));
      }
      var doc := NewDocument(id, token, attributes);
      if id in docs {
        return Some(DuplicateDevice(id));
      }
      docs := docs[id := doc];
      return None;
    }

    /** `Find`: the device's record, projected on the requested keys (the
        store always returns `_id`), then renamed by `afterLoad`. */
    method Find(id: string, keys: seq<string>) returns (result: Record, err: Option<Error>)
      ensures id !in docs ==> result == map[] && err == Some(DeviceNotFound(id))
      ensures id in docs ==>
                err.None? && result == AfterLoad(Project(docs[id], SelectorFor(keys)), SelectorFor(keys))
    {
      var sel: Selector := map[];
      if |keys| != 0 {
        sel := NewSelector(keys);
        UniformSelector(sel, SelectedKeys(keys));
      }
      assert sel == SelectorFor(keys);
      if id !in docs {
        return AfterLoad(map[], sel), Some(DeviceNotFound(id));
      }
      result := AfterLoad(Project(docs[id], sel), sel);
      err := None;
    }

    /** `GetToken`: a cached token is returned without a lookup; a token
        looked up successfully is cached. */
    method GetToken(id: string) returns (token: string, err: Option<Error>)
      modifies this
      ensures old(CacheCoherent()) ==> CacheCoherent()
      ensures docs == old(docs)
      ensures id in old(cache) ==> token == old(cache)[id] && err.None? && cache == old(cache)
      ensures id !in old(cache) && id !in docs ==> token == "" && err == Some(DeviceNotFound(id)) && cache == old(cache)
      ensures id !in old(cache) && id in docs ==> err.None? && token == StoredToken(docs[id]) && cache == old(cache)[id := token]
      ensures old(CacheCoherent()) && err.None? ==> id in docs && token == StoredToken(docs[id])
    {
      if id in cache {
        return cache[id], None;
      }
      if id !in docs {
        return "", Some(DeviceNotFound(id));
      }
      token := StoredToken(docs[id]);
      cache := cache[id := token];
      err := None;
    }

    /** `Update`: drops the id and token keys; sends nothing if no field is
        left; otherwise sets the non-nil fields and unsets the nil ones. */
    method Update(id: string, fields: Record) returns (cmd: UpdateCmd, err: Option<Error>)
      modifies this
      ensures old(CacheCoherent()) ==> CacheCoherent()
      ensures cache == old(cache)
      ensures var f := fields - Protected;
              var assign, remove := WithoutNil(f), NilKeys(f);
              (|f| == 0 ==> cmd == NoCall && err.None? && docs == old(docs)) &&
              (|f| != 0 && remove == {} ==> cmd == SetOnly(assign)) &&
              (|f| != 0 && remove != {} && |assign| == 0 ==> cmd.UnsetOnly?) &&
              (|f| != 0 && remove != {} && |assign| != 0 ==> cmd.SetAndUnset? && cmd.fields == assign) &&
              (cmd.UnsetOnly? || cmd.SetAndUnset? ==> forall k :: k in cmd.keys <==> k in remove) &&
              (|f| != 0 && id !in old(docs) ==> err == Some(DeviceNotFound(id)) && docs == old(docs)) &&
              (|f| != 0 && id in old(docs) ==> err.None? && docs == old(docs)[id := Applied(old(docs)[id], assign, remove)])
    {
      var f := fields - Protected;
      if |f| == 0 {
        return NoCall, None;
      }
      var assign, remove := PartitionNil(f);
      if |remove| == 0 {
        cmd := SetOnly(assign);
      } else if |assign| == 0 {
        cmd := UnsetOnly(remove);
      } else {
        cmd := SetAndUnset(assign, remove);
      }
      var removed := set k | k in remove;
      assert removed == NilKeys(f);
      assert |remove| == 0 <==> removed == {} by {
        if |remove| != 0 {
          assert remove[0] in removed;
        }
      }
      assert cmd.UnsetOnly? || cmd.SetAndUnset? ==> cmd.keys == remove;
      if id !in docs {
        return cmd, Some(DeviceNotFound(id));
      }
      docs := docs[id := Applied(docs[id], assign, removed)];
      err := None;
      UpdateKeepsToken(old(docs)[id], assign, removed, f);
      if old(CacheCoherent()) {
        forall i | i in cache
          ensures i in docs && StoredToken(docs[i]) == cache[i]
        {
        }
      }
    }

    /** `Upsert`: stores the new token but leaves the cache alone. The cache
        stays coherent when the token stored is the one already cached. */
    method Upsert(id: string, token: string, fields: Record) returns (err: Option<Error>)
      modifies this
      ensures cache == old(cache)
      ensures old(CacheCoherent()) && (id in old(cache) ==> old(cache)[id] == token) ==> CacheCoherent()
      ensures !DeviceErrors.ValidateDeviceId(id) ==> err == Some(InvalidDeviceId(id)) && docs == old(docs)
      ensures DeviceErrors.ValidateDeviceId(id) ==>
                err.None? && docs == old(docs)[id := Upserted(if id in old(docs) then Some(old(docs)[id]) else None, id, UpsertFields(token, fields))]
    {
      if !DeviceErrors.ValidateDeviceId(id) {
        return Some(InvalidDeviceId(id));
      }
      var f := UpsertFields(token, fields);
      var doc := Upserted(if id in docs then Some(docs[id]) else None, id, f);
      assert StoredToken(doc) == token;
      docs := docs[id := doc];
      return None;
    }

    /** `Remove`: drops the cache entry, then the document. */
    method Remove(id: string) returns (err: Option<Error>)
      modifies this
      ensures old(CacheCoherent()) ==> CacheCoherent()
      ensures cache == old(cache) - {id}
      ensures id !in old(docs) ==> err == Some(DeviceNotFound(id)) && docs == old(docs)
      ensures id in old(docs) ==> err.None? && docs == old(docs) - {id}
    {
      cache := cache - {id};
      if id !in docs {
        return Some(DeviceNotFound(id));
      }
      docs := docs - {id};
      return None;
    }
  }

  /** A projection as the store applies it: everything for an empty
      selector, otherwise the selected fields and `_id`. */
  function Project(doc: Record, sel: Selector): (out: Record)
    ensures forall k | k in out :: k in doc && out[k] == doc[k]
    ensures |sel| == 0 ==> out == doc
    ensures "_id" in doc ==> "_id" in out
  {
    if |sel| == 0 then doc else map k | k in doc && (k in sel || k == "_id") :: doc[k]
  }

  /** An update never touches the stored token. */
  lemma UpdateKeepsToken(doc: Record, assign: Record, remove: set<string>, f: Record)
    requires "_token" !in f && assign.Keys <= f.Keys && remove <= f.Keys
    ensures StoredToken(Applied(doc, assign, remove)) == StoredToken(doc)
  {
  }

  /** `Upsert` relies on its caller for the cache: after an upsert with a
      token other than the cached one, `GetToken` still answers the token
      cached before, not the one now stored. */
  method StaleTokenAfterReclaim(db: DeviceDb, id: string, newToken: string) returns (cached: string)
    requires db.CacheCoherent() && DeviceErrors.ValidateDeviceId(id) && id in db.docs
    requires StoredToken(db.docs[id]) != newToken
    modifies db
    ensures id in db.docs && StoredToken(db.docs[id]) == newToken && cached != newToken
  {
    var before, err1 := db.GetToken(id);
    var err2 := db.Upsert(id, newToken, map[]);
    var after, err3 := db.GetToken(id);
    assert after == before;
    return after;
  }
}
