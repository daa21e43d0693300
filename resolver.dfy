/** `validate_entity`: resolving a chat identifier through a bounded,
    insertion-ordered cache with a time-to-live, normalising textual ids,
    retrying a positive id as a channel id, and filtering for groups.
    Telegram's `get_entity` is a parameter: a function from the identifier
    passed to it to what the call produced. */
module Resolver {
  import opened Common

  const CacheTtl := 300
  const EntityCacheSize := 100

  // ------------------------------------------------------------ entities

  /** The entity classes the bot tells apart: a user (or bot), a basic group,
      and a channel, which is a supergroup when `megagroup` is set. */
  datatype PeerKind = User | Chat | Channel(megagroup: bool)

  /** Whether the entity object has a `username` attribute, and its value. */
  datatype Username = NoUsernameAttr | UsernameAttr(name: Option<string>)

  /** A resolved entity, with the id `get_peer_id` gives for it. */
  datatype Entity = Entity(peerId: int, kind: PeerKind, username: Username)

  /** The group-only filter: a basic group, or a channel that is a supergroup. */
  predicate IsGroup(e: Entity) {
    e.kind.Chat? || (e.kind.Channel? && e.kind.megagroup)
  }

  /** An identifier as Python holds it: a string, or an int. */
  datatype PyId = IdStr(s: string) | IdInt(i: int)

  /** `str(identifier)`. */
  function PyStr(x: PyId): string {
    match x
    case IdStr(s) => s
    case IdInt(i) => IntToString(i)
  }

  function BoolName(b: bool): string {
    if b then "True" else "False"
  }

  /** The cache key `validation_<identifier>_<group_only>`. */
  function CacheKey(x: PyId, groupOnly: bool): string {
    "validation_" + PyStr(x) + "_" + BoolName(groupOnly)
  }

  lemma KeyText(u: string, v: string, g: bool, h: bool)
    ensures "validation_" + u + "_" + BoolName(g) == "validation_" + v + "_" + BoolName(h) <==> u == v && g == h
  {
    var ta, tb := "_" + BoolName(g), "_" + BoolName(h);
    var a, b := "validation_" + u, "validation_" + v;
    assert "validation_" + u + "_" + BoolName(g) == a + ta;
    assert "validation_" + v + "_" + BoolName(h) == b + tb;
    if a + ta == b + tb {
      BoolTail(g);
      BoolTail(h);
      SameTail(a, ta, b, tb, 4);
      assert g == h;
      CancelRight(a, b, ta);
      CancelLeft("validation_", u, v);
    }
  }

  /** The last four characters of `_True` and `_False` differ. */
  lemma BoolTail(g: bool)
    ensures |"_" + BoolName(g)| >= 4
    ensures ("_" + BoolName(g))[|"_" + BoolName(g)| - 4..] == if g then "True" else "alse"
  {
  }

  lemma SameTail(a: string, ta: string, b: string, tb: string, k: nat)
    requires a + ta == b + tb && k <= |ta| && k <= |tb|
    ensures ta[|ta| - k..] == tb[|tb| - k..]
  {
    var s := a + ta;
    assert ta[|ta| - k..] == s[|s| - k..];
    assert tb[|tb| - k..] == s[|s| - k..];
  }

  lemma CancelRight(a: string, b: string, t: string)
    requires a + t == b + t
    ensures a == b
  {
    assert a == (a + t)[..|a|];
    assert b == (b + t)[..|b|];
  }

  lemma CancelLeft(p: string, u: string, v: string)
    requires p + u == p + v
    ensures u == v
  {
    assert u == (p + u)[|p|..];
    assert v == (p + v)[|p|..];
  }

  /** Two lookups share a cache entry exactly when the identifiers print the
      same and the group-only flag is the same. */
  lemma CacheKeyInjective(x: PyId, g: bool, y: PyId, h: bool)
    ensures CacheKey(x, g) == CacheKey(y, h) <==> PyStr(x) == PyStr(y) && g == h
  {
    KeyText(PyStr(x), PyStr(y), g, h);
  }

  // ------------------------------------------------------- normalisation

  /** `s.lstrip('-')`. */
  function LStripDash(s: string): (r: string)
    ensures |r| <= |s| && r == s[|s| - |r|..]
    ensures |r| > 0 ==> r[0] != '-'
  {
    if |s| > 0 && s[0] == '-' then LStripDash(s[1..]) else s
  }

  /** The identifier passed to `get_entity`: an `@handle` is kept; a string
      of digits, or a dash followed by digits, becomes the int it spells; any
      other string, and any int, is passed as it is. The lemmas below show
      this is the `lstrip('-').isdigit()` test followed by `int()`, which
      refuses two or more dashes. */
  function Normalize(x: PyId): PyId {
    match x
    case IdInt(_) => x
    case IdStr(s) =>
      if |s| > 0 && s[0] == '@' then x
      else if IsDigits(s) then IdInt(DigitsValue(s))
      else if |s| > 1 && s[0] == '-' && IsDigits(s[1..]) then IdInt(-(DigitsValue(s[1..]) as int))
      else x
  }

  /** Python's `int()` refuses a digit string behind two or more dashes. */
  lemma PyIntRefusesDashes(s: string)
    requires |s| > 1 && s[0] == '-' && s[1] == '-' && IsDigits(LStripDash(s))
    ensures PyInt(s) == None
  {
    var r := LStripDash(s);
    assert s[|s| - 1] == r[|r| - 1];
    StripUnchanged(s);
    assert !DecimalBody(s[1..]) by {
      assert s[1..][0] == '-';
    }
  }

  /** A string of digits: `lstrip('-')` leaves it as it is, `int()` reads it,
      and `Normalize` gives that int. */
  lemma NormalizeDigits(s: string)
    requires IsDigits(s)
    ensures IsDigits(LStripDash(s)) && PyInt(s) == Some(DigitsValue(s))
    ensures Normalize(IdStr(s)) == IdInt(DigitsValue(s))
  {
    assert LStripDash(s) == s;
    PyIntOfDigits(s);
  }

  /** One dash before digits: `lstrip('-')` leaves the digits, `int()` reads
      the negative number (`PyIntOfDashDigits`), and `Normalize` gives it. */
  lemma NormalizeNegativeDigits(s: string)
    requires |s| > 1 && s[0] == '-' && IsDigits(s[1..])
    ensures IsDigits(LStripDash(s))
    ensures Normalize(IdStr(s)) == IdInt(-(DigitsValue(s[1..]) as int))
  {
    assert LStripDash(s[1..]) == s[1..];
    assert LStripDash(s) == s[1..];
  }

  lemma PyIntOfDashDigits(s: string)
    requires |s| > 1 && s[0] == '-' && IsDigits(s[1..])
    ensures PyInt(s) == Some(-(DigitsValue(s[1..]) as int))
  {
    assert s == "-" + s[1..];
    PyIntOfNegativeDigits(s[1..]);
  }

  /** Two or more dashes before digits: `int()` refuses the text, so the
      source keeps it as a string, and so does `Normalize`. */
  lemma NormalizeDashes(s: string)
    requires |s| > 1 && s[0] == '-' && s[1] == '-' && IsDigits(LStripDash(s))
    ensures PyInt(s) == None
    ensures Normalize(IdStr(s)) == IdStr(s)
  {
    PyIntRefusesDashes(s);
    assert !IsDigits(s) by { assert !IsDigit(s[0]); }
    assert !IsDigits(s[1..]) by { assert !IsDigit(s[1..][0]); }
  }

  /** Any other text, and an `@handle`, is passed on unchanged. */
  lemma NormalizeOtherText(s: string)
    requires (|s| > 0 && s[0] == '@') || !IsDigits(LStripDash(s))
    ensures Normalize(IdStr(s)) == IdStr(s)
  {
    if !(|s| > 0 && s[0] == '@') {
      if IsDigits(s) {
        NormalizeDigits(s);
      } else if |s| > 1 && s[0] == '-' && IsDigits(s[1..]) {
        NormalizeNegativeDigits(s);
      }
    }
  }

  /** `int(f"-100{p}")` for a positive id `p`, as arithmetic. */
  function ChannelId(p: nat): int {
    -((100 * Pow10(|NatToString(p)|) + p) as int)
  }

  /** The retry id is what `int()` reads from the text `-100` followed by the
      id: the text after the dash is digits and spells minus the retry id. */
  lemma ChannelIdIsPrefixed(p: nat)
    ensures IsDigits("100" + NatToString(p))
    ensures DigitsValue("100" + NatToString(p)) == -ChannelId(p)
  {
    NatToStringDigits(p);
    PrefixedValue(NatToString(p));
  }

  // --------------------------------------------------------------- cache

  /** One `entity_cache` entry: its key, the entity and when it was stored. */
  datatype CacheEntry = CacheEntry(key: string, entity: Entity, stamp: int)

  /** `entity_cache.get(key)`. */
  function Find(es: seq<CacheEntry>, key: string): (r: Option<CacheEntry>)
    ensures r.Some? ==> r.value in es && r.value.key == key
    ensures r.None? <==> forall i :: 0 <= i < |es| ==> es[i].key != key
  {
    if es == [] then None
    else if es[0].key == key then Some(es[0])
    else Find(es[1..], key)
  }

  /** No key appears twice, as in a dictionary. */
  predicate DistinctKeys(es: seq<CacheEntry>) {
    es == [] || (Find(es[1..], es[0].key).None? && DistinctKeys(es[1..]))
  }

  /** `entity_cache[key] = entry`: an existing key keeps its position and takes
      the new value; a new key goes last. */
  function Assign(es: seq<CacheEntry>, en: CacheEntry): seq<CacheEntry> {
    if es == [] then [en]
    else if es[0].key == en.key then [en] + es[1..]
    else [es[0]] + Assign(es[1..], en)
  }

  /** Storing a resolved entity: when the cache is full the oldest entry is
      popped, then the entry is assigned. */
  function Put(es: seq<CacheEntry>, key: string, e: Entity, now: int): seq<CacheEntry> {
    var kept := if |es| >= EntityCacheSize then es[1..] else es;
    Assign(kept, CacheEntry(key, e, now))
  }

  /** The cache without the entry for `key`. */
  function Without(es: seq<CacheEntry>, key: string): seq<CacheEntry> {
    if es == [] then []
    else if es[0].key == key then Without(es[1..], key)
    else [es[0]] + Without(es[1..], key)
  }

  lemma {:induction false} AssignFind(es: seq<CacheEntry>, en: CacheEntry, k: string)
    ensures Find(Assign(es, en), k) == if k == en.key then Some(en) else Find(es, k)
  {
    if es != [] && es[0].key != en.key {
      AssignFind(es[1..], en, k);
      assert Assign(es, en)[1..] == Assign(es[1..], en);
    }
  }

  lemma {:induction false} AssignShape(es: seq<CacheEntry>, en: CacheEntry)
    requires DistinctKeys(es)
    ensures DistinctKeys(Assign(es, en))
    ensures |Assign(es, en)| == |es| + (if Find(es, en.key).Some? then 0 else 1)
  {
    if es != [] {
      if es[0].key == en.key {
        assert ([en] + es[1..])[1..] == es[1..];
      } else {
        AssignShape(es[1..], en);
        AssignFind(es[1..], en, es[0].key);
        assert Assign(es, en)[1..] == Assign(es[1..], en);
      }
    }
  }

  lemma {:induction false} WithoutFind(es: seq<CacheEntry>, key: string, k: string)
    ensures Find(Without(es, key), k) == if k == key then None else Find(es, k)
  {
    if es != [] {
      WithoutFind(es[1..], key, k);
      if es[0].key != key {
        assert Without(es, key)[1..] == Without(es[1..], key);
      }
    }
  }

  /** The cache invariant: at most `ENTITY_CACHE_SIZE` entries, keys distinct. */
  predicate CacheOk(es: seq<CacheEntry>) {
    |es| <= EntityCacheSize && DistinctKeys(es)
  }

  /** After a store the cache still holds at most 100 entries, each key once; the
      stored key maps to the new entry. */
  lemma PutKeepsBound(es: seq<CacheEntry>, key: string, e: Entity, now: int)
    requires CacheOk(es)
    ensures CacheOk(Put(es, key, e, now))
    ensures Find(Put(es, key, e, now), key) == Some(CacheEntry(key, e, now))
  {
    var kept := if |es| >= EntityCacheSize then es[1..] else es;
    AssignShape(kept, CacheEntry(key, e, now));
    AssignFind(kept, CacheEntry(key, e, now), key);
  }

  /** A store into a full cache drops the oldest entry (unless it is the key
      being stored) and leaves every other key as it was. */
  lemma PutEvictsOldest(es: seq<CacheEntry>, key: string, e: Entity, now: int, k: string)
    requires CacheOk(es) && k != key
    ensures |es| >= EntityCacheSize && es[0].key == k ==> Find(Put(es, key, e, now), k) == None
    ensures (|es| < EntityCacheSize || es[0].key != k) ==> Find(Put(es, key, e, now), k) == Find(es, k)
  {
    var kept := if |es| >= EntityCacheSize then es[1..] else es;
    AssignFind(kept, CacheEntry(key, e, now), k);
  }

  // ---------------------------------------------------------- validation

  /** What one `get_entity` call produced: an entity, nothing, or an exception. */
  datatype Lookup = Found(entity: Entity) | Nothing | Raised

  datatype Reason = NoClient | CachedNotGroup | NotGroup | NotFound | LookupFailed

  /** `validate_entity`'s `(ok, entity_or_message)`. */
  datatype Validation = Valid(entity: Entity) | Invalid(reason: Reason)

  /** One validation: its result, the cache after it, and the identifiers
      passed to `get_entity`, in order. */
  datatype ValidationRun = ValidationRun(result: Validation, cache: seq<CacheEntry>, queried: seq<PyId>)

  predicate IsFresh(en: CacheEntry, now: int) {
    now - en.stamp < CacheTtl
  }

  function GroupCheck(e: Entity, groupOnly: bool, failure: Reason): Validation {
    if groupOnly && !IsGroup(e) then Invalid(failure) else Valid(e)
  }

  /** The lookups for a cache miss: `get_entity` on the normalised identifier
      and, when that gives nothing for a positive int, once more on the
      channel id, where an exception counts as nothing. */
  function Resolve(p: PyId, getEntity: PyId -> Lookup): (Lookup, seq<PyId>) {
    var first := getEntity(p);
    if first.Nothing? && p.IdInt? && p.i > 0 then
      var c := IdInt(ChannelId(p.i));
      var second := getEntity(c);
      (if second.Raised? then Nothing else second, [p, c])
    else (first, [p])
  }

  function Miss(es: seq<CacheEntry>, key: string, ident: PyId, groupOnly: bool, now: int,
                getEntity: PyId -> Lookup): ValidationRun
  {
    var (found, queried) := Resolve(Normalize(ident), getEntity);
    match found
    case Raised => ValidationRun(Invalid(LookupFailed), es, queried)
    case Nothing => ValidationRun(Invalid(NotFound), es, queried)
    case Found(e) => ValidationRun(GroupCheck(e, groupOnly, NotGroup), Put(es, key, e, now), queried)
  }

  /** The whole of `validate_entity` as a function of the cache before it. */
  function ValidateSpec(es: seq<CacheEntry>, hasClient: bool, ident: PyId, groupOnly: bool, now: int,
                        getEntity: PyId -> Lookup): ValidationRun
  {
    if !hasClient then ValidationRun(Invalid(NoClient), es, [])
    else
      var key := CacheKey(ident, groupOnly);
      var hit := Find(es, key);
      if hit.Some? && IsFresh(hit.value, now) then
        ValidationRun(GroupCheck(hit.value.entity, groupOnly, CachedNotGroup), es, [])
      else Miss(es, key, ident, groupOnly, now, getEntity)
  }

  /** Validation keeps the cache bounded and its keys distinct. */
  lemma ValidateKeepsCacheOk(es: seq<CacheEntry>, hasClient: bool, ident: PyId, groupOnly: bool, now: int,
                             getEntity: PyId -> Lookup)
    requires CacheOk(es)
    ensures CacheOk(ValidateSpec(es, hasClient, ident, groupOnly, now, getEntity).cache)
  {
    var key := CacheKey(ident, groupOnly);
    var (found, _) := Resolve(Normalize(ident), getEntity);
    if found.Found? {
      PutKeepsBound(es, key, found.entity, now);
    }
  }

  /** A fresh cached entry answers without any lookup and without touching
      the cache. */
  lemma FreshHitSkipsLookup(es: seq<CacheEntry>, ident: PyId, groupOnly: bool, now: int,
                            getEntity: PyId -> Lookup, en: CacheEntry)
    requires Find(es, CacheKey(ident, groupOnly)) == Some(en) && now - en.stamp < CacheTtl
    ensures var run := ValidateSpec(es, true, ident, groupOnly, now, getEntity);
      && run.queried == [] && run.cache == es
      && run.result == (if groupOnly && !IsGroup(en.entity) then Invalid(CachedNotGroup) else Valid(en.entity))
  {
  }

  /** An entry that has outlived the time-to-live behaves as if it were not
      there: the same lookups and the same answer. */
  lemma ExpiredActsAsAbsent(es: seq<CacheEntry>, ident: PyId, groupOnly: bool, now: int,
                            getEntity: PyId -> Lookup, en: CacheEntry)
    requires Find(es, CacheKey(ident, groupOnly)) == Some(en) && now - en.stamp >= CacheTtl
    ensures var key := CacheKey(ident, groupOnly);
      && ValidateSpec(es, true, ident, groupOnly, now, getEntity).result
         == ValidateSpec(Without(es, key), true, ident, groupOnly, now, getEntity).result
      && ValidateSpec(es, true, ident, groupOnly, now, getEntity).queried
         == ValidateSpec(Without(es, key), true, ident, groupOnly, now, getEntity).queried
  {
    var key := CacheKey(ident, groupOnly);
    WithoutFind(es, key, key);
  }

  /** With `group_only`, whatever path is taken, an accepted entity is a group. */
  lemma GroupOnlyYieldsGroups(es: seq<CacheEntry>, hasClient: bool, ident: PyId, now: int,
                              getEntity: PyId -> Lookup)
    ensures var r := ValidateSpec(es, hasClient, ident, true, now, getEntity).result;
      r.Valid? ==> IsGroup(r.entity)
  {
  }

  /** A fresh hit and a fresh resolution of the same entity agree on whether it
      is accepted and on the entity. */
  lemma HitAgreesWithMiss(es: seq<CacheEntry>, ident: PyId, groupOnly: bool, now: int,
                          getEntity: PyId -> Lookup, e: Entity)
    requires Find(es, CacheKey(ident, groupOnly)).Some?
    requires Find(es, CacheKey(ident, groupOnly)).value.entity == e
    requires IsFresh(Find(es, CacheKey(ident, groupOnly)).value, now)
    requires getEntity(Normalize(ident)) == Found(e)
    ensures var hit := ValidateSpec(es, true, ident, groupOnly, now, getEntity).result;
      var miss := ValidateSpec([], true, ident, groupOnly, now, getEntity).result;
      hit.Valid? == miss.Valid? && (hit.Valid? ==> hit.entity == miss.entity)
  {
  }

  /** The second lookup happens only for a positive int whose first lookup
      gave nothing, and it asks for the channel id. */
  lemma RetryOnlyForPositiveIds(es: seq<CacheEntry>, hasClient: bool, ident: PyId, groupOnly: bool, now: int,
                                getEntity: PyId -> Lookup)
    ensures var run := ValidateSpec(es, hasClient, ident, groupOnly, now, getEntity);
      && |run.queried| <= 2
      && (|run.queried| > 0 ==> run.queried[0] == Normalize(ident))
      && (|run.queried| == 2 <==>
            hasClient && run.queried != [] && Normalize(ident).IdInt? && Normalize(ident).i > 0
            && getEntity(Normalize(ident)) == Nothing)
      && (|run.queried| == 2 ==> run.queried[1] == IdInt(ChannelId(Normalize(ident).i)))
  {
    var run := ValidateSpec(es, hasClient, ident, groupOnly, now, getEntity);
    if run.queried != [] {
      var key := CacheKey(ident, groupOnly);
      assert run == Miss(es, key, ident, groupOnly, now, getEntity);
      assert run.queried == Resolve(Normalize(ident), getEntity).1;
      ResolveQueries(Normalize(ident), getEntity);
    }
  }

  /** `Resolve` asks for `p` first, and for the channel id second exactly
      when `p` is a positive int that gave nothing. */
  lemma ResolveQueries(p: PyId, getEntity: PyId -> Lookup)
    ensures var q := Resolve(p, getEntity).1;
      && 1 <= |q| <= 2 && q[0] == p
      && (|q| == 2 <==> p.IdInt? && p.i > 0 && getEntity(p) == Nothing)
      && (|q| == 2 ==> q[1] == IdInt(ChannelId(p.i)))
  {
  }

  /** An accepted entity is either a fresh cached one or one that a lookup
      made in this call returned. */
  lemma ValidComesFromLookup(es: seq<CacheEntry>, hasClient: bool, ident: PyId, groupOnly: bool, now: int,
                             getEntity: PyId -> Lookup)
    ensures var run := ValidateSpec(es, hasClient, ident, groupOnly, now, getEntity);
      run.result.Valid? ==>
        (run.queried == [] && Find(es, CacheKey(ident, groupOnly)).Some?
         && Find(es, CacheKey(ident, groupOnly)).value.entity == run.result.entity)
        || (exists q :: q in run.queried && getEntity(q) == Found(run.result.entity))
  {
    var run := ValidateSpec(es, hasClient, ident, groupOnly, now, getEntity);
    var key := CacheKey(ident, groupOnly);
    var hit := Find(es, key);
    if hasClient && !(hit.Some? && IsFresh(hit.value, now)) {
      var p := Normalize(ident);
      assert run == Miss(es, key, ident, groupOnly, now, getEntity);
      ResolveFoundLast(p, getEntity);
      var (found, queried) := Resolve(p, getEntity);
      if found.Found? {
        assert run.result.Valid? ==> run.result.entity == found.entity;
        assert queried[|queried| - 1] in queried;
      }
    }
  }

  /** An entity that `Resolve` returns is the answer to its last lookup. */
  lemma ResolveFoundLast(p: PyId, getEntity: PyId -> Lookup)
    ensures var (found, queried) := Resolve(p, getEntity);
      queried != [] && (found.Found? ==> getEntity(queried[|queried| - 1]) == found)
  {
  }

  /** `entity_cache` and the validation that reads and fills it. */
  class EntityCache {
    var entries: seq<CacheEntry>

    predicate Valid()
      reads this
    {
      CacheOk(entries)
    }

    constructor ()
      ensures Valid() && entries == []
    {
      entries := [];
    }

    /** Storing a resolved entity: pop the oldest entry when full, then assign. */
    method Store(key: string, e: Entity, now: int)
      requires Valid()
      modifies this
      ensures Valid()
      ensures entries == Put(old(entries), key, e, now)
      ensures Find(entries, key) == Some(CacheEntry(key, e, now))
    {
      PutKeepsBound(entries, key, e, now);
      if |entries| >= EntityCacheSize {
        entries := entries[1..];
      }
      entries := Assign(entries, CacheEntry(key, e, now));
    }

    /** `validate_entity`. */
    method Validate(hasClient: bool, ident: PyId, groupOnly: bool, now: int, getEntity: PyId -> Lookup)
      returns (r: Validation, queried: seq<PyId>)
      requires Valid()
      modifies this
      ensures Valid()
      ensures ValidationRun(r, entries, queried) == ValidateSpec(old(entries), hasClient, ident, groupOnly, now, getEntity)
    {
      if !hasClient {
        r, queried := Invalid(NoClient), [];
        return;
      }
      var key := CacheKey(ident, groupOnly);
      var hit := Find(entries, key);
      if hit.Some? && now - hit.value.stamp < CacheTtl {
        r, queried := GroupCheck(hit.value.entity, groupOnly, CachedNotGroup), [];
        return;
      }
      ghost var es0 := entries;
      assert ValidateSpec(es0, hasClient, ident, groupOnly, now, getEntity) == Miss(es0, key, ident, groupOnly, now, getEntity);
      var p := Normalize(ident);
      var found := getEntity(p);
      queried := [p];
      if found.Nothing? && p.IdInt? && p.i > 0 {
        var c := IdInt(ChannelId(p.i));
        found := getEntity(c);
        queried := queried + [c];
        if found.Raised? {
          found := Nothing;
        }
      }
      assert found == Resolve(p, getEntity).0 && queried == Resolve(p, getEntity).1;
      match found {
        case Raised => r := Invalid(LookupFailed);
        case Nothing => r := Invalid(NotFound);
        case Found(e) =>
          Store(key, e, now);
          r := GroupCheck(e, groupOnly, NotGroup);
      }
    }
  }
}
