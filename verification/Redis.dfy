/** The three Redis stores (internal/adapter/repository/redis).  They share one flat key space;
    the proofs show that they behave as three independent maps. */
module Redis {
  import opened Core
  import opened Codec
  import opened Sessions

  datatype TokenPair = TokenPair(access: string, refresh: string)

  /** A value and the instant from which it is gone. */
  datatype Entry<V> = Entry(value: V, deadline: Time)

  /** The three stores as the service sees them. */
  datatype Cache = Cache(
    access: map<Hash, Entry<Identity>>,
    results: map<Hash, Entry<TokenPair>>,
    sessions: map<Uuid, Entry<bool>>)

  const NOTHING_CACHED := Cache(map[], map[], map[])

  function Read<K, V>(entries: map<K, Entry<V>>, k: K, now: Time): Option<V> {
    if k in entries && now < entries[k].deadline then Some(entries[k].value) else None
  }

  function Remember<K, V>(entries: map<K, Entry<V>>, k: K, v: V, deadline: Time, written: bool): map<K, Entry<V>> {
    if written then entries[k := Entry(v, deadline)] else entries
  }

  // ---------------------------------------------------------------------------------------
  // Keys and values as text
  // ---------------------------------------------------------------------------------------

  datatype Key = AccessKey(hash: Hash) | ResultKey(hash: Hash) | SessionKey(id: Uuid)

  const ACCESS_TOKEN_KEY_PREFIX := "auth:access:"
  const REFRESH_RESULT_KEY_PREFIX := "auth:refresh-result:"
  const SESSION_KEY_PREFIX := "auth:session:"

  function KeyText(k: Key): string {
    match k
    case AccessKey(h) => ACCESS_TOKEN_KEY_PREFIX + Hex(h)
    case ResultKey(h) => REFRESH_RESULT_KEY_PREFIX + Hex(h)
    case SessionKey(id) => SESSION_KEY_PREFIX + UuidText(id)
  }

  lemma PrefixTells(k: Key)
    ensures |KeyText(k)| > 5
    ensures KeyText(k)[5] == if k.AccessKey? then 'a' else if k.ResultKey? then 'r' else 's'
  {
  }

  /** No two keys of any of the stores share a text. */
  lemma KeysAreDistinct(k: Key, l: Key)
    requires KeyText(k) == KeyText(l)
    ensures k == l
  {
    PrefixTells(k);
    PrefixTells(l);
    match k
    case AccessKey(h) =>
      SameSuffix(ACCESS_TOKEN_KEY_PREFIX, Hex(h), Hex(l.hash));
      HexRoundTrip(h);
      HexRoundTrip(l.hash);
    case ResultKey(h) =>
      SameSuffix(REFRESH_RESULT_KEY_PREFIX, Hex(h), Hex(l.hash));
      HexRoundTrip(h);
      HexRoundTrip(l.hash);
    case SessionKey(id) =>
      SameSuffix(SESSION_KEY_PREFIX, UuidText(id), UuidText(l.id));
      UuidRoundTrip(id);
      UuidRoundTrip(l.id);
  }

  lemma SameSuffix(p: string, s: string, t: string)
    requires p + s == p + t
    ensures s == t
  {
    assert s == (p + s)[|p|..] && t == (p + t)[|p|..];
  }

  function IdentityText(identity: Identity): string {
    UuidText(identity.userId) + ":" + UuidText(identity.sessionId)
  }

  function ParseIdentity(text: string): Option<Identity> {
    match Cut(text, ':')
    case None => None
    case Some((user, session)) =>
      match (ParseUuid(user), ParseUuid(session))
      case (Some(u), Some(s)) => Some(Identity(u, s))
      case _ => None
  }

  lemma IdentityRoundTrip(identity: Identity)
    ensures ParseIdentity(IdentityText(identity)) == Some(identity)
  {
    UuidTextHasNoColon(identity.userId);
    CutAtFirst(UuidText(identity.userId), ':', UuidText(identity.sessionId));
    UuidRoundTrip(identity.userId);
    UuidRoundTrip(identity.sessionId);
  }

  /** The texts of the keys, by their prefixes, and of an identity. */
  lemma KnownKeys(h: Hash, u: Uuid, id: Uuid)
    ensures KeyText(AccessKey(h)) == "auth:access:" + Hex(h)
    ensures KeyText(ResultKey(h)) == "auth:refresh-result:" + Hex(h)
    ensures KeyText(SessionKey(id)) == "auth:session:" + UuidText(id)
    ensures IdentityText(Identity(u, id)) == UuidText(u) + ":" + UuidText(id)
  {
  }

  /** A value in the flat key space.  The JSON library is taken as the identity on the pair. */
  datatype Stored = Text(text: string) | Flag(flag: bool) | Json(pair: TokenPair)

  /** What the flat key space holds under a key, according to the three maps. */
  function Slot(c: Cache, k: Key): Option<Entry<Stored>> {
    match k
    case AccessKey(h) =>
      if h in c.access then Some(Entry(Text(IdentityText(c.access[h].value)), c.access[h].deadline)) else None
    case ResultKey(h) =>
      if h in c.results then Some(Entry(Json(c.results[h].value), c.results[h].deadline)) else None
    case SessionKey(id) =>
      if id in c.sessions then Some(Entry(Flag(c.sessions[id].value), c.sessions[id].deadline)) else None
  }

  ghost predicate Represents(flat: map<string, Entry<Stored>>, c: Cache) {
    forall k: Key :: Slot(c, k) == if KeyText(k) in flat then Some(flat[KeyText(k)]) else None
  }

  /** Writing one key moves the flat key space and the three maps in step. */
  lemma WritesCorrespond(flat: map<string, Entry<Stored>>, c: Cache, after: Cache, k: Key, e: Entry<Stored>)
    requires Represents(flat, c) && Slot(after, k) == Some(e)
    requires forall l: Key :: l != k ==> Slot(after, l) == Slot(c, l)
    ensures Represents(flat[KeyText(k) := e], after)
  {
    var flat' := flat[KeyText(k) := e];
    forall l: Key ensures Slot(after, l) == if KeyText(l) in flat' then Some(flat'[KeyText(l)]) else None {
      if KeyText(l) == KeyText(k) {
        KeysAreDistinct(l, k);
      }
    }
  }

  /** Dropping keys from the flat key space drops their entries from the three maps. */
  lemma EvictionsCorrespond(flat: map<string, Entry<Stored>>, c: Cache, keys: set<string>)
    requires Represents(flat, c)
    ensures Represents(flat - keys, Without(c, keys))
  {
  }

  function Without(c: Cache, keys: set<string>): Cache {
    Cache(
      map h | h in c.access && KeyText(AccessKey(h)) !in keys :: c.access[h],
      map h | h in c.results && KeyText(ResultKey(h)) !in keys :: c.results[h],
      map id | id in c.sessions && KeyText(SessionKey(id)) !in keys :: c.sessions[id])
  }

  // ---------------------------------------------------------------------------------------
  // The client and the stores
  // ---------------------------------------------------------------------------------------

  class Client {
    var entries: map<string, Entry<Stored>>
    ghost var view: Cache

    ghost predicate Valid()
      reads this
    {
      Represents(entries, view)
    }

    constructor ()
      ensures Valid() && view == NOTHING_CACHED
    {
      entries := map[];
      view := NOTHING_CACHED;
    }

    method Set(k: Key, value: Stored, deadline: Time, written: bool, ghost after: Cache)
      requires Valid()
      requires written ==> Slot(after, k) == Some(Entry(value, deadline))
      requires written ==> forall l: Key :: l != k ==> Slot(after, l) == Slot(view, l)
      modifies this
      ensures Valid() && view == if written then after else old(view)
    {
      if written {
        WritesCorrespond(entries, view, after, k, Entry(value, deadline));
        entries := entries[KeyText(k) := Entry(value, deadline)];
        view := after;
      }
    }

    method Get(k: Key, now: Time) returns (value: Option<Stored>)
      requires Valid()
      ensures value == match Slot(view, k)
                       case Some(e) => if now < e.deadline then Some(e.value) else None
                       case None => None
    {
      assert Slot(view, k) == if KeyText(k) in entries then Some(entries[KeyText(k)]) else None;
      return Read(entries, KeyText(k), now);
    }

    /** The engine may drop keys at any time. */
    method Evict(keys: set<string>)
      requires Valid()
      modifies this
      ensures Valid()
      ensures view == Without(old(view), keys)
    {
      EvictionsCorrespond(entries, view, keys);
      view := Without(view, keys);
      entries := entries - keys;
    }
  }

  datatype Lookup<V> = Found(value: V) | Missing | Failed

  class AccessTokenStorage {
    const cache: Client

    constructor (cache: Client)
      ensures this.cache == cache
    {
      this.cache := cache;
    }

    method Store(tokenHash: Hash, identity: Identity, ttl: Time, now: Time, written: bool)
      requires cache.Valid() && ttl > 0
      modifies cache
      ensures cache.Valid()
      ensures cache.view == old(cache.view).(
                access := Remember(old(cache.view).access, tokenHash, identity, now + ttl, written))
    {
      var value := IdentityText(identity);
      ghost var after := cache.view.(access := cache.view.access[tokenHash := Entry(identity, now + ttl)]);
      cache.Set(AccessKey(tokenHash), Text(value), now + ttl, written, after);
    }

    method Get(tokenHash: Hash, now: Time, fails: bool) returns (identity: Lookup<Identity>)
      requires cache.Valid()
      ensures identity == if fails then Failed
                          else match Read(cache.view.access, tokenHash, now) case Some(v) => Found(v) case None => Missing
    {
      if fails {
        return Failed;
      }
      var value := cache.Get(AccessKey(tokenHash), now);
      if value.None? {
        return Missing;
      }
      IdentityRoundTrip(cache.view.access[tokenHash].value);
      var parsed := ParseIdentity(value.value.text);
      return if parsed.Some? then Found(parsed.value) else Failed;
    }
  }

  class RefreshResultStorage {
    const cache: Client

    constructor (cache: Client)
      ensures this.cache == cache
    {
      this.cache := cache;
    }

    method Store(oldHash: Hash, pair: TokenPair, ttl: Time, now: Time, written: bool)
      requires cache.Valid() && ttl > 0
      modifies cache
      ensures cache.Valid()
      ensures cache.view == old(cache.view).(
                results := Remember(old(cache.view).results, oldHash, pair, now + ttl, written))
    {
      ghost var after := cache.view.(results := cache.view.results[oldHash := Entry(pair, now + ttl)]);
      cache.Set(ResultKey(oldHash), Json(pair), now + ttl, written, after);
    }

    method Get(oldHash: Hash, now: Time, fails: bool) returns (pair: Lookup<TokenPair>)
      requires cache.Valid()
      ensures pair == if fails then Failed
                      else match Read(cache.view.results, oldHash, now) case Some(v) => Found(v) case None => Missing
    {
      if fails {
        return Failed;
      }
      var value := cache.Get(ResultKey(oldHash), now);
      return if value.None? then Missing else Found(value.value.pair);
    }
  }

  class SessionStorage {
    const cache: Client

    constructor (cache: Client)
      ensures this.cache == cache
    {
      this.cache := cache;
    }

    method SetSession(id: Uuid, isActive: bool, ttl: Time, now: Time, written: bool)
      requires cache.Valid() && ttl > 0
      modifies cache
      ensures cache.Valid()
      ensures cache.view == old(cache.view).(
                sessions := Remember(old(cache.view).sessions, id, isActive, now + ttl, written))
    {
      ghost var after := cache.view.(sessions := cache.view.sessions[id := Entry(isActive, now + ttl)]);
      cache.Set(SessionKey(id), Flag(isActive), now + ttl, written, after);
    }

    method GetSession(id: Uuid, now: Time, fails: bool) returns (isActive: Lookup<bool>)
      requires cache.Valid()
      ensures isActive == if fails then Failed
                          else match Read(cache.view.sessions, id, now) case Some(v) => Found(v) case None => Missing
    {
      if fails {
        return Failed;
      }
      var value := cache.Get(SessionKey(id), now);
      return if value.None? then Missing else Found(value.value.flag);
    }
  }
}
