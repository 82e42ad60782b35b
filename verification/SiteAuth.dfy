/**
 The client object both caches live in. Each method is one stretch of code between two
 awaits, so it is atomic; the step functions of `Introspection` and `Jwks` say what it does
 to the shared fields, and those modules interleave the steps.
 */
module SiteAuth {
  import opened Options
  import I = Introspection
  import J = Jwks

  /** The algorithms this service accepts; "none" and HS256 are not among them. */
  const ALLOWED_ALGORITHMS := ["EdDSA", "RS256"]

  /**
   An entry of the key set: no JSON object, or one with the two fields as far as they are
   texts; `wellFormed` if building a key from it does not raise.
   */
  datatype RawKey = NoObject | Entry(kid: Option<string>, alg: Option<string>, wellFormed: bool)

  /** The reply's body: its key entries, or nothing that can be read as some. */
  datatype Document = Unreadable | Entries(raw: seq<RawKey>)

  predicate Usable(raw: RawKey) {
    raw.Entry? && raw.kid.Some? && raw.alg.Some? && raw.alg.value in ALLOWED_ALGORITHMS
  }

  datatype Decision = Found(alg: string) | Refused | Refetch

  datatype Header = Header(alg: Option<string>, kid: Option<string>)

  datatype Verdict = Accepted(alg: string) | MalformedHeader | AlgorithmNotAllowed | MissingKid | UnknownKid | BadSignature

  class Client {
    const introspectTtl: real
    const cfg: J.Config
    var introspectCache: I.Cache
    var jwks: Option<J.CachedKeys>
    var lastForced: real

    /** The key sets fetched so far, with the times they arrived. */
    ghost var fetched: seq<(J.Keys, real)>

    /** The key cache holds the set fetched last, for a cache time. */
    ghost predicate KeysAreLatest()
      reads this`jwks, this`fetched
    {
      jwks == if fetched == [] then None
              else J.Kept(fetched[|fetched| - 1].0, fetched[|fetched| - 1].1, cfg)
    }

    constructor (introspectTtl: real, jwksTtl: real, cooldown: real)
      ensures this.introspectTtl == introspectTtl && cfg == J.Config(jwksTtl, cooldown)
      ensures KeysAreLatest() && fetched == []
      ensures introspectCache == I.Idle.cache && jwks == J.Initial.cache && lastForced == J.Initial.lastForced
    {
      this.introspectTtl := introspectTtl;
      cfg := J.Config(jwksTtl, cooldown);
      introspectCache := map[];
      jwks := None;
      lastForced := 0.0;
      fetched := [];
    }

    // ---- introspection ----

    /** Up to the request: a hit answers at once. */
    method BeginIntrospect(token: string, now: real) returns (hit: Option<Option<I.Session>>)
      ensures hit == I.Lookup(introspectCache, token, now)
      ensures hit.Some? <==> token in introspectCache && now < introspectCache[token].expiresAt
      ensures hit.Some? ==> hit.value == introspectCache[token].value
    {
      if token in introspectCache {
        var entry := introspectCache[token];
        if entry.expiresAt > now {
          return Some(entry.value);
        }
      }
      return None;
    }

    /** After the reply: the entry expires a cache time after the call began. */
    method FinishIntrospect(token: string, started: real, value: Option<I.Session>) returns (r: Option<I.Session>)
      modifies this`introspectCache
      ensures introspectCache == I.Remember(old(introspectCache), token, value, started, introspectTtl)
      ensures forall t, at :: I.Lookup(introspectCache, t, at) ==
                if t != token then I.Lookup(old(introspectCache), t, at)
                else if at < started + introspectTtl then Some(value) else None
      ensures r == value
    {
      introspectCache := introspectCache[token := I.Cached(value, started + introspectTtl)];
      r := value;
    }

    // ---- signing keys ----

    /**
     The check made before taking the lock and again while holding it: an unforced one answers
     with the set fetched last, until a cache time after it arrived.
     */
    method FreshKeys(force: bool, now: real) returns (keys: Option<J.Keys>)
      requires KeysAreLatest()
      ensures keys.Some? <==> !force && fetched != [] && now < fetched[|fetched| - 1].1 + cfg.ttl
      ensures keys.Some? ==> keys.value == fetched[|fetched| - 1].0
      ensures keys.Some? ==> J.Fresh(jwks, now) && keys.value == jwks.value.keys
    {
      keys := None;
      if !force && jwks.Some? && jwks.value.expiresAt > now {
        keys := Some(jwks.value.keys);
      }
    }

    /** After a fetch: the set serves unforced lookups until exactly a cache time from now. */
    method StoreKeys(keys: J.Keys, now: real)
      requires KeysAreLatest()
      modifies this`jwks, this`fetched
      ensures KeysAreLatest() && fetched == old(fetched) + [(keys, now)]
      ensures forall later: real :: J.Fresh(jwks, later) <==> later < now + cfg.ttl
    {
      jwks := Some(J.CachedKeys(keys, now + cfg.ttl));
      fetched := fetched + [(keys, now)];
    }

    /** What an unforced lookup does with its keys; the cooldown is checked and set in one step. */
    method DecideRefetch(kid: string, keys: J.Keys, now: real) returns (d: Decision)
      modifies this`lastForced
      ensures d.Found? <==> kid in keys
      ensures d.Found? ==> d.alg == keys[kid]
      ensures d.Refetch? <==> kid !in keys && now - old(lastForced) >= cfg.cooldown
      ensures lastForced == if d.Refetch? then now else old(lastForced)
      ensures forall s: J.State, c: nat :: s.lastForced == old(lastForced) ==>
                J.Decide(s, cfg, c, kid, keys, now).lastForced == lastForced
    {
      if kid in keys {
        return Found(keys[kid]);
      }
      if now - lastForced < cfg.cooldown {
        return Refused;
      }
      lastForced := now;
      return Refetch;
    }
  }

  /** The key set as published, in document order; a later entry replaces an earlier one. */
  function UsableKeys(raw: seq<RawKey>): J.Keys {
    if raw == [] then map[]
    else
      var before := UsableKeys(raw[..|raw| - 1]);
      var last := raw[|raw| - 1];
      if Usable(last) then before[last.kid.value := last.alg.value] else before
  }

  /** No entry raises: each is an object, and each that would be kept can be built. */
  ghost predicate NoneRaises(raw: seq<RawKey>) {
    forall i :: 0 <= i < |raw| ==> raw[i].Entry? && (Usable(raw[i]) ==> raw[i].wellFormed)
  }

  /** None: reading the document or an entry raised, and the whole fetch fails. */
  method ParseKeys(doc: Document) returns (keys: Option<J.Keys>)
    ensures keys.Some? <==> doc.Entries? && NoneRaises(doc.raw)
    ensures keys.Some? <==>
              doc.Entries? && forall i :: 0 <= i < |doc.raw| ==>
                var e := doc.raw[i];
                e.Entry? && (e.kid.Some? && e.alg in {Some("EdDSA"), Some("RS256")} ==> e.wellFormed)
    ensures keys.Some? ==> keys.value == UsableKeys(doc.raw)
  {
    if doc.Unreadable? {
      return None;
    }
    var raw := doc.raw;
    var found: J.Keys := map[];
    for i := 0 to |raw|
      invariant found == UsableKeys(raw[..i])
      invariant NoneRaises(raw[..i])
    {
      assert raw[..i + 1][..i] == raw[..i];
      if raw[i].NoObject? {
        return None;
      }
      if raw[i].kid.Some? && raw[i].alg.Some? && raw[i].alg.value in ALLOWED_ALGORITHMS {
        if !raw[i].wellFormed {
          return None;
        }
        found := found[raw[i].kid.value := raw[i].alg.value];
      }
    }
    assert raw[..|raw|] == raw;
    keys := Some(found);
  }

  /** The entry is the last in the document that can be used under its key id. */
  ghost predicate IsLastOfItsKid(raw: seq<RawKey>, i: nat)
    requires i < |raw|
  {
    && raw[i].Entry? && raw[i].kid.Some? && raw[i].alg in {Some("EdDSA"), Some("RS256")}
    && forall j :: i < j < |raw| && raw[j].Entry? && raw[j].kid == raw[i].kid ==> raw[j].alg !in {Some("EdDSA"), Some("RS256")}
  }

  /** Of the entries of a key id the last usable one is held. */
  lemma {:induction false} LastEntryIsHeld(raw: seq<RawKey>, i: nat)
    requires i < |raw| && IsLastOfItsKid(raw, i)
    ensures raw[i].kid.value in UsableKeys(raw) && Some(UsableKeys(raw)[raw[i].kid.value]) == raw[i].alg
  {
    var prefix := raw[..|raw| - 1];
    if i < |prefix| {
      assert prefix[i] == raw[i];
      assert IsLastOfItsKid(prefix, i);
      LastEntryIsHeld(prefix, i);
    }
  }

  /** No key outside the allowed algorithms is ever held, and every usable key id is. */
  lemma {:induction false} OnlyAllowedKeys(raw: seq<RawKey>)
    ensures forall k :: k in UsableKeys(raw) ==>
              && UsableKeys(raw)[k] in {"EdDSA", "RS256"}
              && (exists i :: 0 <= i < |raw| && raw[i].Entry? && raw[i].kid == Some(k) && raw[i].alg == Some(UsableKeys(raw)[k]))
    ensures forall i :: 0 <= i < |raw| && Usable(raw[i]) ==> raw[i].kid.value in UsableKeys(raw)
  {
    if raw != [] {
      var prefix := raw[..|raw| - 1];
      OnlyAllowedKeys(prefix);
      var keys := UsableKeys(raw);
      forall k | k in keys
        ensures keys[k] in {"EdDSA", "RS256"}
                && exists i :: 0 <= i < |raw| && raw[i].Entry? && raw[i].kid == Some(k) && raw[i].alg == Some(keys[k])
      {
        var last := raw[|raw| - 1];
        if Usable(last) && last.kid.value == k {
          assert raw[|raw| - 1].kid == Some(k);
        } else {
          assert k in UsableKeys(prefix) && UsableKeys(prefix)[k] == keys[k];
          var i :| 0 <= i < |prefix| && prefix[i].Entry? && prefix[i].kid == Some(k) && prefix[i].alg == Some(keys[k]);
          assert raw[i] == prefix[i];
        }
      }
      forall i | 0 <= i < |raw| && Usable(raw[i]) ensures raw[i].kid.value in keys {
        if i < |prefix| { assert prefix[i] == raw[i]; }
      }
    }
  }

  /**
   The control flow of the signature check. `keyFor` is the outcome of the key lookup and
   `verifies` the library's verdict under one permitted algorithm.
   */
  method VerifySignature(header: Option<Header>, keyFor: string -> Option<string>, verifies: string -> bool)
    returns (v: Verdict)
    ensures v.Accepted? <==>
              && header.Some? && header.value.alg.Some? && header.value.kid.Some?
              && header.value.alg.value in {"EdDSA", "RS256"}
              && keyFor(header.value.kid.value) == header.value.alg
              && verifies(header.value.alg.value)
    ensures v.Accepted? ==> v.alg == header.value.alg.value
    ensures v.MalformedHeader? <==> header.None?
    ensures v.MissingKid? <==>
              header.Some? && header.value.alg.Some? && header.value.alg.value in {"EdDSA", "RS256"} && header.value.kid.None?
    ensures v.UnknownKid? <==>
              && header.Some? && header.value.alg.Some? && header.value.alg.value in {"EdDSA", "RS256"}
              && header.value.kid.Some? && keyFor(header.value.kid.value).None?
    ensures v.BadSignature? <==>
              && header.Some? && header.value.alg.Some? && header.value.alg.value in {"EdDSA", "RS256"}
              && header.value.kid.Some? && keyFor(header.value.kid.value) == header.value.alg
              && !verifies(header.value.alg.value)
  {
    if header.None? {
      return MalformedHeader;
    }
    var alg, kid := header.value.alg, header.value.kid;
    if alg.None? || alg.value !in ALLOWED_ALGORITHMS {
      return AlgorithmNotAllowed;
    }
    if kid.None? {
      return MissingKid;
    }
    var key := keyFor(kid.value);
    if key.None? {
      return UnknownKid;
    }
    if key.value != alg.value {
      return AlgorithmNotAllowed;
    }
    if !verifies(key.value) {
      return BadSignature;
    }
    return Accepted(key.value);
  }
}
