/** The signing-key cache: the decisions it takes and the fields a refresh attempt updates. */
module JwksVerifier {
  import opened Options

  type Kid = string
  type Key = nat

  /** Seconds; the configuration requires `maxStale` to be at least `ttl`. */
  datatype Settings = Settings(ttl: int, maxStale: int, retry: int, cooldown: int)

  datatype Cache = Cache(keys: map<Kid, Key>, fetchedAt: int, generation: nat)

  datatype Outcome = Success | Failure

  datatype Verifier = Verifier(
    cache: Option<Cache>,
    serial: nat,                    // completed refresh attempts
    outcome: Option<Outcome>,
    completedAt: Option<int>,
    unknownAt: Option<int>)         // completion of the last unknown-key refresh

  datatype Decision = Return(key: Key) | Reject | Unavailable | Proceed

  function Generation(v: Verifier): nat {
    if v.cache.Some? then v.cache.value.generation else 0
  }

  predicate Knows(v: Verifier, kid: Kid) {
    v.cache.Some? && kid in v.cache.value.keys
  }

  function Age(v: Verifier, now: int): int
    requires v.cache.Some?
  {
    now - v.cache.value.fetchedAt
  }

  predicate IsFresh(v: Verifier, st: Settings, now: int) {
    v.cache.Some? && Age(v, now) < st.ttl
  }

  predicate IsUsable(v: Verifier, st: Settings, now: int) {
    v.cache.Some? && Age(v, now) <= st.maxStale
  }

  predicate RetryBlocked(v: Verifier, st: Settings, now: int) {
    v.outcome == Some(Failure) && v.completedAt.Some? && now - v.completedAt.value < st.retry
  }

  predicate CooldownBlocked(v: Verifier, st: Settings, now: int) {
    v.unknownAt.Some? && now - v.unknownAt.value < st.cooldown
  }

  /** What a caller that waited for the lock does with what happened meanwhile. */
  function AfterConcurrentRefresh(
      v: Verifier, st: Settings, kid: Kid, now: int, attempt: nat, generation: nat): Decision
  {
    if v.serial != attempt then
      if Knows(v, kid) && IsFresh(v, st, now) then Return(v.cache.value.keys[kid])
      else if v.outcome == Some(Success) then Reject
      else if Knows(v, kid) && IsUsable(v, st, now) then Return(v.cache.value.keys[kid])
      else Unavailable
    else if v.cache.Some? && v.cache.value.generation != generation then
      if Knows(v, kid) then Return(v.cache.value.keys[kid]) else Reject
    else Proceed
  }

  function BeforeFetch(v: Verifier, st: Settings, kid: Kid, now: int, unknown: bool): Decision {
    if IsFresh(v, st, now) && Knows(v, kid) then Return(v.cache.value.keys[kid])
    else if RetryBlocked(v, st, now) then
      if Knows(v, kid) && IsUsable(v, st, now) then Return(v.cache.value.keys[kid]) else Unavailable
    else if unknown && CooldownBlocked(v, st, now) then
      if v.outcome == Some(Success) then Reject else Unavailable
    else Proceed
  }

  /** Everything decided under the lock before a fetch may start. */
  function UnderLock(
      v: Verifier, st: Settings, kid: Kid, now: int, attempt: nat, generation: nat, unknown: bool): Decision
  {
    var first := AfterConcurrentRefresh(v, st, kid, now, attempt, generation);
    if first.Proceed? then BeforeFetch(v, st, kid, now, unknown) else first
  }

  function Fetched(v: Verifier, keys: map<Kid, Key>, now: int): Verifier {
    v.(cache := Some(Cache(keys, now, Generation(v) + 1)), serial := v.serial + 1,
       outcome := Some(Success), completedAt := Some(now))
  }

  function FetchFailed(v: Verifier, now: int): Verifier {
    v.(serial := v.serial + 1, outcome := Some(Failure), completedAt := Some(now))
  }

  function UnknownDone(v: Verifier, unknown: bool, now: int): Verifier {
    if unknown then v.(unknownAt := Some(now)) else v
  }

  class OidcVerifier {
    var cache: Option<Cache>
    var serial: nat
    var outcome: Option<Outcome>
    var completedAt: Option<int>
    var unknownAt: Option<int>

    function View(): Verifier
      reads this
    {
      Verifier(cache, serial, outcome, completedAt, unknownAt)
    }

    constructor ()
      ensures View() == Verifier(None, 0, None, None, None)
    {
      cache, serial, outcome, completedAt, unknownAt := None, 0, None, None, None;
    }

    method RecordRefreshFailure(now: int)
      modifies this
      ensures View() == FetchFailed(old(View()), now)
    {
      serial := serial + 1;
      outcome := Some(Failure);
      completedAt := Some(now);
    }

    method StoreKeys(keys: map<Kid, Key>, now: int)
      modifies this
      ensures View() == Fetched(old(View()), keys, now)
    {
      var generation: nat := 1;
      if cache.Some? {
        generation := cache.value.generation + 1;
      }
      cache := Some(Cache(keys, now, generation));
      serial := serial + 1;
      outcome := Some(Success);
      completedAt := Some(now);
    }

    method NoteUnknownRefresh(unknown: bool, now: int)
      modifies this
      ensures View() == UnknownDone(old(View()), unknown, now)
    {
      if unknown {
        unknownAt := Some(now);
      }
    }

    method DecideUnderLock(st: Settings, kid: Kid, now: int, attempt: nat, generation: nat, unknown: bool)
      returns (d: Decision)
      ensures d == UnderLock(View(), st, kid, now, attempt, generation, unknown)
    {
      var known := cache.Some? && kid in cache.value.keys;
      if serial != attempt {
        if known && now - cache.value.fetchedAt < st.ttl {
          return Return(cache.value.keys[kid]);
        }
        if outcome == Some(Success) {
          return Reject;
        }
        if known && now - cache.value.fetchedAt <= st.maxStale {
          return Return(cache.value.keys[kid]);
        }
        return Unavailable;
      }
      if cache.Some? && cache.value.generation != generation {
        if known {
          return Return(cache.value.keys[kid]);
        }
        return Reject;
      }
      if known && now - cache.value.fetchedAt < st.ttl {
        return Return(cache.value.keys[kid]);
      }
      if RetryBlocked(View(), st, now) {
        if known && now - cache.value.fetchedAt <= st.maxStale {
          return Return(cache.value.keys[kid]);
        }
        return Unavailable;
      }
      if unknown && CooldownBlocked(View(), st, now) {
        return if outcome == Some(Success) then Reject else Unavailable;
      }
      return Proceed;
    }
  }
}
