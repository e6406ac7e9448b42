/** The fixed-window rate-limit script and the guarantees it gives over whole request histories. */
module RateLimit {
  import opened Options

  /** A stored window; the key expires at `expiresAt` (server milliseconds). */
  datatype Window = Window(start: int, count: int, expiresAt: int)

  datatype Reply = Reply(allowed: bool, remaining: int, retryMs: int, resetMs: int)

  datatype Decision = Decision(allowed: bool, remaining: int, retryAfterSeconds: int, resetAfterSeconds: int)

  function Max(a: int, b: int): int {
    if a < b then b else a
  }

  /** One execution of the script against the stored hash. */
  function Script(key: Option<Window>, now: int, limit: int, windowMs: int): (Option<Window>, Reply) {
    var stored := if key.Some? then key.value.start else now;
    var counted := if key.Some? then key.value.count else 0;
    var rolled := now - stored >= windowMs;
    var start := if rolled then now else stored;
    var current := if rolled then 0 else counted;
    var ttl := Max(1, windowMs - (now - start));
    if current >= limit then (key, Reply(false, 0, ttl, ttl))
    else (Some(Window(start, current + 1, now + ttl)), Reply(true, limit - (current + 1), 0, ttl))
  }

  /** Rounding up to whole seconds, for non-negative milliseconds. */
  function CeilSeconds(ms: int): (s: int)
    ensures ms <= 1000 * s < ms + 1000
  {
    (ms + 999) / 1000
  }

  function ToDecision(r: Reply): Decision {
    Decision(r.allowed, Max(0, r.remaining), Max(0, CeilSeconds(r.retryMs)), Max(1, CeilSeconds(r.resetMs)))
  }

  /** One rate-limit key of the shared store. */
  class WindowStore {
    var key: Option<Window>

    constructor ()
      ensures key.None?
    {
      key := None;
    }

    /** The server drops an expired key when it gets round to it. */
    method Evict(due: bool, now: int)
      modifies this
      ensures key == Seen(old(key), Request(now, due))
    {
      if key.Some? && due && now >= key.value.expiresAt {
        key := None;
      }
    }

    /** The script as it runs: read, roll over, refuse or count, and set the expiry. */
    method Check(now: int, limit: int, windowSeconds: int) returns (d: Decision)
      modifies this
      ensures key == Script(old(key), now, limit, windowSeconds * 1000).0
      ensures d == ToDecision(Script(old(key), now, limit, windowSeconds * 1000).1)
    {
      var windowMs := windowSeconds * 1000;
      var start := now;
      var current := 0;
      if key.Some? {
        start := key.value.start;
        current := key.value.count;
      }
      if now - start >= windowMs {
        start := now;
        current := 0;
      }
      var ttl := Max(1, windowMs - (now - start));
      if current >= limit {
        return ToDecision(Reply(false, 0, ttl, ttl));
      }
      current := current + 1;
      key := Some(Window(start, current, now + ttl));
      return ToDecision(Reply(true, limit - current, 0, ttl));
    }
  }

  // ---- request histories ----

  /** A request at a server time; `evict` says the server has dropped the key if it may. */
  datatype Request = Request(now: int, evict: bool)

  /** The key a request sees: gone if it has expired and the server evicted it. */
  function Seen(key: Option<Window>, r: Request): Option<Window> {
    if key.Some? && r.evict && r.now >= key.value.expiresAt then None else key
  }

  function Serve(key: Option<Window>, r: Request, limit: int, windowMs: int): (Option<Window>, Reply) {
    Script(Seen(key, r), r.now, limit, windowMs)
  }

  /** An admitted request: when, and the start of the window that admitted it. */
  datatype Admission = Admission(time: int, start: int)

  datatype History = History(key: Option<Window>, admitted: seq<Admission>, replies: seq<Reply>)

  ghost predicate Ordered(requests: seq<Request>) {
    forall i, j :: 0 <= i < j < |requests| ==> requests[i].now <= requests[j].now
  }

  function Answer(h: History, r: Request, limit: int, windowMs: int): History {
    var (key, reply) := Serve(h.key, r, limit, windowMs);
    History(key,
            if reply.allowed && key.Some? then h.admitted + [Admission(r.now, key.value.start)] else h.admitted,
            h.replies + [reply])
  }

  function Play(requests: seq<Request>, limit: int, windowMs: int): History
    decreases |requests|
  {
    if requests == [] then History(None, [], [])
    else Answer(Play(requests[..|requests| - 1], limit, windowMs), requests[|requests| - 1], limit, windowMs)
  }

  /** How many admissions belong to the window that starts at `start`. */
  function InWindow(admitted: seq<Admission>, start: int): nat {
    if admitted == [] then 0
    else InWindow(admitted[..|admitted| - 1], start)
         + (if admitted[|admitted| - 1].start == start then 1 else 0)
  }

  /** How many admissions fall in the half-open interval from `a` to `b`. */
  function InInterval(admitted: seq<Admission>, a: int, b: int): nat {
    if admitted == [] then 0
    else InInterval(admitted[..|admitted| - 1], a, b)
         + (if a <= admitted[|admitted| - 1].time < b then 1 else 0)
  }

  // ---- the invariant of a history ----

  ghost predicate KeyInv(h: History, limit: int, windowMs: int) {
    match h.key
    case None => h.admitted == []
    case Some(w) =>
      && h.admitted != [] && w.start == h.admitted[|h.admitted| - 1].start
      && w.expiresAt == w.start + windowMs
      && w.count == InWindow(h.admitted, w.start)
      && 1 <= w.count <= limit
  }

  /** Admissions are in time order, each inside its window; each joins the window of
      the one before it, or opens a new one at its own time, a whole window later. */
  ghost predicate SpacedInv(admitted: seq<Admission>, windowMs: int) {
    admitted == [] ||
    var n := |admitted| - 1;
    && SpacedInv(admitted[..n], windowMs)
    && admitted[n].start <= admitted[n].time < admitted[n].start + windowMs
    && (n > 0 ==> admitted[n - 1].time <= admitted[n].time)
    && if n > 0 && admitted[n - 1].start == admitted[n].start then true
       else admitted[n].time == admitted[n].start
            && (n > 0 ==> admitted[n - 1].start + windowMs <= admitted[n].start)
  }

  lemma {:induction false} SpacedPair(admitted: seq<Admission>, windowMs: int, i: nat, j: nat)
    requires windowMs >= 1 && SpacedInv(admitted, windowMs) && i <= j < |admitted|
    ensures admitted[i].start <= admitted[i].time < admitted[i].start + windowMs
    ensures admitted[i].time <= admitted[j].time
    ensures admitted[i].start == admitted[j].start || admitted[i].start + windowMs <= admitted[j].start
    decreases |admitted|
  {
    var n := |admitted| - 1;
    if j < n {
      SpacedPair(admitted[..n], windowMs, i, j);
    } else if i < n {
      SpacedPair(admitted[..n], windowMs, i, n - 1);
    }
  }

  lemma {:induction false} FindOpener(admitted: seq<Admission>, windowMs: int, i: nat)
    requires SpacedInv(admitted, windowMs) && i < |admitted|
    ensures Admission(admitted[i].start, admitted[i].start) in admitted
    decreases |admitted|, i
  {
    var n := |admitted| - 1;
    if i < n {
      FindOpener(admitted[..n], windowMs, i);
    } else if i > 0 && admitted[i - 1].start == admitted[i].start {
      FindOpener(admitted[..n], windowMs, i - 1);
    } else {
      assert admitted[i] == Admission(admitted[i].start, admitted[i].start);
    }
  }

  ghost predicate LimitInv(admitted: seq<Admission>, limit: int) {
    forall start :: InWindow(admitted, start) <= Max(0, limit)
  }

  ghost predicate UpTo(admitted: seq<Admission>, now: int) {
    admitted != [] ==> admitted[|admitted| - 1].time <= now
  }

  /** An admission either joins the newest window, which still has room, or opens
      a new one at least a window later. */
  ghost predicate Admits(admitted: seq<Admission>, now: int, start: int, limit: int, windowMs: int) {
    if admitted != [] && start == admitted[|admitted| - 1].start
    then now < start + windowMs && InWindow(admitted, start) < limit
    else start == now && 1 <= limit && (admitted != [] ==> admitted[|admitted| - 1].start + windowMs <= start)
  }

  /** One served request, in terms of the admissions so far. */
  lemma {:induction false} ServeAdmits(h: History, r: Request, limit: int, windowMs: int)
    requires windowMs >= 1 && KeyInv(h, limit, windowMs) && UpTo(h.admitted, r.now)
    ensures var (key, reply) := Serve(h.key, r, limit, windowMs);
      if reply.allowed
      then key.Some? && key.value.expiresAt == key.value.start + windowMs
           && Admits(h.admitted, r.now, key.value.start, limit, windowMs)
           && key.value.count == 1 + (if h.key.Some? && key.value.start == h.key.value.start
                                      then h.key.value.count else 0)
      else key == h.key
  {
  }

  lemma {:induction false} AbsentWindowIsEmpty(admitted: seq<Admission>, start: int)
    requires forall i :: 0 <= i < |admitted| ==> admitted[i].start != start
    ensures InWindow(admitted, start) == 0
  {
    if admitted != [] {
      AbsentWindowIsEmpty(admitted[..|admitted| - 1], start);
    }
  }

  lemma {:induction false} AdmissionKeepsSpaced(
      admitted: seq<Admission>, now: int, start: int, limit: int, windowMs: int)
    requires windowMs >= 1 && SpacedInv(admitted, windowMs) && UpTo(admitted, now)
    requires Admits(admitted, now, start, limit, windowMs)
    ensures SpacedInv(admitted + [Admission(now, start)], windowMs)
  {
    var more := admitted + [Admission(now, start)];
    assert more[..|more| - 1] == admitted;
  }

  lemma {:induction false} AdmissionCounts(admitted: seq<Admission>, now: int, start: int, limit: int, windowMs: int)
    requires windowMs >= 1 && SpacedInv(admitted, windowMs) && LimitInv(admitted, limit)
    requires Admits(admitted, now, start, limit, windowMs)
    ensures LimitInv(admitted + [Admission(now, start)], limit)
    ensures InWindow(admitted + [Admission(now, start)], start) == InWindow(admitted, start) + 1
    ensures admitted == [] || start != admitted[|admitted| - 1].start ==> InWindow(admitted, start) == 0
  {
    var more := admitted + [Admission(now, start)];
    assert more[..|more| - 1] == admitted;
    if admitted == [] || start != admitted[|admitted| - 1].start {
      forall i | 0 <= i < |admitted|
        ensures admitted[i].start != start
      {
        SpacedPair(admitted, windowMs, i, |admitted| - 1);
      }
      AbsentWindowIsEmpty(admitted, start);
    }
    forall s
      ensures InWindow(more, s) <= Max(0, limit)
    {
      assert InWindow(admitted, s) <= Max(0, limit);
    }
  }

  ghost predicate HistoryInv(h: History, limit: int, windowMs: int) {
    KeyInv(h, limit, windowMs) && SpacedInv(h.admitted, windowMs) && LimitInv(h.admitted, limit)
  }

  lemma {:induction false} AnswerKeepsInv(h: History, r: Request, limit: int, windowMs: int)
    requires windowMs >= 1 && HistoryInv(h, limit, windowMs) && UpTo(h.admitted, r.now)
    ensures HistoryInv(Answer(h, r, limit, windowMs), limit, windowMs)
    ensures UpTo(Answer(h, r, limit, windowMs).admitted, r.now)
  {
    ServeAdmits(h, r, limit, windowMs);
    var (key, reply) := Serve(h.key, r, limit, windowMs);
    if reply.allowed {
      AdmissionKeepsSpaced(h.admitted, r.now, key.value.start, limit, windowMs);
      AdmissionCounts(h.admitted, r.now, key.value.start, limit, windowMs);
    }
  }

  lemma {:induction false} PlayInv(requests: seq<Request>, limit: int, windowMs: int)
    requires windowMs >= 1 && Ordered(requests)
    ensures HistoryInv(Play(requests, limit, windowMs), limit, windowMs)
    ensures requests != [] ==> UpTo(Play(requests, limit, windowMs).admitted, requests[|requests| - 1].now)
    decreases |requests|
  {
    if requests != [] {
      var before := requests[..|requests| - 1];
      PlayInv(before, limit, windowMs);
      AnswerKeepsInv(Play(before, limit, windowMs), requests[|requests| - 1], limit, windowMs);
    }
  }

  // ---- what a window guarantees ----

  /** No window ever admits more than the limit. */
  lemma {:induction false} WindowAdmitsAtMostLimit(requests: seq<Request>, limit: nat, windowMs: int, start: int)
    requires windowMs >= 1 && Ordered(requests)
    ensures InWindow(Play(requests, limit, windowMs).admitted, start) <= limit
  {
    PlayInv(requests, limit, windowMs);
  }

  /** A reply tells the truth about its window: how many requests it will still admit, and
      when it ends. A refusal comes only from a window that has admitted the whole limit. */
  lemma {:induction false} ReplyIsExact(requests: seq<Request>, r: Request, limit: int, windowMs: int)
    requires windowMs >= 1 && limit >= 1 && Ordered(requests + [r])
    ensures var before := Play(requests, limit, windowMs);
      var h := Answer(before, r, limit, windowMs);
      var reply := h.replies[|h.replies| - 1];
      && h.key.Some? && r.now < h.key.value.start + windowMs
      && reply.remaining == limit - InWindow(h.admitted, h.key.value.start)
      && r.now + reply.resetMs == h.key.value.start + windowMs
      && reply.retryMs == (if reply.allowed then 0 else reply.resetMs)
      && (reply.allowed <==> |h.admitted| == |before.admitted| + 1)
  {
    var all := requests + [r];
    assert forall i :: 0 <= i < |requests| ==> all[i] == requests[i];
    assert all[|requests|] == r;
    PlayInv(requests, limit, windowMs);
    AnswerKeepsInv(Play(requests, limit, windowMs), r, limit, windowMs);
  }

  function InBoth(admitted: seq<Admission>, start: int, a: int, b: int): nat {
    if admitted == [] then 0
    else
      var last := admitted[|admitted| - 1];
      InBoth(admitted[..|admitted| - 1], start, a, b)
      + (if last.start == start && a <= last.time < b then 1 else 0)
  }

  lemma {:induction false} InBothBound(admitted: seq<Admission>, start: int, a: int, b: int)
    ensures InBoth(admitted, start, a, b) <= InWindow(admitted, start)
    ensures start < a && Admission(start, start) in admitted ==>
              InBoth(admitted, start, a, b) < InWindow(admitted, start)
  {
    if admitted != [] {
      var before := admitted[..|admitted| - 1];
      InBothBound(before, start, a, b);
      assert admitted == before + [admitted[|admitted| - 1]];
    }
  }

  lemma {:induction false} IntervalSplits(admitted: seq<Admission>, a: int, b: int, s1: int, s2: int)
    requires forall i :: 0 <= i < |admitted| && a <= admitted[i].time < b ==> admitted[i].start in {s1, s2}
    ensures InInterval(admitted, a, b) <= InBoth(admitted, s1, a, b) + InBoth(admitted, s2, a, b)
    ensures s1 == s2 ==> InInterval(admitted, a, b) <= InBoth(admitted, s1, a, b)
  {
    if admitted != [] {
      IntervalSplits(admitted[..|admitted| - 1], a, b, s1, s2);
    }
  }

  lemma {:induction false} EmptyInterval(admitted: seq<Admission>, a: int, b: int)
    requires forall i :: 0 <= i < |admitted| ==> !(a <= admitted[i].time < b)
    ensures InInterval(admitted, a, b) == 0
  {
    if admitted != [] {
      EmptyInterval(admitted[..|admitted| - 1], a, b);
    }
  }

  /** The first and the last admission in an interval, if there is one. */
  lemma {:induction false} EndsOfInterval(admitted: seq<Admission>, a: int, b: int)
    returns (found: bool, first: nat, last: nat)
    ensures found ==> first <= last < |admitted| && a <= admitted[first].time && admitted[last].time < b
    ensures forall k :: 0 <= k < |admitted| && a <= admitted[k].time < b ==> found && first <= k <= last
    decreases |admitted|
  {
    if admitted == [] {
      return false, 0, 0;
    }
    found, first, last := EndsOfInterval(admitted[..|admitted| - 1], a, b);
    if a <= admitted[|admitted| - 1].time < b {
      first := if found then first else |admitted| - 1;
      found, last := true, |admitted| - 1;
    }
  }

  /** Admissions in an interval at most one window long come from at most two windows. */
  lemma {:induction false} IntervalBound(admitted: seq<Admission>, limit: nat, windowMs: int, a: int, b: int)
    requires windowMs >= 1 && limit >= 1 && b <= a + windowMs + 1
    requires SpacedInv(admitted, windowMs) && LimitInv(admitted, limit)
    ensures InInterval(admitted, a, b) <= if b <= a + windowMs then 2 * limit - 1 else 2 * limit
  {
    var found, first, last := EndsOfInterval(admitted, a, b);
    if found {
      var s1, s2 := admitted[first].start, admitted[last].start;
      forall k | first <= k <= last
        ensures admitted[k].start in {s1, s2}
      {
        SpacedPair(admitted, windowMs, first, k);
        SpacedPair(admitted, windowMs, k, last);
        SpacedPair(admitted, windowMs, last, last);
      }
      SpacedPair(admitted, windowMs, first, last);
      SpacedPair(admitted, windowMs, last, last);
      IntervalSplits(admitted, a, b, s1, s2);
      InBothBound(admitted, s1, a, b);
      InBothBound(admitted, s2, a, b);
      assert InWindow(admitted, s1) <= limit && InWindow(admitted, s2) <= limit;
      FindOpener(admitted, windowMs, first);
    } else {
      EmptyInterval(admitted, a, b);
    }
  }

  /** Any interval one window long admits fewer than twice the limit when it is
      half-open, and at most twice the limit when it includes both ends. */
  lemma {:induction false} IntervalAdmitsUnderTwiceLimit(requests: seq<Request>, limit: nat, windowMs: int, a: int)
    requires windowMs >= 1 && limit >= 1 && Ordered(requests)
    ensures InInterval(Play(requests, limit, windowMs).admitted, a, a + windowMs) <= 2 * limit - 1
    ensures InInterval(Play(requests, limit, windowMs).admitted, a, a + windowMs + 1) <= 2 * limit
  {
    PlayInv(requests, limit, windowMs);
    var admitted := Play(requests, limit, windowMs).admitted;
    IntervalBound(admitted, limit, windowMs, a, a + windowMs);
    IntervalBound(admitted, limit, windowMs, a, a + windowMs + 1);
  }

  // ---- both bounds are reached ----

  /** A history followed by some requests at one moment. */
  function Then(requests: seq<Request>, now: int, n: nat): seq<Request> {
    if n == 0 then requests else Then(requests, now, n - 1) + [Request(now, false)]
  }

  /** The window a request at this moment falls into, and how many it still admits. */
  function WindowAt(key: Option<Window>, now: int, windowMs: int): int {
    if key.None? || now - key.value.start >= windowMs then now else key.value.start
  }

  function Room(key: Option<Window>, now: int, limit: int, windowMs: int): int {
    if key.None? || now - key.value.start >= windowMs then limit else limit - key.value.count
  }

  /** `n` requests of this moment were admitted between the two histories. */
  ghost predicate Admitted(
      before: History, after: History, now: int, n: nat, limit: int, windowMs: int, a: int, b: int)
  {
    var start := WindowAt(before.key, now, windowMs);
    && after.key == Some(Window(start, limit - Room(before.key, now, limit, windowMs) + n, start + windowMs))
    && InInterval(after.admitted, a, b) == InInterval(before.admitted, a, b) + (if a <= now < b then n else 0)
  }

  lemma {:induction false} RequestIsAdmitted(h: History, now: int, limit: int, windowMs: int, a: int, b: int)
    requires windowMs >= 1 && 1 <= Room(h.key, now, limit, windowMs)
    ensures Admitted(h, Answer(h, Request(now, false), limit, windowMs), now, 1, limit, windowMs, a, b)
  {
    var after := Answer(h, Request(now, false), limit, windowMs);
    assert after.admitted[..|h.admitted|] == h.admitted;
  }

  lemma {:induction false} AdmittedAddsUp(
      x: History, y: History, z: History, now: int, n: nat, limit: int, windowMs: int, a: int, b: int)
    requires windowMs >= 1 && Admitted(x, y, now, n, limit, windowMs, a, b)
    ensures Room(y.key, now, limit, windowMs) == Room(x.key, now, limit, windowMs) - n
    ensures Admitted(y, z, now, 1, limit, windowMs, a, b) ==> Admitted(x, z, now, n + 1, limit, windowMs, a, b)
  {
  }

  lemma {:induction false} PlayOneMore(requests: seq<Request>, r: Request, limit: int, windowMs: int)
    ensures Play(requests + [r], limit, windowMs) == Answer(Play(requests, limit, windowMs), r, limit, windowMs)
  {
    assert (requests + [r])[..|requests|] == requests;
  }

  /** Requests that find room are all admitted. */
  lemma {:induction false} BurstIsAdmitted(
      requests: seq<Request>, now: int, n: nat, limit: int, windowMs: int, a: int, b: int)
    requires windowMs >= 1 && 1 <= n <= Room(Play(requests, limit, windowMs).key, now, limit, windowMs)
    ensures Admitted(Play(requests, limit, windowMs), Play(Then(requests, now, n), limit, windowMs),
                     now, n, limit, windowMs, a, b)
    decreases n
  {
    var x, y := Play(requests, limit, windowMs), Play(Then(requests, now, n - 1), limit, windowMs);
    PlayOneMore(Then(requests, now, n - 1), Request(now, false), limit, windowMs);
    if n > 1 {
      BurstIsAdmitted(requests, now, n - 1, limit, windowMs, a, b);
      AdmittedAddsUp(x, y, Answer(y, Request(now, false), limit, windowMs), now, n - 1, limit, windowMs, a, b);
    }
    RequestIsAdmitted(y, now, limit, windowMs, a, b);
  }

  ghost predicate OrderedUpTo(requests: seq<Request>, now: int) {
    Ordered(requests) && forall i :: 0 <= i < |requests| ==> requests[i].now <= now
  }

  lemma {:induction false} ThenIsOrdered(requests: seq<Request>, now: int, n: nat)
    requires OrderedUpTo(requests, now)
    ensures OrderedUpTo(Then(requests, now, n), now)
    decreases n
  {
    if n > 0 {
      ThenIsOrdered(requests, now, n - 1);
    }
  }

  /** A full window at its start and the next one when it is over: twice the limit between
      two moments one window apart, both included. */
  lemma {:induction false} ClosedBoundIsReached(limit: nat, windowMs: int) returns (requests: seq<Request>)
    requires limit >= 1 && windowMs >= 1
    ensures Ordered(requests) && InInterval(Play(requests, limit, windowMs).admitted, 0, windowMs + 1) == 2 * limit
  {
    BurstIsAdmitted([], 0, limit, limit, windowMs, 0, windowMs + 1);
    ThenIsOrdered([], 0, limit);
    var first := Then([], 0, limit);
    BurstIsAdmitted(first, windowMs, limit, limit, windowMs, 0, windowMs + 1);
    ThenIsOrdered(first, windowMs, limit);
    requests := Then(first, windowMs, limit);
  }

  /** A window opened by one request and filled at its end, and the next one filled at once:
      one less than twice the limit after the first request and before a window has passed. */
  lemma {:induction false} HalfOpenBoundIsReached(limit: nat, windowMs: int) returns (requests: seq<Request>)
    requires limit >= 1 && windowMs >= 2
    ensures Ordered(requests)
    ensures InInterval(Play(requests, limit, windowMs).admitted, 1, 1 + windowMs) == 2 * limit - 1
  {
    BurstIsAdmitted([], 0, 1, limit, windowMs, 1, 1 + windowMs);
    ThenIsOrdered([], 0, 1);
    requests := Then([], 0, 1);
    if limit > 1 {
      BurstIsAdmitted(requests, windowMs - 1, limit - 1, limit, windowMs, 1, 1 + windowMs);
      ThenIsOrdered(requests, windowMs - 1, limit - 1);
      requests := Then(requests, windowMs - 1, limit - 1);
    }
    BurstIsAdmitted(requests, windowMs, limit, limit, windowMs, 1, 1 + windowMs);
    ThenIsOrdered(requests, windowMs, limit);
    requests := Then(requests, windowMs, limit);
  }

  // ---- expiry and waiting ----

  ghost predicate SameTimes(xs: seq<Request>, ys: seq<Request>) {
    |xs| == |ys| && forall i :: 0 <= i < |xs| ==> xs[i].now == ys[i].now
  }

  ghost predicate KeyShape(key: Option<Window>, limit: int, windowMs: int) {
    key.Some? ==> key.value.expiresAt == key.value.start + windowMs && 1 <= key.value.count <= limit
  }

  lemma {:induction false} PlayKeyShape(requests: seq<Request>, limit: int, windowMs: int)
    requires windowMs >= 1
    ensures KeyShape(Play(requests, limit, windowMs).key, limit, windowMs)
    decreases |requests|
  {
    if requests != [] {
      PlayKeyShape(requests[..|requests| - 1], limit, windowMs);
    }
  }

  /** Whether and when the server evicts expired keys changes no reply and no stored window. */
  lemma {:induction false} ExpiryChangesNoDecision(xs: seq<Request>, ys: seq<Request>, limit: int, windowMs: int)
    requires windowMs >= 1 && SameTimes(xs, ys)
    ensures Play(xs, limit, windowMs) == Play(ys, limit, windowMs)
    decreases |xs|
  {
    if xs != [] {
      var n := |xs| - 1;
      ExpiryChangesNoDecision(xs[..n], ys[..n], limit, windowMs);
      PlayKeyShape(xs[..n], limit, windowMs);
      var key := Play(xs[..n], limit, windowMs).key;
      assert Serve(key, xs[n], limit, windowMs) == Serve(key, ys[n], limit, windowMs);
    }
  }

  /** A caller refused after any history that waits the rounded-up retry seconds is
      admitted next, and is never told to wait a whole second past the rollover. */
  lemma {:induction false} WaitingReachesRollover(
      requests: seq<Request>, refused: Request, later: Request, limit: int, windowMs: int)
    requires windowMs >= 1 && limit >= 1 && Ordered(requests + [refused])
    requires !Serve(Play(requests, limit, windowMs).key, refused, limit, windowMs).1.allowed
    ensures var (key, reply) := Serve(Play(requests, limit, windowMs).key, refused, limit, windowMs);
      var wait := 1000 * ToDecision(reply).retryAfterSeconds;
      && key.Some?
      && key.value.expiresAt <= refused.now + wait < key.value.expiresAt + 1000
      && (later.now >= refused.now + wait ==> Serve(key, later, limit, windowMs).1.allowed)
  {
    PlayKeyShape(requests, limit, windowMs);
  }

  // ---- the decisions callers see ----

  /** The admissions after the first requests of a history. */
  function AdmittedBy(requests: seq<Request>, n: nat, limit: int, windowMs: int): seq<Admission>
    requires n <= |requests|
  {
    Play(requests[..n], limit, windowMs).admitted
  }

  /** What a decision tells its caller is so: it admits exactly a request that is counted, names
      the room left in the window and, in whole seconds, the time to the window's end. */
  ghost predicate Truthful(d: Decision, requests: seq<Request>, i: nat, limit: int, windowMs: int)
    requires i < |requests|
  {
    var before, after := AdmittedBy(requests, i, limit, windowMs), AdmittedBy(requests, i + 1, limit, windowMs);
    && (d.allowed <==> |after| == |before| + 1)
    && (!d.allowed <==> after == before)
    && after != [] && (d.allowed ==> after[|after| - 1].time == requests[i].now)
    && var start := after[|after| - 1].start;
       && start <= requests[i].now < start + windowMs
       && d.remaining == limit - InWindow(after, start)
       && 1 <= d.resetAfterSeconds
       && start + windowMs <= requests[i].now + 1000 * d.resetAfterSeconds < start + windowMs + 1000
       && d.retryAfterSeconds == (if d.allowed then 0 else d.resetAfterSeconds)
  }

  lemma {:induction false} OrderedPrefix(requests: seq<Request>, n: nat)
    requires Ordered(requests) && n <= |requests|
    ensures Ordered(requests[..n])
  {
  }

  lemma {:induction false} DecisionIsTruthful(requests: seq<Request>, i: nat, limit: int, windowMs: int)
    requires windowMs >= 1 && limit >= 1 && Ordered(requests) && i < |requests|
    ensures |Play(requests[..i + 1], limit, windowMs).replies| == |Play(requests[..i], limit, windowMs).replies| + 1
    ensures var replies := Play(requests[..i + 1], limit, windowMs).replies;
      Truthful(ToDecision(replies[|replies| - 1]), requests, i, limit, windowMs)
  {
    OrderedPrefix(requests, i + 1);
    assert requests[..i + 1] == requests[..i] + [requests[i]];
    PlayOneMore(requests[..i], requests[i], limit, windowMs);
    ReplyIsExact(requests[..i], requests[i], limit, windowMs);
    PlayInv(requests[..i + 1], limit, windowMs);
  }

  lemma {:induction false} TruthfulOfPrefix(
      d: Decision, requests: seq<Request>, n: nat, i: nat, limit: int, windowMs: int)
    requires i < n <= |requests|
    ensures Truthful(d, requests[..n], i, limit, windowMs) <==> Truthful(d, requests, i, limit, windowMs)
  {
    assert requests[..n][..i] == requests[..i] && requests[..n][..i + 1] == requests[..i + 1];
  }

  /** The decisions made of a history's replies are all truthful. */
  lemma {:induction false} DecisionsAreTruthful(
      requests: seq<Request>, decisions: seq<Decision>, limit: int, windowMs: int)
    requires windowMs >= 1 && limit >= 1 && Ordered(requests)
    requires |decisions| == |requests| == |Play(requests, limit, windowMs).replies|
    requires forall i :: 0 <= i < |decisions| ==> decisions[i] == ToDecision(Play(requests, limit, windowMs).replies[i])
    ensures AllTruthful(decisions, requests, limit, windowMs)
    decreases |requests|
  {
    if requests != [] {
      var n := |requests| - 1;
      assert requests[..n + 1] == requests;
      DecisionIsTruthful(requests, n, limit, windowMs);
      OrderedPrefix(requests, n);
      DecisionsAreTruthful(requests[..n], decisions[..n], limit, windowMs);
      forall i | 0 <= i < n
        ensures Truthful(decisions[i], requests, i, limit, windowMs)
      {
        assert Truthful(decisions[..n][i], requests[..n], i, limit, windowMs);
        TruthfulOfPrefix(decisions[i], requests, n, i, limit, windowMs);
      }
    }
  }

  /** How many of the first decisions allow a request made in the half-open interval. */
  function AllowedIn(requests: seq<Request>, decisions: seq<Decision>, a: int, b: int): nat
    requires |decisions| == |requests|
  {
    if requests == [] then 0
    else
      var n := |requests| - 1;
      AllowedIn(requests[..n], decisions[..n], a, b)
      + (if decisions[n].allowed && a <= requests[n].now < b then 1 else 0)
  }

  ghost predicate AllTruthful(decisions: seq<Decision>, requests: seq<Request>, limit: int, windowMs: int) {
    |decisions| == |requests|
    && forall i :: 0 <= i < |requests| ==> Truthful(decisions[i], requests, i, limit, windowMs)
  }

  lemma {:induction false} AllowedAreAdmitted(
      requests: seq<Request>, decisions: seq<Decision>, limit: int, windowMs: int, a: int, b: int)
    requires AllTruthful(decisions, requests, limit, windowMs)
    ensures AllowedIn(requests, decisions, a, b) == InInterval(Play(requests, limit, windowMs).admitted, a, b)
    decreases |requests|
  {
    if requests != [] {
      var n := |requests| - 1;
      forall i | 0 <= i < n
        ensures Truthful(decisions[..n][i], requests[..n], i, limit, windowMs)
      {
        TruthfulOfPrefix(decisions[i], requests, n, i, limit, windowMs);
      }
      AllowedAreAdmitted(requests[..n], decisions[..n], limit, windowMs, a, b);
      assert requests[..n + 1] == requests;
      assert Truthful(decisions[n], requests, n, limit, windowMs);
      AdmissionsGrow(requests, limit, windowMs);
    }
  }

  lemma {:induction false} AdmissionsGrow(requests: seq<Request>, limit: int, windowMs: int)
    requires requests != []
    ensures var n := |requests| - 1;
      var before, after := AdmittedBy(requests, n, limit, windowMs), Play(requests, limit, windowMs).admitted;
      after == before || (|after| == |before| + 1 && after[..|before|] == before)
  {
  }

  /** An interval that begins with a window and is as long takes in that window only. */
  lemma {:induction false} IntervalIsWindow(admitted: seq<Admission>, windowMs: int, i: nat, start: int)
    requires windowMs >= 1 && SpacedInv(admitted, windowMs)
    requires i < |admitted| && admitted[i].start == start
    ensures InInterval(admitted, start, start + windowMs) == InWindow(admitted, start)
  {
    forall k | 0 <= k < |admitted|
      ensures admitted[k].start == start <==> start <= admitted[k].time < start + windowMs
    {
      if k <= i {
        SpacedPair(admitted, windowMs, k, i);
      } else {
        SpacedPair(admitted, windowMs, i, k);
      }
      SpacedPair(admitted, windowMs, k, k);
    }
    SameCount(admitted, start, start + windowMs);
  }

  lemma {:induction false} SameCount(admitted: seq<Admission>, start: int, end: int)
    requires forall k :: 0 <= k < |admitted| ==> (admitted[k].start == start <==> start <= admitted[k].time < end)
    ensures InInterval(admitted, start, end) == InWindow(admitted, start)
    decreases |admitted|
  {
    if admitted != [] {
      SameCount(admitted[..|admitted| - 1], start, end);
    }
  }

  /** Truthful decisions keep both interval bounds. */
  lemma {:induction false} AllowedInIntervalAreBounded(
      requests: seq<Request>, decisions: seq<Decision>, limit: nat, windowMs: int, a: int)
    requires windowMs >= 1 && limit >= 1 && Ordered(requests) && AllTruthful(decisions, requests, limit, windowMs)
    ensures AllowedIn(requests, decisions, a, a + windowMs) <= 2 * limit - 1
    ensures AllowedIn(requests, decisions, a, a + windowMs + 1) <= 2 * limit
  {
    AllowedAreAdmitted(requests, decisions, limit, windowMs, a, a + windowMs);
    AllowedAreAdmitted(requests, decisions, limit, windowMs, a, a + windowMs + 1);
    IntervalAdmitsUnderTwiceLimit(requests, limit, windowMs, a);
  }

  lemma {:induction false} AdmissionsAreSpaced(requests: seq<Request>, limit: int, windowMs: int)
    requires windowMs >= 1 && Ordered(requests)
    ensures SpacedInv(Play(requests, limit, windowMs).admitted, windowMs)
  {
    PlayInv(requests, limit, windowMs);
  }

  /** Some admission of the history opened or joined the window that starts at `start`. */
  ghost predicate HasWindow(requests: seq<Request>, limit: int, windowMs: int, start: int) {
    exists i :: 0 <= i < |Play(requests, limit, windowMs).admitted|
      && Play(requests, limit, windowMs).admitted[i].start == start
  }

  lemma {:induction false} WindowTakesAtMostLimit(requests: seq<Request>, limit: nat, windowMs: int, start: int)
    requires windowMs >= 1 && Ordered(requests) && HasWindow(requests, limit, windowMs, start)
    ensures InInterval(Play(requests, limit, windowMs).admitted, start, start + windowMs) <= limit
  {
    var admitted := Play(requests, limit, windowMs).admitted;
    var i :| 0 <= i < |admitted| && admitted[i].start == start;
    AdmissionsAreSpaced(requests, limit, windowMs);
    IntervalIsWindow(admitted, windowMs, i, start);
    WindowAdmitsAtMostLimit(requests, limit, windowMs, start);
  }

  /** And they allow no more than the limit from the start of a window to its end. */
  lemma {:induction false} AllowedInWindowAreBounded(
      requests: seq<Request>, decisions: seq<Decision>, limit: nat, windowMs: int, start: int)
    requires windowMs >= 1 && Ordered(requests) && AllTruthful(decisions, requests, limit, windowMs)
    requires HasWindow(requests, limit, windowMs, start)
    ensures AllowedIn(requests, decisions, start, start + windowMs) <= limit
  {
    AllowedAreAdmitted(requests, decisions, limit, windowMs, start, start + windowMs);
    WindowTakesAtMostLimit(requests, limit, windowMs, start);
  }

  // ---- a history run on the store ----

  /** Serves a history of requests through the store, dropping an expired key where the
      server does: the decisions are the replies of the history. */
  method ServeHistory(requests: seq<Request>, limit: int, windowSeconds: int) returns (decisions: seq<Decision>)
    ensures |decisions| == |requests| == |Play(requests, limit, windowSeconds * 1000).replies|
    ensures forall i :: 0 <= i < |decisions| ==>
      decisions[i] == ToDecision(Play(requests, limit, windowSeconds * 1000).replies[i])
    ensures Ordered(requests) && limit >= 1 && windowSeconds >= 1 ==>
      AllTruthful(decisions, requests, limit, windowSeconds * 1000)
  {
    var store := new WindowStore();
    var windowMs := windowSeconds * 1000;
    decisions := [];
    for i := 0 to |requests|
      invariant fresh(store) && store.key == Play(requests[..i], limit, windowMs).key
      invariant |decisions| == i == |Play(requests[..i], limit, windowMs).replies|
      invariant forall k :: 0 <= k < i ==> decisions[k] == ToDecision(Play(requests[..i], limit, windowMs).replies[k])
    {
      assert requests[..i + 1] == requests[..i] + [requests[i]];
      PlayOneMore(requests[..i], requests[i], limit, windowMs);
      store.Evict(requests[i].evict, requests[i].now);
      var d := store.Check(requests[i].now, limit, windowSeconds);
      decisions := decisions + [d];
    }
    assert requests[..|requests|] == requests;
    if Ordered(requests) && limit >= 1 && windowSeconds >= 1 {
      DecisionsAreTruthful(requests, decisions, limit, windowMs);
    }
  }
}
