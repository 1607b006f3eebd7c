/**
  The per-socket rate limiter (tictactoe/rateLimiter.js): a fixed window of
  1000 ms per socket, at most 10 events per window, and smaller per-event
  limits for four event names. `Date.now()` is the parameter `now`.
*/
module RateLimit {
  import opened Wrappers

  type SocketId = string

  const WindowMs: int := 1000
  const GlobalLimit: nat := 10

  /** `SPECIFIC_LIMITS[e]`, with 0 standing for "no specific limit". */
  function SpecificLimit(e: string): nat
  {
    if e == "room:create" then 1
    else if e == "chat:msg" then 5
    else if e == "game:move" then 5
    else if e == "room:join" then 2
    else 0
  }

  /**
    The names every object inherits from `Object.prototype`. For these,
    `SPECIFIC_LIMITS[e]` is the inherited value, which is truthy, and
    `client.specificCounts[e]` is that same value, so the comparison on line 54
    holds: the event is refused and nothing is counted.
  */
  predicate Inherited(e: string)
  {
    e in {"constructor", "__defineGetter__", "__defineSetter__", "hasOwnProperty",
          "__lookupGetter__", "__lookupSetter__", "isPrototypeOf", "propertyIsEnumerable",
          "toString", "valueOf", "__proto__", "toLocaleString"}
  }

  /** One socket's window: its start, the events counted so far and the counts of limited events. */
  datatype Client = Client(windowStart: int, count: nat, specificCounts: map<string, nat>)

  function Fresh(now: int): Client
  {
    Client(now, 0, map[])
  }

  /** `client.specificCounts[e] || 0`. */
  function CountOf(c: Client, e: string): nat
  {
    if e in c.specificCounts then c.specificCounts[e] else 0
  }

  /** The socket's entry once a missing one is created and an expired window reset (lines 30-44). */
  function Opened(c: Option<Client>, now: int): (o: Client)
    ensures c.None? ==> o == Fresh(now)
    ensures c.Some? && now - c.value.windowStart > WindowMs ==> o == Fresh(now)
    ensures c.Some? && now - c.value.windowStart <= WindowMs ==> o == c.value
  {
    var c0 := if c.None? then Fresh(now) else c.value;
    if now - c0.windowStart > WindowMs then Fresh(now) else c0
  }

  /** The limits the model keeps: neither counter goes past its limit, and only limited events are counted. */
  predicate ClientOk(c: Client)
  {
    c.count <= GlobalLimit
    && forall e :: e in c.specificCounts ==> 0 < c.specificCounts[e] <= SpecificLimit(e)
  }

  /** What `check` decides for one socket, and that socket's entry afterwards. */
  function Step(c: Option<Client>, e: string, now: int): (r: (bool, Client))
    ensures var o := Opened(c, now);
      (r.0 <==> o.count < GlobalLimit && !Inherited(e) && (SpecificLimit(e) == 0 || CountOf(o, e) < SpecificLimit(e)))
      && (!r.0 ==> r.1 == o)
      && (r.0 ==> r.1.windowStart == o.windowStart && r.1.count == o.count + 1)
      && (r.0 && SpecificLimit(e) > 0 ==> r.1.specificCounts == o.specificCounts[e := CountOf(o, e) + 1])
      && (SpecificLimit(e) == 0 ==> r.1.specificCounts == o.specificCounts)
    ensures (c.None? || ClientOk(c.value)) ==> ClientOk(r.1)
  {
    var o := Opened(c, now);
    if o.count >= GlobalLimit then (false, o)
    else if Inherited(e) then (false, o)
    else
      var lim := SpecificLimit(e);
      if lim > 0 && CountOf(o, e) >= lim then (false, o)
      else
        var o' := if lim > 0 then o.(specificCounts := o.specificCounts[e := CountOf(o, e) + 1]) else o;
        (true, o'.(count := o.count + 1))
  }

  /** `check(socketId, eventName)` on the whole map: only the caller's entry can change. */
  function CheckAll(limits: map<SocketId, Client>, sid: SocketId, e: string, now: int): (r: (bool, map<SocketId, Client>))
    ensures sid in r.1 && (r.0, r.1[sid]) == Step(Get(limits, sid), e, now)
    ensures r.1.Keys == limits.Keys + {sid}
    ensures forall s :: s in limits && s != sid ==> r.1[s] == limits[s]
  {
    var st := Step(Get(limits, sid), e, now);
    (st.0, limits[sid := st.1])
  }

  /** Every entry of the map keeps the limits. */
  predicate LimitsOk(limits: map<SocketId, Client>)
  {
    forall s :: s in limits ==> ClientOk(limits[s])
  }

  lemma CheckKeepsLimits(limits: map<SocketId, Client>, sid: SocketId, e: string, now: int)
    requires LimitsOk(limits)
    ensures LimitsOk(CheckAll(limits, sid, e, now).1)
  {
    var r := CheckAll(limits, sid, e, now);
    forall s | s in r.1 ensures ClientOk(r.1[s]) {
      if s == sid {
        assert Get(limits, sid).None? || ClientOk(Get(limits, sid).value);
      }
    }
  }

  /** How many events `e` a fresh window admits: none for an inherited name, else its specific limit, else the global one. */
  function Limit(e: string): (n: nat)
    ensures n <= GlobalLimit
    ensures n == 0 <==> Inherited(e)
  {
    if Inherited(e) then 0 else if SpecificLimit(e) > 0 then SpecificLimit(e) else GlobalLimit
  }

  /** The entry after `k` admitted events `e` inside the window that started at `now`. */
  function After(e: string, start: int, k: nat): Client
  {
    if k == 0 then Fresh(start)
    else Client(start, k, if SpecificLimit(e) > 0 then map[e := k] else map[])
  }

  /** The verdicts of `n` consecutive checks of event `e` at the same instant. */
  function Burst(c: Option<Client>, e: string, now: int, n: nat): seq<bool>
    decreases n
  {
    if n == 0 then []
    else
      var r := Step(c, e, now);
      [r.0] + Burst(Some(r.1), e, now, n - 1)
  }

  function Repeat(b: bool, n: nat): (r: seq<bool>)
    ensures |r| == n && forall i :: 0 <= i < n ==> r[i] == b
  {
    if n == 0 then [] else [b] + Repeat(b, n - 1)
  }

  lemma AfterStep(e: string, now: int, start: int, k: nat)
    requires 0 <= now - start <= WindowMs && k <= Limit(e)
    ensures k < Limit(e) ==> Step(Some(After(e, start, k)), e, now) == (true, After(e, start, k + 1))
    ensures k == Limit(e) ==> Step(Some(After(e, start, k)), e, now) == (false, After(e, start, k))
  {
    if SpecificLimit(e) > 0 {
      if k == 0 {
        assert map[][e := 1] == map[e := 1];
      } else {
        assert map[e := k][e := k + 1] == map[e := k + 1];
      }
    }
  }

  lemma {:induction false} BurstFrom(e: string, now: int, start: int, k: nat, m: nat)
    requires 0 <= now - start <= WindowMs && k <= Limit(e)
    ensures Burst(Some(After(e, start, k)), e, now, Limit(e) - k + m) == Repeat(true, Limit(e) - k) + Repeat(false, m)
    decreases Limit(e) - k + m
  {
    var n := Limit(e) - k + m;
    if n > 0 {
      AfterStep(e, now, start, k);
      if k < Limit(e) {
        BurstFrom(e, now, start, k + 1, m);
        assert Repeat(true, Limit(e) - k) == [true] + Repeat(true, Limit(e) - (k + 1));
      } else {
        BurstFrom(e, now, start, k, m - 1);
      }
    }
  }

  /**
    A new socket sending `Limit(e) + m` events `e` within one window gets the
    first `Limit(e)` admitted and the other `m` refused: for `chat:msg`, 5 of
    20 pass.
  */
  lemma BurstFromNewSocket(e: string, now: int, m: nat)
    ensures Burst(None, e, now, Limit(e) + m) == Repeat(true, Limit(e)) + Repeat(false, m)
  {
    if Inherited(e) {
      FirstStepFresh(e, now);
      if m > 0 {
        assert Burst(None, e, now, m) == [false] + Burst(Some(After(e, now, 0)), e, now, m - 1);
        BurstFrom(e, now, now, 0, m - 1);
      }
    } else {
      FirstStepCounted(e, now, m);
    }
  }

  /** A socket with no entry is checked as if it had a fresh one. */
  lemma FirstStepFresh(e: string, now: int)
    ensures Step(None, e, now) == Step(Some(After(e, now, 0)), e, now)
    ensures Step(None, e, now).0 <==> !Inherited(e)
  {
    assert Opened(None, now) == Opened(Some(Fresh(now)), now);
    AfterStep(e, now, now, 0);
  }

  lemma FirstStepCounted(e: string, now: int, m: nat)
    requires !Inherited(e)
    ensures Burst(None, e, now, Limit(e) + m) == Repeat(true, Limit(e)) + Repeat(false, m)
  {
    FirstStepFresh(e, now);
    AfterStep(e, now, now, 0);
    assert Burst(None, e, now, Limit(e) + m) == [true] + Burst(Some(After(e, now, 1)), e, now, Limit(e) + m - 1);
    BurstFrom(e, now, now, 1, m);
    assert Repeat(true, Limit(e)) == [true] + Repeat(true, Limit(e) - 1);
  }

  /**
    Once more than a window has elapsed the counters restart, so the call is
    admitted and counted alone, unless its name is inherited.
  */
  lemma ExpiredWindowAdmits(c: Client, e: string, now: int)
    requires now - c.windowStart > WindowMs
    ensures !Inherited(e) ==> Step(Some(c), e, now) == (true, After(e, now, 1))
    ensures Inherited(e) ==> Step(Some(c), e, now) == (false, Fresh(now))
  {
    AfterStep(e, now, now, 0);
  }

  /** At exactly `WINDOW_MS` elapsed the window is still open: nothing is reset. */
  lemma BoundaryKeepsWindow(c: Client, e: string)
    ensures Opened(Some(c), c.windowStart + WindowMs) == c
  {
  }

  /**
    After `cleanup(id)` the next `check(id)` opens a new window at zero,
    whatever the earlier entry held: the call is admitted and counted alone,
    unless its name is inherited.
  */
  lemma CleanupRestarts(limits: map<SocketId, Client>, sid: SocketId, e: string, now: int)
    ensures !Inherited(e) ==> CheckAll(limits - {sid}, sid, e, now).0
    ensures !Inherited(e) ==> CheckAll(limits - {sid}, sid, e, now).1[sid] == After(e, now, 1)
    ensures Inherited(e) ==> CheckAll(limits - {sid}, sid, e, now) == (false, (limits - {sid})[sid := Fresh(now)])
  {
    AfterStep(e, now, now, 0);
    assert Get(limits - {sid}, sid) == None;
  }

  /** The limiter object: its one field is the `clientLimits` map. */
  class RateLimiter {
    var clientLimits: map<SocketId, Client>

    constructor()
      ensures clientLimits == map[]
    {
      clientLimits := map[];
    }

    /** `check(socketId, eventName)`, mutating the caller's entry in place. */
    method Check(sid: SocketId, e: string, now: int) returns (ok: bool)
      modifies this
      ensures (ok, clientLimits) == CheckAll(old(clientLimits), sid, e, now)
    {
      var client := Open(sid, now);
      if client.count >= GlobalLimit {
        return false;
      }
      if Inherited(e) {
        return false;
      }
      var limit := SpecificLimit(e);
      if limit > 0 {
        var current := CountOf(client, e);
        if current >= limit {
          return false;
        }
        client := client.(specificCounts := client.specificCounts[e := current + 1]);
      }
      client := client.(count := client.count + 1);
      clientLimits := clientLimits[sid := client];
      assert clientLimits == old(clientLimits)[sid := client];
      return true;
    }

    /** Lines 30-44: the caller's entry, created if missing and reset if its window expired. */
    method Open(sid: SocketId, now: int) returns (client: Client)
      modifies this
      ensures client == Opened(Get(old(clientLimits), sid), now)
      ensures clientLimits == old(clientLimits)[sid := client]
    {
      if sid in clientLimits {
        client := clientLimits[sid];
      } else {
        client := Fresh(now);
        clientLimits := clientLimits[sid := client];
      }
      if now - client.windowStart > WindowMs {
        client := Fresh(now);
        clientLimits := clientLimits[sid := client];
      }
    }

    /** `cleanup(socketId)`: drops that socket's entry and no other. */
    method Cleanup(sid: SocketId)
      modifies this
      ensures clientLimits == old(clientLimits) - {sid}
    {
      clientLimits := clientLimits - {sid};
    }
  }
}
