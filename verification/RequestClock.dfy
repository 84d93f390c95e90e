/** Signed agent requests: the node's correction of its own clock, and the control
    plane's clock window and nonce reservation. Times are milliseconds. */
module RequestClock {
  import opened Options

  const MAXIMUM_CLOCK_SKEW_MS: int := 300_000
  const NONCE_RETENTION_MS: int := MAXIMUM_CLOCK_SKEW_MS + 60_000
  const MAXIMUM_I64: int := 0x7fff_ffff_ffff_ffff
  const MINIMUM_I64: int := -0x8000_0000_0000_0000

  function Absolute(x: int): nat {
    if x < 0 then -x else x
  }

  // ---------------------------------------------------------------- the node

  /** The parsed time headers of a response: the control plane's own, and `Date`. */
  datatype Headers = Headers(serverTime: Option<int>, date: Option<int>)

  function ServerTime(headers: Headers): Option<int> {
    if headers.serverTime.Some? then headers.serverTime else headers.date
  }

  function SaturatingAdd(a: int, b: int): int {
    if a + b > MAXIMUM_I64 then MAXIMUM_I64 else if a + b < MINIMUM_I64 then MINIMUM_I64 else a + b
  }

  function OffsetAfter(offset: int, headers: Headers, now: int): int {
    if ServerTime(headers).Some? then ServerTime(headers).value - now else offset
  }

  /** A response: when the control plane sent it, how long it travelled, and which of the
      two headers survived. `Date` has a resolution of one second. */
  datatype Response = Response(sentAt: nat, transit: nat, hasServerTime: bool, hasDate: bool)

  function HeadersOf(r: Response): Headers {
    Headers(if r.hasServerTime then Some(r.sentAt) else None,
            if r.hasDate then Some(r.sentAt / 1000 * 1000) else None)
  }

  predicate Dated(r: Response) {
    r.hasServerTime || r.hasDate
  }

  /** The offset of a node whose clock runs `drift` ahead, after a history of responses. */
  function Offset(drift: int, responses: seq<Response>): int {
    if responses == [] then 0
    else
      var last := responses[|responses| - 1];
      OffsetAfter(Offset(drift, responses[..|responses| - 1]), HeadersOf(last), last.sentAt + last.transit + drift)
  }

  /** The most recent response that carried a clock. */
  function LastDated(responses: seq<Response>): Option<Response> {
    if responses == [] then None
    else if Dated(responses[|responses| - 1]) then Some(responses[|responses| - 1])
    else LastDated(responses[..|responses| - 1])
  }

  /** What the header leaves out of the sending time. */
  function Rounding(r: Response): (ms: nat)
    ensures ms < 1000
  {
    if r.hasServerTime then 0 else r.sentAt % 1000
  }

  lemma {:induction false} OffsetFromLastDated(drift: int, responses: seq<Response>)
    ensures var last := LastDated(responses);
      Offset(drift, responses) == if last.None? then 0 else -drift - last.value.transit - Rounding(last.value)
  {
    if responses != [] {
      OffsetFromLastDated(drift, responses[..|responses| - 1]);
    }
  }

  /** What the control plane subtracts: its clock on arrival less the signed timestamp. */
  function Skew(drift: int, responses: seq<Response>, signedAt: int, transit: nat): int {
    signedAt + transit - SaturatingAdd(signedAt + drift, Offset(drift, responses))
  }

  /** Whatever the drift, after one dated response the skew of a request is what the
      response and the request spent travelling, plus less than a second when only `Date`
      was there to go by. */
  lemma CorrectedSkew(drift: int, responses: seq<Response>, signedAt: int, transit: nat)
    requires LastDated(responses).Some?
    requires MINIMUM_I64 <= signedAt + drift + Offset(drift, responses) <= MAXIMUM_I64
    ensures var last := LastDated(responses).value;
      && Skew(drift, responses, signedAt, transit) == last.transit + transit + Rounding(last)
      && (InWindow(Skew(drift, responses, signedAt, transit))
          <==> last.transit + transit + Rounding(last) <= MAXIMUM_CLOCK_SKEW_MS)
  {
    OffsetFromLastDated(drift, responses);
  }

  predicate InWindow(skew: int) {
    Absolute(skew) <= MAXIMUM_CLOCK_SKEW_MS
  }

  /** The node's estimate of the control plane's clock. Its own clock runs `drift` ahead. */
  class ServerClock {
    var offset: int
    ghost const drift: int
    ghost var responses: seq<Response>

    constructor (ghost drift: int)
      ensures Valid() && this.drift == drift && responses == []
    {
      offset, responses := 0, [];
      this.drift := drift;
    }

    /** The offset is what the responses seen so far call for. */
    ghost predicate Valid()
      reads this
    {
      offset == Offset(drift, responses)
    }

    /** A response arrives; `now` is the node's clock at that moment. */
    method Observe(headers: Headers, now: int, ghost r: Response)
      requires Valid() && headers == HeadersOf(r) && now == r.sentAt + r.transit + drift
      modifies this
      ensures Valid() && responses == old(responses) + [r]
    {
      assert (responses + [r])[..|responses|] == responses;
      responses := responses + [r];
      var server := ServerTime(headers);
      if server.None? { return; }
      offset := server.value - now;
    }

    /** After a dated response, a request signed now and under way for `transit` arrives
        with a skew of nothing but travel time and rounding, whatever the drift. */
    method SigningTimestamp(now: int, ghost transit: nat) returns (timestamp: int)
      requires Valid()
      ensures MINIMUM_I64 <= timestamp <= MAXIMUM_I64
      ensures now + offset > MAXIMUM_I64 ==> timestamp == MAXIMUM_I64
      ensures now + offset < MINIMUM_I64 ==> timestamp == MINIMUM_I64
      ensures LastDated(responses).None? && MINIMUM_I64 <= now <= MAXIMUM_I64 ==> timestamp == now
      ensures LastDated(responses).Some? && MINIMUM_I64 <= now + offset <= MAXIMUM_I64 ==>
        var last, arrival := LastDated(responses).value, now - drift + transit;
        && arrival - timestamp == last.transit + transit + Rounding(last)
        && (InWindow(arrival - timestamp) <==> last.transit + transit + Rounding(last) <= MAXIMUM_CLOCK_SKEW_MS)
    {
      OffsetFromLastDated(drift, responses);
      timestamp := SaturatingAdd(now, offset);
    }
  }

  // ---------------------------------------------------------------- the control plane

  type Agent = nat
  type Nonce = string

  /** A signed request as it is handled: the clock is read for the skew check, again for
      the reservation's expiry, and by the database when the reservation is stored. */
  datatype Attempt = Attempt(agent: Agent, nonce: Nonce, timestamp: int, checkedAt: int, expiryFrom: int, storedAt: int)

  datatype Refusal = StaleRequest | InvalidNonce | InvalidSignature | Replayed

  /** Reserved nonces with their expiry. */
  type Reservations = map<(Agent, Nonce), int>

  function KeyOf(a: Attempt): (Agent, Nonce) {
    (a.agent, a.nonce)
  }

  predicate Free(table: Reservations, key: (Agent, Nonce), now: int) {
    key in table ==> table[key] <= now
  }

  /** Whether a request with a valid signature is accepted. */
  predicate Accepts(table: Reservations, a: Attempt) {
    InWindow(a.checkedAt - a.timestamp) && 16 <= |a.nonce| <= 128 && Free(table, KeyOf(a), a.storedAt)
  }

  /** A handled request, or the sweep of expired reservations. */
  datatype Event = Handled(attempt: Attempt) | Swept(at: int)

  function TimeOf(e: Event): int {
    if e.Handled? then e.attempt.storedAt else e.at
  }

  function Next(table: Reservations, e: Event): Reservations {
    match e
    case Handled(a) => if Accepts(table, a) then table[KeyOf(a) := a.expiryFrom + NONCE_RETENTION_MS] else table
    case Swept(at) => map key | key in table && table[key] > at :: table[key]
  }

  function After(events: seq<Event>): Reservations {
    if events == [] then map[] else Next(After(events[..|events| - 1]), events[|events| - 1])
  }

  /** The database's clock does not run backwards. */
  predicate InOrder(events: seq<Event>) {
    forall i, j | 0 <= i < j < |events| :: TimeOf(events[i]) <= TimeOf(events[j])
  }

  predicate AcceptedAt(events: seq<Event>, i: nat)
    requires i < |events|
  {
    events[i].Handled? && Accepts(After(events[..i]), events[i].attempt)
  }

  /** Once accepted, a nonce is reserved for as long as its retention lasts. */
  lemma {:induction false} ReservedUntil(events: seq<Event>, i: nat, n: nat)
    requires i < n <= |events| && InOrder(events) && AcceptedAt(events, i)
    ensures var until, key := events[i].attempt.expiryFrom + NONCE_RETENTION_MS, KeyOf(events[i].attempt);
      (key in After(events[..n]) && After(events[..n])[key] >= until) || TimeOf(events[n - 1]) >= until
  {
    assert events[..n][..n - 1] == events[..n - 1];
    if n > i + 1 {
      ReservedUntil(events, i, n - 1);
      assert TimeOf(events[n - 2]) <= TimeOf(events[n - 1]);
    }
  }

  /** A request accepted twice was dated ahead of the clock, or was stalled between its
      clock check and its reservation, by a minute in all. */
  lemma AcceptedTwiceNeedsAMinute(events: seq<Event>, i: nat, j: nat)
    requires i < j < |events| && InOrder(events) && AcceptedAt(events, i) && AcceptedAt(events, j)
    requires KeyOf(events[i].attempt) == KeyOf(events[j].attempt) &&
      events[i].attempt.timestamp == events[j].attempt.timestamp
    ensures var first, second := events[i].attempt, events[j].attempt;
      (first.timestamp - first.expiryFrom) + (second.storedAt - second.checkedAt) >= 60_000
  {
    ReservedUntil(events, i, j);
    assert TimeOf(events[j - 1]) <= TimeOf(events[j]);
  }

  /** The control plane's table of reserved nonces. */
  class DeviceGate {
    var table: Reservations
    ghost var events: seq<Event>

    constructor ()
      ensures Valid() && events == []
    {
      table, events := map[], [];
    }

    /** The table is what the requests and sweeps so far have made of it. */
    ghost predicate Valid()
      reads this
    {
      table == After(events) && InOrder(events)
    }

    /** The database's clock has not passed `now` yet. */
    ghost predicate NotBefore(now: int)
      reads this
    {
      forall i | 0 <= i < |events| :: TimeOf(events[i]) <= now
    }

    /** `authenticate_agent_inner`; `signed` stands for the digest, key and signature
        checks. What it accepts was not accepted before, unless dating ahead and stalling
        make up a minute. */
    method Authenticate(a: Attempt, signed: bool) returns (refused: Option<Refusal>)
      requires Valid() && NotBefore(a.storedAt)
      modifies this
      ensures Valid()
      ensures refused.None? <==> signed && Accepts(old(table), a)
      ensures refused == Some(StaleRequest) <==> !(-300_000 <= a.checkedAt - a.timestamp <= 300_000)
      ensures refused == Some(InvalidNonce) <==>
        -300_000 <= a.checkedAt - a.timestamp <= 300_000 && !(16 <= |a.nonce| <= 128)
      ensures refused == Some(InvalidSignature) ==> !signed
      ensures refused == Some(Replayed) ==> KeyOf(a) in old(table) && old(table)[KeyOf(a)] > a.storedAt
      ensures refused.None? ==> table == old(table)[(a.agent, a.nonce) := a.expiryFrom + 360_000]
      ensures if refused.None? then events == old(events) + [Handled(a)]
        else events == old(events) && table == old(table)
      ensures refused.None? ==> forall i | 0 <= i < |old(events)| && SameRequest(old(events), i, a) ::
        (a.timestamp - old(events)[i].attempt.expiryFrom) + (a.storedAt - a.checkedAt) >= 60_000
    {
      var skew := a.checkedAt - a.timestamp;
      if Absolute(skew) > MAXIMUM_CLOCK_SKEW_MS { return Some(StaleRequest); }
      if |a.nonce| < 16 || |a.nonce| > 128 { return Some(InvalidNonce); }
      if !signed { return Some(InvalidSignature); }
      if KeyOf(a) in table && table[KeyOf(a)] > a.storedAt { return Some(Replayed); }
      assert (events + [Handled(a)])[..|events|] == events;
      events := events + [Handled(a)];
      table := table[KeyOf(a) := a.expiryFrom + NONCE_RETENTION_MS];
      refused := None;
      NotAcceptedBefore(events);
    }

    /** `purge_expired_authentication_state`, for nonces. */
    method Sweep(now: int)
      requires Valid() && NotBefore(now)
      modifies this
      ensures Valid() && events == old(events) + [Swept(now)]
      ensures forall key :: key in table <==> key in old(table) && old(table)[key] > now
    {
      assert (events + [Swept(now)])[..|events|] == events;
      events := events + [Swept(now)];
      table := map key | key in table && table[key] > now :: table[key];
    }
  }

  /** The request `a` was accepted as event `i`. */
  predicate SameRequest(events: seq<Event>, i: nat, a: Attempt)
    requires i < |events|
  {
    AcceptedAt(events, i) && KeyOf(events[i].attempt) == KeyOf(a) && events[i].attempt.timestamp == a.timestamp
  }

  /** The newest acceptance against every earlier one of the same request. */
  lemma NotAcceptedBefore(events: seq<Event>)
    requires events != [] && InOrder(events) && AcceptedAt(events, |events| - 1)
    ensures var before, a := events[..|events| - 1], events[|events| - 1].attempt;
      forall i | 0 <= i < |before| && SameRequest(before, i, a) ::
        (a.timestamp - before[i].attempt.expiryFrom) + (a.storedAt - a.checkedAt) >= 60_000
  {
    var before, a := events[..|events| - 1], events[|events| - 1].attempt;
    forall i | 0 <= i < |before| && SameRequest(before, i, a)
      ensures (a.timestamp - before[i].attempt.expiryFrom) + (a.storedAt - a.checkedAt) >= 60_000
    {
      assert before[..i] == events[..i];
      AcceptedTwiceNeedsAMinute(events, i, |events| - 1);
    }
  }

  /** A request handled without delay at `now`. */
  function Prompt(agent: Agent, nonce: Nonce, timestamp: int, now: int): Attempt {
    Attempt(agent, nonce, timestamp, now, now, now)
  }

  /** A request accepted without delay at `first` can be accepted again, by a server that
      stalls for at most `stall` between clock check and reservation, if and only if the
      time it was dated ahead and the stall make up a minute. */
  lemma ReplayableIff(agent: Agent, nonce: Nonce, timestamp: int, first: int, stall: nat)
    requires Accepts(map[], Prompt(agent, nonce, timestamp, first))
    ensures (exists checkedAt, storedAt ::
               && first <= checkedAt <= storedAt <= checkedAt + stall
               && AcceptedAfter(agent, nonce, timestamp, first, checkedAt, storedAt))
       <==> (timestamp - first) + stall >= 60_000
  {
    if (timestamp - first) + stall >= 60_000 {
      var checkedAt := timestamp + MAXIMUM_CLOCK_SKEW_MS;
      var free := first + NONCE_RETENTION_MS;
      assert AcceptedAfter(agent, nonce, timestamp, first, checkedAt, if free < checkedAt then checkedAt else free);
    }
  }

  predicate AcceptedAfter(agent: Agent, nonce: Nonce, timestamp: int, first: int, checkedAt: int, storedAt: int) {
    Accepts(Next(map[], Handled(Prompt(agent, nonce, timestamp, first))),
            Attempt(agent, nonce, timestamp, checkedAt, checkedAt, storedAt))
  }

  /** So a request of a corrected node, handled without delay, is accepted at most once. */
  lemma CorrectedRequestsAcceptedOnce(drift: int, responses: seq<Response>, signedAt: int, transit: nat,
      events: seq<Event>, i: nat, j: nat)
    requires LastDated(responses).Some?
    requires MINIMUM_I64 <= signedAt + drift + Offset(drift, responses) <= MAXIMUM_I64
    requires i < j < |events| && InOrder(events) && events[i].Handled? && events[j].Handled?
    requires var first, second := events[i].attempt, events[j].attempt;
      && KeyOf(first) == KeyOf(second) && first.timestamp == second.timestamp
      && first.timestamp == SaturatingAdd(signedAt + drift, Offset(drift, responses))
      && first.checkedAt == first.expiryFrom == first.storedAt == signedAt + transit
      && second.checkedAt == second.storedAt
    ensures !(AcceptedAt(events, i) && AcceptedAt(events, j))
  {
    CorrectedSkew(drift, responses, signedAt, transit);
    if AcceptedAt(events, i) && AcceptedAt(events, j) {
      AcceptedTwiceNeedsAMinute(events, i, j);
    }
  }
}
