/** The Redis stream, its consumer group and the dead-letter script
    (apps/gateway/internal/redis/go_redis_reader.go, apps/gateway/internal/redis/reader.go).

    Message ids are positions in the stream; times are milliseconds of a monotone clock. */
module StreamGroup {
  import opened Wrappers
  import opened RuntimeBus

  const BASE_IDLE: nat := 5000
  const MAX_DELIVERIES: nat := 3
  const BATCH_SIZE: nat := 32
  const RETRY_EXHAUSTED := "RUNTIME_EVENT_PROJECTION_RETRY_EXHAUSTED"

  /** A stream message: whether its outer schema version matches, its decoded payload, and whether the
      routing fields agree with it. */
  datatype Message = Message(schemaOk: bool, envelope: Option<Event>, routingOk: bool)

  /** The decoder's error code, "" when the delivery is valid. */
  function ErrorCode(m: Message): string {
    if !m.schemaOk then "RUNTIME_EVENT_SCHEMA_MISMATCH"
    else if m.envelope == None then "RUNTIME_EVENT_MALFORMED"
    else if !m.routingOk then "RUNTIME_EVENT_ROUTING_MISMATCH"
    else ""
  }

  predicate Valid(m: Message) {
    m.schemaOk && m.envelope.Some? && m.routingOk
  }

  /** One pending-list entry. `waited` is a history: the sum of the idle times its claims required. */
  datatype Entry = Entry(owner: nat, since: nat, count: nat, waited: nat)

  datatype Record = Record(message: nat, count: nat, reclaimed: bool, code: string, at: nat)

  datatype Server = Server(
    stream: seq<Message>, grouped: bool, last: nat, pel: map<nat, Entry>, dead: seq<Record>, keys: set<nat>, now: nat)

  const NEW_SERVER := Server([], false, 0, map[], [], {}, 0)

  function Min(a: int, b: int): int {
    if a < b then a else b
  }

  /** runtimeEventRetryIdle. */
  function RetryIdle(base: int, deliveries: int): int {
    var b := if base <= 0 then 5000 else base;
    var exponent := if deliveries - 1 < 0 then 0 else if deliveries - 1 > 2 then 2 else deliveries - 1;
    b * (if exponent == 0 then 1 else if exponent == 1 then 2 else 4)
  }

  function CreateGroup(s: Server): Server {
    if s.grouped then s else s.(grouped := true, last := 0, pel := map[])
  }

  function DropGroup(s: Server): Server {
    s.(grouped := false, last := 0, pel := map[])
  }

  /** The map that sends every id from `lo` up to `hi` to `v`. */
  function Between<T>(lo: nat, hi: nat, v: T): (m: map<nat, T>)
    ensures forall id :: id in m <==> lo <= id < hi
    ensures forall id <- m :: m[id] == v
    decreases hi - lo
  {
    if lo >= hi then map[] else Between(lo + 1, hi, v)[lo := v]
  }

  /** XREADGROUP with ">": the next `n` undelivered messages become pending for `owner`. */
  function ReadGroup(s: Server, owner: nat, n: nat): Server {
    var next := Min(s.last + n, |s.stream|);
    if !s.grouped || next <= s.last then s
    else s.(last := next, pel := s.pel + Between(s.last, next, Entry(owner, s.now, 1, 0)))
  }

  predicate Claimable(s: Server, id: nat, minIdle: nat) {
    s.grouped && id in s.pel && s.now - s.pel[id].since >= minIdle
  }

  /** XCLAIM: the entry changes owner, its idle clock restarts, its delivery count grows. */
  function Claim(s: Server, owner: nat, id: nat, minIdle: nat): Server {
    if !Claimable(s, id, minIdle) then s
    else s.(pel := s.pel[id := Entry(owner, s.now, s.pel[id].count + 1, s.pel[id].waited + minIdle)])
  }

  function Ack(s: Server, id: nat): Server {
    s.(pel := s.pel - {id})
  }

  /** The atomic dead-letter script. */
  function MoveToDeadLetter(s: Server, r: Record): Server {
    if r.message in s.keys then Ack(s, r.message)
    else Ack(s.(dead := s.dead + [r], keys := s.keys + {r.message}), r.message)
  }

  predicate DeadLettered(s: Server, id: nat) {
    exists r <- s.dead :: r.message == id
  }

  function RecordsOf(dead: seq<Record>, id: nat): nat {
    if dead == [] then 0
    else RecordsOf(dead[..|dead| - 1], id) + if dead[|dead| - 1].message == id then 1 else 0
  }

  /** Required idle times grow with the delivery count and stay between one and four times the base: once, twice and
      four times for the first, second and any later delivery. Without a base it is five seconds. */
  lemma RetryIdleBounds(base: int, d: int, e: int)
    requires base > 0 && d <= e
    ensures base <= RetryIdle(base, d) <= RetryIdle(base, e) <= 4 * base
    ensures RetryIdle(base, d) == if d <= 1 then base else if d == 2 then 2 * base else 4 * base
    ensures RetryIdle(-base, d) == RetryIdle(0, d) == RetryIdle(5000, d)
  {
  }

  lemma RecordsSnoc(dead: seq<Record>, r: Record, id: nat)
    ensures RecordsOf(dead + [r], id) == RecordsOf(dead, id) + if r.message == id then 1 else 0
  {
    assert (dead + [r])[..|dead + [r]| - 1] == dead;
  }
}
