/** The records of src/core/types.ts that delivery depends on. */
module Types {

  datatype Option<+T> = None | Some(value: T) {
    function GetOr(default: T): T {
      match this
      case Some(v) => v
      case None => default
    }
  }

  /** A UTF-16 code unit, which is what the code's lengths count. */
  newtype Unit = x: int | 0 <= x < 0x1_0000

  type Text = seq<Unit>

  /** The white space of JavaScript's `trim` and of `\s` in its patterns. */
  predicate IsSpace(u: int) {
    || 0x09 <= u <= 0x0D || u == 0x20 || u == 0xA0 || u == 0x1680 || 0x2000 <= u <= 0x200A
    || u == 0x2028 || u == 0x2029 || u == 0x202F || u == 0x205F || u == 0x3000 || u == 0xFEFF
  }

  type Session = string

  /** A channel id, named by its position in minting order. */
  type ChannelId = nat

  /** A message id, named by its position in minting order: `Object.keys` of the
      persisted messages lists them in exactly this order. */
  type MessageId = nat

  datatype Status = Pending | InFlight | Delivered | Failed | Rejected | Stale

  datatype MessageType = ReviewRequest | ReviewResponse | Manual | System | Unknown

  datatype Transport = PushTransport | SpawnTransport | PullTransport

  datatype Envelope = Envelope(
    channel: ChannelId,
    sender: Session,
    recipient: Session,
    timestamp: int,
    kind: MessageType,
    content: Text,
    replyTo: Option<MessageId>,
    root: Option<MessageId>,
    hop: nat,
    correlation: MessageId,
    status: Status,
    deliveredAt: Option<int>,
    attempts: nat,
    transport: Option<Transport>)

  datatype StalePolicy = Window(ms: Option<int>) | Never

  datatype DeliveryMode = Push | SpawnPush | Pull | Poll | ManagedThread | Unsupported

  datatype Member = Member(
    session: Session,
    role: string,
    stale: bool,
    api: bool,
    mode: DeliveryMode,
    policy: StalePolicy)

  datatype Timer = Timer(
    active: Option<Session>,
    started: Option<int>,
    elapsed: map<Session, int>,
    limit: Option<int>,
    limitMember: Option<Session>)

  datatype Lifecycle = Active | Saved | Deleted

  datatype Channel = Channel(
    lifecycle: Lifecycle,
    paused: bool,
    members: seq<Member>,
    maxMembers: int,
    createdAt: int,
    rateStart: int,
    rateCount: nat,
    rateLimit: nat,
    cooldownUntil: map<Session, int>,
    seen: map<(Session, Text), int>,
    maxHops: nat,
    cooldownMs: int,
    staleMs: int,
    timer: Timer,
    maxRuntime: Option<int>,
    maxDelivered: Option<int>,
    deliveredTotal: nat)

  /** The persisted state. `log` is every envelope ever minted, indexed by id, and `live`
      the ids still present in `state.messages`; a deleted envelope keeps its last value
      in `log`, which no operation reads. */
  datatype State = State(
    channels: map<ChannelId, Channel>,
    nextChannel: nat,
    log: seq<Envelope>,
    live: set<MessageId>,
    queues: map<Session, seq<MessageId>>,
    deliveredTo: map<MessageId, seq<Session>>)

  const RATE_WINDOW_MS := 60_000
  const MAX_PERSISTED_MESSAGES := 2_000
  const MAX_DELIVERY_ATTEMPTS := 5
  const MAX_CONTENT := 100_000
  const DEFAULT_COOLDOWN_MS := 1_000
  const DEFAULT_STALE_MS := 300_000

  /** `state.messages[id]` is defined. */
  predicate Has(s: State, id: MessageId) {
    id in s.live && id < |s.log|
  }

  /** `state.queues[r] ?? []`. */
  function QueueOf(s: State, r: Session): seq<MessageId> {
    if r in s.queues then s.queues[r] else []
  }

  function WithQueue(s: State, r: Session, q: seq<MessageId>): State {
    s.(queues := s.queues[r := q])
  }

  function WithEnvelope(s: State, id: MessageId, e: Envelope): State
    requires id < |s.log|
  {
    s.(log := s.log[id := e])
  }

  /** The part of an envelope that no operation rewrites. */
  function Identity(e: Envelope): Envelope {
    e.(status := Pending, deliveredAt := None, attempts := 0, transport := None)
  }
}
