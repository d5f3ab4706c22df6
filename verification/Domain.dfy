/** The data held by Redis and PostgreSQL for seat reservation: hold keys, seat rows, order rows and
    the order stream with its consumer group. Identifiers are opaque; only their equality is used. */
module Domain {

  type Id = nat

  datatype Option<+T> = None | Some(value: T)

  datatype Seat = Seat(eventId: Id, seatId: Id)

  datatype SeatStatus = AVAILABLE | HELD | SOLD

  datatype OrderStatus = PROCESSING | BOOKED

  /** The value of a Redis hold key; the key lives while the Redis clock is below `expiresAt`. */
  datatype Hold = Hold(user: Id, holdId: Id, expiresAt: nat)

  /** An order row; the table is unique by hold id, so rows are stored in a map keyed by it. */
  datatype Order = Order(orderId: Id, seat: Seat, user: Id, expiresAt: nat, status: OrderStatus)

  /** The payload of one `order.created` stream entry. */
  datatype Entry = Entry(holdId: Id, orderId: Id, seat: Seat, user: Id, expiresAt: nat)

  /** The consumer group: entries below `start` existed when it was created, entries from `cursor` on
      were never delivered, and `pending` gives the last delivery time of each unacknowledged entry. */
  datatype Group =
    | NoGroup
    | Group(start: nat, cursor: nat, pending: map<nat, nat>, acked: set<nat>)

  /** `used`, `disclosed` and `flips` are history: the ids ever generated, the hold ids ever shown to a
      client, and how often a release moved a seat row from HELD back to AVAILABLE. */
  datatype Store = Store(
    clock: nat,
    holds: map<Seat, Hold>,
    events: set<Id>,
    seats: map<Seat, SeatStatus>,
    orders: map<Id, Order>,
    stream: seq<Entry>,
    group: Group,
    used: set<Id>,
    disclosed: set<Id>,
    flips: map<Seat, nat>)

  const HOLD_TTL_SECONDS: nat := 600
  const BATCH_SIZE: nat := 10
  const CLAIM_IDLE_MS: nat := 30_000
  const CLAIM_SCAN: nat := 100

  function Flips(s: Store, seat: Seat): nat {
    if seat in s.flips then s.flips[seat] else 0
  }

  predicate HasStatus(s: Store, seat: Seat, status: SeatStatus) {
    seat in s.seats && s.seats[seat] == status
  }

  predicate HoldLive(s: Store, seat: Seat) {
    seat in s.holds && s.clock < s.holds[seat].expiresAt
  }

  /** The hold `holdId` is the one that blocks `seat` at this moment. */
  predicate Holds(s: Store, seat: Seat, holdId: Id) {
    HoldLive(s, seat) && s.holds[seat].holdId == holdId
  }

  predicate Matches(e: Entry, o: Order) {
    e.orderId == o.orderId && e.seat == o.seat && e.user == o.user && e.expiresAt == o.expiresAt
  }
}
