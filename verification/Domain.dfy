/** Market-data events and the order in which the runners merge them. */
module Domain {

  datatype Option<+T> = None | Some(value: T)

  datatype Side = Ask | Bid | NoSide

  datatype Action = Add | Modify | Cancel | Clear | Trade | Fill | NoAction

  // The largest 64-bit signed value marks an undefined price.
  const UNDEFINED_PRICE: int := 0x7FFF_FFFF_FFFF_FFFF

  /** One market-data event. Receive and event timestamps and the line number are only printed and
      are not part of the model. */
  datatype Event = Event(
    timestamp: nat,
    orderId: nat,
    side: Side,
    price: int,
    size: nat,
    action: Action,
    instrumentId: nat,
    fileId: nat,
    sequence: nat)

  function Min(a: nat, b: nat): (m: nat)
    ensures m <= a && m <= b
  {
    if a <= b then a else b
  }

  predicate ActiveSide(side: Side) {
    side == Bid || side == Ask
  }

  /** The event describes an order that can rest in a book. */
  predicate ValidResting(e: Event) {
    e.orderId != 0 && ActiveSide(e.side) && e.price != UNDEFINED_PRICE && e.size > 0
  }

  /** Lexicographic order on (timestamp, source file, source sequence). */
  predicate ComesBefore(a: Event, b: Event) {
    || a.timestamp < b.timestamp
    || (a.timestamp == b.timestamp
        && (a.fileId < b.fileId || (a.fileId == b.fileId && a.sequence < b.sequence)))
  }
}
