/**
 The records kept by the event-ticket canister, the payload a listing is
 created from, and the result type its exposed functions return. Both
 builds of the canister (the role-gated one and the open one) share these.
 */
module Tickets {

  /** `Opt<nat64>` of the source: a timestamp that may be absent. */
  datatype Option<T> = None | Some(value: T)

  /** `Result<T, string>` of the source: a value or an error message. */
  datatype Result<T> = Ok(value: T) | Err(error: string)

  /** The price is copied from the payload and never computed on. */
  type Price = real

  /** A ticket listing (`EventTicket`). */
  datatype EventTicket = EventTicket(
    id: string,
    title: string,
    description: string,
    price: Price,
    totalTicketSold: nat,
    createdAt: nat,
    updatedAt: Option<nat>)

  /** One purchase of a listing (`TicketSold`); `eventTicketId` is a weak reference. */
  datatype TicketSold = TicketSold(id: string, eventTicketId: string, username: string)

  /** What a caller supplies to create a listing (`EventTicketPayload`). */
  datatype EventTicketPayload = EventTicketPayload(title: string, description: string, price: Price)

  /** The listing `createEventTicket` builds: fresh id, created now, nothing sold yet. */
  function NewListing(id: string, payload: EventTicketPayload, now: nat): EventTicket
  {
    EventTicket(id, payload.title, payload.description, payload.price, 0, now, None)
  }

  /** The listing as `buyTicket` writes it back: one more sale, updated now. */
  function RecordSale(t: EventTicket, now: nat): EventTicket
  {
    t.(totalTicketSold := t.totalTicketSold + 1, updatedAt := Some(now))
  }

  // The error messages of the exposed functions.

  function TicketNotFound(id: string): string { "event ticket with id=" + id + " not found" }
  function SoldNotFound(id: string): string { "ticket sold with id=" + id + " not found" }
  function CannotDelete(id: string): string { "couldn't delete ticket with id=" + id + ". Profile not found." }
  function BuyNotFound(id: string): string { "Event ticket with id=" + id + " not found." }
  function ResellNotFound(id: string): string { "ticket sold with id=" + id + " not found." }
}
