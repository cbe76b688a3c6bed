/**
 The open build of the canister: the same two ticket tables as the
 role-gated build, with no organizer registry and no check on the caller
 anywhere. The current time and the identifier drawn from the uuid
 generator are parameters; an identifier must not have been issued before.
 */
module OpenProfile {
  import opened Tickets
  import opened Accounting

  class OpenLedger {
    /** `eventTicketStorage`: the listings, keyed by their id. */
    var listings: map<string, EventTicket>
    /** `ticketSoldStorage`: the sold-ticket records, keyed by their id. */
    var sold: map<string, TicketSold>
    /** Every identifier the uuid generator has handed out so far. */
    ghost var issued: set<string>

    ghost predicate Valid()
      reads this
    {
      LedgerInvariant(listings, sold, issued)
    }

    /** A freshly deployed canister holds no listing and no record. */
    constructor ()
      ensures Valid()
      ensures listings == map[] && sold == map[] && issued == {}
    {
      listings := map[];
      sold := map[];
      issued := {};
    }

    /** `getAllEventTickets`: every stored listing, each once. */
    function GetAllEventTickets(): (r: Result<set<EventTicket>>)
      requires Valid()
      reads this
      ensures r.Ok?
      ensures forall t :: t in r.value <==> t.id in listings && listings[t.id] == t
      ensures |r.value| == |listings|
    {
      ValuesOfKeyedListings(listings);
      Ok(listings.Values)
    }

    /** `getEventTicketById`: the stored listing, or an error when there is none. */
    function GetEventTicketById(id: string): (r: Result<EventTicket>)
      reads this
      ensures r.Ok? <==> id in listings
      ensures r.Ok? ==> r.value == listings[id]
      ensures r.Err? ==> r.error == TicketNotFound(id)
    {
      if id in listings then Ok(listings[id]) else Err(TicketNotFound(id))
    }

    /** `getTicketSoldById`: the stored record, or an error when there is none. */
    function GetTicketSoldById(id: string): (r: Result<TicketSold>)
      reads this
      ensures r.Ok? <==> id in sold
      ensures r.Ok? ==> r.value == sold[id]
      ensures r.Err? ==> r.error == SoldNotFound(id)
    {
      if id in sold then Ok(sold[id]) else Err(SoldNotFound(id))
    }

    /**
     `createEventTicket`: anyone stores a new listing under a new id, built
     from the payload, created now, with nothing sold; the listing returned
     is the one stored.
     */
    method CreateEventTicket(payload: EventTicketPayload, newId: string, now: nat)
      returns (r: Result<EventTicket>)
      requires Valid()
      requires newId !in issued
      modifies this
      ensures Valid()
      ensures r == Ok(NewListing(newId, payload, now))
      ensures newId !in old(listings) && listings == old(listings)[newId := r.value]
      ensures sold == old(sold) && issued == old(issued) + {newId}
    {
      var ticket := NewListing(newId, payload, now);
      InvariantAfterCreate(listings, sold, issued, ticket);
      issued := issued + {newId};
      listings := listings[ticket.id := ticket];
      r := Ok(ticket);
    }

    /**
     `deleteEventTicket`: anyone removes a listing and gets it back; the
     sold-ticket records naming it stay.
     */
    method DeleteEventTicket(id: string) returns (r: Result<EventTicket>)
      requires Valid()
      modifies this
      ensures Valid()
      ensures r.Ok? <==> id in old(listings)
      ensures r.Ok? ==> r.value == old(listings)[id]
      ensures r.Err? ==> r.error == CannotDelete(id)
      ensures listings == old(listings) - {id} && GetEventTicketById(id).Err?
      ensures sold == old(sold) && issued == old(issued)
    {
      if id in listings {
        r := Ok(listings[id]);
      } else {
        r := Err(CannotDelete(id));
      }
      InvariantAfterDelete(listings, sold, issued, id);
      listings := listings - {id};
    }

    /**
     `buyTicket`: anyone buys a stored listing. One record naming the
     listing is added under a new id, and that listing alone gets one more
     sale, updated now.
     */
    method BuyTicket(id: string, username: string, newId: string, now: nat)
      returns (r: Result<TicketSold>)
      requires Valid()
      requires newId !in issued
      modifies this
      ensures Valid()
      ensures id !in old(listings) ==> r == Err(BuyNotFound(id)) && unchanged(this)
      ensures id in old(listings) ==>
        && r == Ok(TicketSold(newId, id, username))
        && newId !in old(sold)
        && sold == old(sold)[newId := r.value]
        && listings == old(listings)[id := RecordSale(old(listings)[id], now)]
        && SoldCount(sold, id) == SoldCount(old(sold), id) + 1
        && issued == old(issued) + {newId}
    {
      var eventTicket := GetEventTicketById(id);
      if eventTicket.Err? {
        return Err(BuyNotFound(id));
      }
      var ticket := eventTicket.value;
      var newTicket := TicketSold(newId, ticket.id, username);
      InvariantAfterBuy(listings, sold, issued, id, newTicket, now);
      SoldCountAfterInsert(sold, newTicket, id);
      issued := issued + {newId};
      sold := sold[newTicket.id := newTicket];
      var updateEventTicket := RecordSale(ticket, now);
      listings := listings[updateEventTicket.id := updateEventTicket];
      r := Ok(newTicket);
    }

    /**
     `resellTIcket`: anyone renames the buyer of a stored record; the record
     keeps its id and its listing, and no listing changes.
     */
    method ResellTicket(id: string, username: string) returns (r: Result<TicketSold>)
      requires Valid()
      modifies this
      ensures Valid()
      ensures id !in old(sold) ==> r == Err(ResellNotFound(id)) && unchanged(this)
      ensures id in old(sold) ==>
        && r == Ok(TicketSold(id, old(sold)[id].eventTicketId, username))
        && sold == old(sold)[id := r.value]
      ensures listings == old(listings) && issued == old(issued)
    {
      var ticket := GetTicketSoldById(id);
      if ticket.Err? {
        return Err(ResellNotFound(id));
      }
      var newTicket := ticket.value.(username := username);
      InvariantAfterResell(listings, sold, issued, newTicket);
      sold := sold[newTicket.id := newTicket];
      r := Ok(newTicket);
    }
  }
}
