/**
 The role-gated canister: the ticket listings, the sold-ticket records and
 the organizer registry, with organizers (and the administrator) allowed to
 manage organizers and listings, and forbidden to buy. These are the intended
 rules: the administrator test is taken by value, as `Registry.IsOrganizer`
 explains; as written, the administrator gets none of these rights and may buy.

 The caller's identity and the current time, which the canister asks its
 runtime for, are parameters here; so is the identifier the canister draws
 from its uuid generator, which must not have been issued before.
 */
module RoleGated {
  import opened Tickets
  import opened Accounting
  import Registry

  class RoleGatedLedger {
    /** `eventTicketStorage`: the listings, keyed by their id. */
    var listings: map<string, EventTicket>
    /** `ticketSoldStorage`: the sold-ticket records, keyed by their id. */
    var sold: map<string, TicketSold>
    /** `eventOrganizers`: organizer identities, keyed by sequence number. */
    var organizers: map<nat, string>
    /** `organizerCount`: the last sequence number handed out. */
    var organizerCount: nat
    /** `eventAdmin`: fixed when the canister is initialised. */
    const admin: string
    /** Every identifier the uuid generator has handed out so far. */
    ghost var issued: set<string>

    ghost predicate Valid()
      reads this
    {
      && LedgerInvariant(listings, sold, issued)
      && (forall k :: k in organizers ==> 1 <= k <= organizerCount)
    }

    /** `init`: the administrator is set, every table is empty. */
    constructor (admin: string)
      ensures Valid()
      ensures this.admin == admin
      ensures listings == map[] && sold == map[] && organizers == map[] && organizerCount == 0
      ensures issued == {}
    {
      this.admin := admin;
      listings := map[];
      sold := map[];
      organizers := map[];
      organizerCount := 0;
      issued := {};
    }

    /** `getAllEventTickets`: every stored listing, each once. */
    function GetAllEventTickets(): (r: Result<set<EventTicket>>)
      requires Valid()
      reads this
      ensures r.Ok?
      ensures forall t :: t in r.value <==> t.id in listings && listings[t.id] == t
      ensures |r.value| == |listings|
    {
      ValuesOfKeyedListings(listings);
      Ok(listings.Values)
    }

    /** `getEventTicketById`: the stored listing, or an error when there is none. */
    function GetEventTicketById(id: string): (r: Result<EventTicket>)
      reads this
      ensures r.Ok? <==> id in listings
      ensures r.Ok? ==> r.value == listings[id]
      ensures r.Err? ==> r.error == TicketNotFound(id)
    {
      if id in listings then Ok(listings[id]) else Err(TicketNotFound(id))
    }

    /** `getTicketSoldById`: the stored record, or an error when there is none. */
    function GetTicketSoldById(id: string): (r: Result<TicketSold>)
      reads this
      ensures r.Ok? <==> id in sold
      ensures r.Ok? ==> r.value == sold[id]
      ensures r.Err? ==> r.error == SoldNotFound(id)
    {
      if id in sold then Ok(sold[id]) else Err(SoldNotFound(id))
    }

    /**
     `addOrganizer`: an organizer or the administrator registers a non-empty
     identity under the next sequence number, which is above every number
     handed out before; otherwise nothing changes.
     */
    method AddOrganizer(caller: string, org: string) returns (r: Result<string>)
      requires Valid()
      modifies this
      ensures Valid()
      ensures r.Ok? <==> org != "" && Registry.IsOrganizer(old(organizers), admin, caller)
      ensures r.Ok? ==>
        && r.value == "New organizer added successfully"
        && organizerCount == old(organizerCount) + 1
        && (forall k :: k in old(organizers) ==> k < organizerCount)
        && organizers == old(organizers)[organizerCount := org]
      ensures r.Err? ==> r.error == "Unable to add new Organizer" && unchanged(this)
      ensures listings == old(listings) && sold == old(sold) && issued == old(issued)
    {
      if org != "" && Registry.IsOrganizer(organizers, admin, caller) {
        organizerCount := organizerCount + 1;
        organizers := organizers[organizerCount := org];
        r := Ok("New organizer added successfully");
      } else {
        r := Err("Unable to add new Organizer");
      }
    }

    /**
     `deleteOrganizer`: an organizer or the administrator removes the entry
     under a sequence number. The counter is never lowered, so within one
     installation a number is never handed out twice.
     */
    method DeleteOrganizer(caller: string, id: nat) returns (r: Result<string>)
      requires Valid()
      modifies this
      ensures Valid()
      ensures !Registry.IsOrganizer(old(organizers), admin, caller) ==>
        r == Err("You dont have permissions to delete an organizer") && unchanged(this)
      ensures Registry.IsOrganizer(old(organizers), admin, caller) && id !in old(organizers) ==>
        r == Err("organizer cannot be deleted") && unchanged(this)
      ensures Registry.IsOrganizer(old(organizers), admin, caller) && id in old(organizers) ==>
        r == Ok("Organizer deleted successfully") && organizers == old(organizers) - {id}
      ensures organizerCount == old(organizerCount)
      ensures listings == old(listings) && sold == old(sold) && issued == old(issued)
    {
      if Registry.IsOrganizer(organizers, admin, caller) {
        if id in organizers {
          organizers := organizers - {id};
          r := Ok("Organizer deleted successfully");
        } else {
          r := Err("organizer cannot be deleted");
        }
      } else {
        r := Err("You dont have permissions to delete an organizer");
      }
    }

    /**
     `createEventTicket`: an organizer or the administrator stores a new
     listing under a new id, built from the payload, created now, with
     nothing sold; the listing returned is the one stored.
     */
    method CreateEventTicket(caller: string, payload: EventTicketPayload, newId: string, now: nat)
      returns (r: Result<EventTicket>)
      requires Valid()
      requires newId !in issued
      modifies this
      ensures Valid()
      ensures r.Ok? <==> Registry.IsOrganizer(organizers, admin, caller)
      ensures r.Ok? ==>
        && r.value == NewListing(newId, payload, now)
        && newId !in old(listings)
        && listings == old(listings)[newId := r.value]
        && issued == old(issued) + {newId}
      ensures r.Err? ==>
        r.error == "Only Event organizers or admins can create tickets" && unchanged(this)
      ensures sold == old(sold) && organizers == old(organizers) && organizerCount == old(organizerCount)
    {
      if !Registry.IsOrganizer(organizers, admin, caller) {
        return Err("Only Event organizers or admins can create tickets");
      }
      var ticket := NewListing(newId, payload, now);
      InvariantAfterCreate(listings, sold, issued, ticket);
      issued := issued + {newId};
      listings := listings[ticket.id := ticket];
      r := Ok(ticket);
    }

    /**
     `deleteEventTicket`: an organizer or the administrator removes a listing
     and gets it back; the sold-ticket records naming it stay.
     */
    method DeleteEventTicket(caller: string, id: string) returns (r: Result<EventTicket>)
      requires Valid()
      modifies this
      ensures Valid()
      ensures !Registry.IsOrganizer(organizers, admin, caller) ==>
        r == Err("You are not authorized to delete tickets") && unchanged(this)
      ensures Registry.IsOrganizer(organizers, admin, caller) ==>
        && (r.Ok? <==> id in old(listings))
        && (r.Ok? ==> r.value == old(listings)[id])
        && (r.Err? ==> r.error == CannotDelete(id))
        && listings == old(listings) - {id}
        && GetEventTicketById(id).Err?
      ensures sold == old(sold) && organizers == old(organizers) && organizerCount == old(organizerCount)
      ensures issued == old(issued)
    {
      if !Registry.IsOrganizer(organizers, admin, caller) {
        return Err("You are not authorized to delete tickets");
      }
      if id in listings {
        r := Ok(listings[id]);
      } else {
        r := Err(CannotDelete(id));
      }
      InvariantAfterDelete(listings, sold, issued, id);
      listings := listings - {id};
    }

    /**
     `buyTicket`: a caller who is neither organizer nor administrator buys
     a stored listing. One record naming the listing is added under a new
     id, and that listing alone gets one more sale, updated now.
     */
    method BuyTicket(caller: string, id: string, username: string, newId: string, now: nat)
      returns (r: Result<TicketSold>)
      requires Valid()
      requires newId !in issued
      modifies this
      ensures Valid()
      ensures Registry.IsOrganizer(organizers, admin, caller) ==>
        r == Err("Event organizers cannot buy their own tickets") && unchanged(this)
      ensures !Registry.IsOrganizer(organizers, admin, caller) && id !in old(listings) ==>
        r == Err(BuyNotFound(id)) && unchanged(this)
      ensures !Registry.IsOrganizer(organizers, admin, caller) && id in old(listings) ==>
        && r == Ok(TicketSold(newId, id, username))
        && newId !in old(sold)
        && sold == old(sold)[newId := r.value]
        && listings == old(listings)[id := RecordSale(old(listings)[id], now)]
        && SoldCount(sold, id) == SoldCount(old(sold), id) + 1
        && issued == old(issued) + {newId}
      ensures organizers == old(organizers) && organizerCount == old(organizerCount)
    {
      if Registry.IsOrganizer(organizers, admin, caller) {
        return Err("Event organizers cannot buy their own tickets");
      }
      var eventTicket := GetEventTicketById(id);
      if eventTicket.Err? {
        return Err(BuyNotFound(id));
      }
      var ticket := eventTicket.value;
      var newTicket := TicketSold(newId, ticket.id, username);
      InvariantAfterBuy(listings, sold, issued, id, newTicket, now);
      SoldCountAfterInsert(sold, newTicket, id);
      issued := issued + {newId};
      sold := sold[newTicket.id := newTicket];
      var updateEventTicket := RecordSale(ticket, now);
      listings := listings[updateEventTicket.id := updateEventTicket];
      r := Ok(newTicket);
    }

    /**
     `resellTIcket`: anyone renames the buyer of a stored record; the record
     keeps its id and its listing, and no listing changes.
     */
    method ResellTicket(id: string, username: string) returns (r: Result<TicketSold>)
      requires Valid()
      modifies this
      ensures Valid()
      ensures id !in old(sold) ==> r == Err(ResellNotFound(id)) && unchanged(this)
      ensures id in old(sold) ==>
        && r == Ok(TicketSold(id, old(sold)[id].eventTicketId, username))
        && sold == old(sold)[id := r.value]
      ensures listings == old(listings) && organizers == old(organizers)
      ensures organizerCount == old(organizerCount) && issued == old(issued)
    {
      var ticket := GetTicketSoldById(id);
      if ticket.Err? {
        return Err(ResellNotFound(id));
      }
      var newTicket := ticket.value.(username := username);
      InvariantAfterResell(listings, sold, issued, newTicket);
      sold := sold[newTicket.id := newTicket];
      r := Ok(newTicket);
    }
  }
}
