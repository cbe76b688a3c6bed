/**
 Clients of the two ledgers: a freshly installed canister driven through a
 whole lifetime of one listing, using only the contracts of the operations.
 */
module Scenarios {
  import opened Tickets
  import opened Accounting
  import RoleGated
  import OpenProfile

  /**
   The administrator registers an organizer, the organizer lists an event,
   a buyer who is neither buys a ticket and resells it, and the organizer
   deletes the listing; the sold-ticket record outlives it.
   */
  method RoleGatedLifetime(admin: string, organizer: string, buyer: string, now: nat)
    returns (sale: Result<TicketSold>, resale: Result<TicketSold>, orphan: Result<TicketSold>)
    requires organizer != "" && buyer != admin && buyer != organizer
    ensures sale == Ok(TicketSold("t2", "t1", "alice"))
    ensures resale == Ok(TicketSold("t2", "t1", "bob"))
    ensures orphan == Ok(TicketSold("t2", "t1", "bob"))
  {
    var ledger := new RoleGated.RoleGatedLedger(admin);
    var added := ledger.AddOrganizer(admin, organizer);
    assert ledger.organizers == map[1 := organizer] && ledger.organizers[1] == organizer;
    var listing := ledger.CreateEventTicket(organizer, EventTicketPayload("Concert", "Live", 50.0), "t1", now);
    sale := ledger.BuyTicket(buyer, "t1", "alice", "t2", now + 1);
    assert ledger.listings["t1"].totalTicketSold == 1;
    resale := ledger.ResellTicket("t2", "bob");
    assert ledger.organizers[1] == organizer;
    var deleted := ledger.DeleteEventTicket(organizer, "t1");
    assert deleted.Ok? && ledger.GetEventTicketById("t1").Err?;
    orphan := ledger.GetTicketSoldById("t2");
  }

  /** In the open build anyone lists, buys twice, and the counter follows the records. */
  method OpenLifetime(now: nat) returns (listing: Result<EventTicket>, count: nat)
    ensures listing.Ok? && listing.value.totalTicketSold == 2
    ensures count == 2
  {
    var ledger := new OpenProfile.OpenLedger();
    var created := ledger.CreateEventTicket(EventTicketPayload("Concert", "Live", 50.0), "t1", now);
    var first := ledger.BuyTicket("t1", "alice", "t2", now + 1);
    var second := ledger.BuyTicket("t1", "bob", "t3", now + 2);
    listing := ledger.GetEventTicketById("t1");
    count := SoldCount(ledger.sold, "t1");
  }
}
