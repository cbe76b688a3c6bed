/**
 The bookkeeping the two ticket tables keep between them. A listing's
 `totalTicketSold` is bumped once per purchase and a purchase adds one
 sold-ticket record naming it, so as long as identifiers are never reused
 the counter equals the number of records that name the listing. The
 lemmas below show that every update the canister makes keeps this so.
 */
module Accounting {
  import opened Tickets

  /** The keys of the sold-ticket records that name listing `eventId`. */
  function SoldIdsFor(sold: map<string, TicketSold>, eventId: string): set<string>
  {
    set k | k in sold && sold[k].eventTicketId == eventId
  }

  /** How many sold-ticket records name listing `eventId`. */
  function SoldCount(sold: map<string, TicketSold>, eventId: string): nat
  {
    |SoldIdsFor(sold, eventId)|
  }

  /** Every stored listing's counter equals the number of records naming it. */
  ghost predicate Counted(listings: map<string, EventTicket>, sold: map<string, TicketSold>)
  {
    forall id :: id in listings ==> listings[id].totalTicketSold == SoldCount(sold, id)
  }

  /**
   The tables are keyed by the records' own ids, and every id stored
   anywhere, as a key or as a reference, was issued before.
   */
  ghost predicate WellKeyed(listings: map<string, EventTicket>, sold: map<string, TicketSold>, issued: set<string>)
  {
    && (forall id :: id in listings ==> listings[id].id == id && id in issued)
    && (forall id :: id in sold ==> sold[id].id == id && id in issued && sold[id].eventTicketId in issued)
  }

  /** The invariant both builds of the ledger keep. */
  ghost predicate LedgerInvariant(listings: map<string, EventTicket>, sold: map<string, TicketSold>, issued: set<string>)
  {
    WellKeyed(listings, sold, issued) && Counted(listings, sold)
  }

  /** A listing whose id was never issued has no sold-ticket record. */
  lemma {:induction false} NothingSoldForFresh(sold: map<string, TicketSold>, issued: set<string>, newId: string)
    requires forall id :: id in sold ==> sold[id].eventTicketId in issued
    requires newId !in issued
    ensures SoldCount(sold, newId) == 0
  {
  }

  /** Adding a record under a new key raises the count of the listing it names by one, and no other. */
  lemma {:induction false} SoldCountAfterInsert(sold: map<string, TicketSold>, rec: TicketSold, eventId: string)
    requires rec.id !in sold
    ensures SoldCount(sold[rec.id := rec], eventId)
         == SoldCount(sold, eventId) + (if rec.eventTicketId == eventId then 1 else 0)
  {
    var before, after := SoldIdsFor(sold, eventId), SoldIdsFor(sold[rec.id := rec], eventId);
    if rec.eventTicketId == eventId {
      assert after == before + {rec.id};
      assert rec.id !in before;
    } else {
      assert after == before;
    }
  }

  /** Overwriting a record with one that names the same listing changes no count. */
  lemma {:induction false} SoldCountAfterRelabel(sold: map<string, TicketSold>, rec: TicketSold, eventId: string)
    requires rec.id in sold && sold[rec.id].eventTicketId == rec.eventTicketId
    ensures SoldCount(sold[rec.id := rec], eventId) == SoldCount(sold, eventId)
  {
    assert SoldIdsFor(sold[rec.id := rec], eventId) == SoldIdsFor(sold, eventId);
  }

  /** Creating a listing under a never-issued id keeps the invariant. */
  lemma {:induction false} InvariantAfterCreate(
    listings: map<string, EventTicket>, sold: map<string, TicketSold>, issued: set<string>, t: EventTicket)
    requires LedgerInvariant(listings, sold, issued)
    requires t.id !in issued && t.totalTicketSold == 0
    ensures LedgerInvariant(listings[t.id := t], sold, issued + {t.id})
  {
    NothingSoldForFresh(sold, issued, t.id);
  }

  /** Removing a listing keeps the invariant; the records naming it stay behind. */
  lemma {:induction false} InvariantAfterDelete(
    listings: map<string, EventTicket>, sold: map<string, TicketSold>, issued: set<string>, id: string)
    requires LedgerInvariant(listings, sold, issued)
    ensures LedgerInvariant(listings - {id}, sold, issued)
  {
  }

  /**
   A purchase of stored listing `id`: a record under a never-issued key
   naming it, and the listing written back with one more sale.
   */
  lemma {:induction false} InvariantAfterBuy(
    listings: map<string, EventTicket>, sold: map<string, TicketSold>, issued: set<string>,
    id: string, rec: TicketSold, now: nat)
    requires LedgerInvariant(listings, sold, issued)
    requires id in listings && rec.id !in issued && rec.eventTicketId == id
    ensures LedgerInvariant(listings[id := RecordSale(listings[id], now)], sold[rec.id := rec], issued + {rec.id})
  {
    var listings', sold' := listings[id := RecordSale(listings[id], now)], sold[rec.id := rec];
    forall e | e in listings'
      ensures listings'[e].totalTicketSold == SoldCount(sold', e)
    {
      SoldCountAfterInsert(sold, rec, e);
    }
  }

  /** A resale that keeps the record's listing reference keeps the invariant. */
  lemma {:induction false} InvariantAfterResell(
    listings: map<string, EventTicket>, sold: map<string, TicketSold>, issued: set<string>, rec: TicketSold)
    requires LedgerInvariant(listings, sold, issued)
    requires rec.id in sold && sold[rec.id].eventTicketId == rec.eventTicketId
    ensures LedgerInvariant(listings, sold[rec.id := rec], issued)
  {
    forall e | e in listings
      ensures listings[e].totalTicketSold == SoldCount(sold[rec.id := rec], e)
    {
      SoldCountAfterRelabel(sold, rec, e);
    }
  }

  /**
   When every listing is stored under its own id, distinct keys hold
   distinct listings, so enumerating the values loses none of them.
   */
  lemma {:induction false} ValuesOfKeyedListings(listings: map<string, EventTicket>)
    requires forall id :: id in listings ==> listings[id].id == id
    ensures |listings.Values| == |listings|
    decreases |listings|
  {
    if listings != map[] {
      var k :| k in listings;
      var rest := listings - {k};
      ValuesOfKeyedListings(rest);
      forall v | v in listings.Values ensures v in rest.Values + {listings[k]} {
        var j :| j in listings && listings[j] == v;
        if j != k { assert rest[j] == v; }
      }
      assert listings.Values == rest.Values + {listings[k]};
      forall j | j in rest ensures rest[j] != listings[k] {
        assert rest[j].id == j && j != k;
      }
      assert listings[k] !in rest.Values;
    }
  }
}
