# Event-ticket ledger, modelled in Dafny

This project models the ledger kept by the Internet Computer canister in
`src/index.ts`. The ledger holds ticket listings (`eventTicketStorage`), one
record per purchase (`ticketSoldStorage`) and a registry of event organizers
(`eventOrganizers` plus the sequence counter `organizerCount`). An
administrator is fixed when the canister is initialised. The intended rules
are these: organizers and the administrator may create and delete listings and
manage organizers, and they may not buy. The code applies these rules to
stored organizers only; for the administrator they do not hold as written (see
Findings). Anyone may look up listings and records, and anyone may resell a
record by renaming its buyer.

An earlier compiled build, `HACK_BECAUSE_OF_ALLOW_JS/index.js`, keeps only the
two ticket tables and checks no caller at all. It is modelled as a second
class over the same records.

Modules:

- `Scenarios` (`scenarios.dfy`) drives each ledger from a fresh install through a listing's lifetime, using only the operations' contracts.
- `Tickets` (`tickets.dfy`) holds the records `EventTicket`, `TicketSold` and
  `EventTicketPayload`, the `Result` type and the error messages.
- `Accounting` (`accounting.dfy`) holds the invariant both builds keep, with one
  preservation lemma per kind of update. Every table is keyed by its records'
  own ids, and every id was issued by the uuid generator. Most importantly, a
  listing's `totalTicketSold` equals the number of sold-ticket records that
  name it.
- `Registry` (`registry.dfy`) holds `isOrganizer`, both as intended and as
  written, and the consequence of the line-70 comparison (see Findings).
- `RoleGated` (`role_gated.dfy`) holds the class `RoleGatedLedger`: the
  role-gated canister with its four pieces of state as fields.
- `OpenProfile` (`open_ledger.dfy`) holds the class `OpenLedger`: the open build.

Some inputs come from the runtime or a library in the source. Here they are
parameters of each method:

- the caller's identity (`ic.caller()`);
- the current time (`ic.time()`);
- the identifier drawn from `uuidv4()`. A method that may use it requires that
  it is not in the ghost set `issued` of identifiers handed out so far.

## Model

| member | source | states |
|---|---|---|
| `Registry.IsOrganizer` | src/index.ts:64-74 | an identity passes exactly when it is the administrator or is stored under some sequence number, so the administrator always passes |
| `Registry.IsOrganizerAsWritten` | src/index.ts:66-73 | as the code evaluates it, only stored organizers pass, because the administrator test compares by reference |
| `Registry.AsWrittenDiffersOnlyOnAdmin` | src/index.ts:67-71 | the intended and as-written checks disagree exactly on an administrator who is not also a stored organizer |
| `Registry.AsWrittenRegistryStaysEmpty` | src/index.ts:66-99 | with the as-written check, from the initial empty registry, every sequence of `addOrganizer`/`deleteOrganizer` calls leaves the registry empty, and nobody ever passes `isOrganizer` |
| `RoleGated.RoleGatedLedger.constructor` | src/index.ts:42-61 | `init` fixes the administrator; listings, records and registry start empty, the counter starts at 0, and no identifier has been issued yet |
| `RoleGated.RoleGatedLedger.AddOrganizer` | src/index.ts:77-86 | succeeds exactly when `org` is non-empty and the caller is an organizer or the administrator; then the counter rises by one, and `org` is stored under the new count, which exceeds every key used before; on failure nothing changes; the ticket tables are untouched |
| `RoleGated.RoleGatedLedger.DeleteOrganizer` | src/index.ts:89-99 | a caller who is not an organizer gets the permission error and nothing changes; otherwise exactly the given key is removed, or an error is returned if it is absent; the counter never goes down |
| `RoleGated.RoleGatedLedger.GetAllEventTickets` | src/index.ts:102-106 | always Ok; holds exactly the stored listings, one per key |
| `RoleGated.RoleGatedLedger.CreateEventTicket` | src/index.ts:108-128 | a non-organizer gets an error and nothing changes; otherwise exactly one listing is added under the new id, with title, description and price from the payload, created now, not updated, nothing sold; the returned listing is the stored one; the invariant is kept |
| `RoleGated.RoleGatedLedger.GetEventTicketById` | src/index.ts:131-139 | Ok exactly when the id is stored, carrying the stored listing; otherwise the not-found message |
| `RoleGated.RoleGatedLedger.DeleteEventTicket` | src/index.ts:142-157 | a non-organizer gets an error and nothing changes; otherwise the listing is removed and returned, or an error is returned if absent; afterwards the lookup fails; sold-ticket records are untouched, so orphans remain |
| `RoleGated.RoleGatedLedger.GetTicketSoldById` | src/index.ts:160-168 | Ok exactly when the id is stored, carrying the stored record; otherwise the not-found message |
| `RoleGated.RoleGatedLedger.BuyTicket` | src/index.ts:171-209 | an organizer or the administrator (under the corrected check) is refused, and so is a missing listing, with no change; otherwise exactly one record is added under the new id, naming the listing and the given username; that listing alone gets one more sale, `updatedAt` = now, and its sold count rises by one; the registry is untouched |
| `RoleGated.RoleGatedLedger.ResellTicket` | src/index.ts:212-234 | a missing record gives an error and no change; otherwise only the record's username changes, keeping its id and listing; no caller check; listings untouched |
| `OpenProfile.OpenLedger.constructor` | HACK_BECAUSE_OF_ALLOW_JS/index.js:3-4 | both tables start empty and no identifier has been issued yet |
| `OpenProfile.OpenLedger.GetAllEventTickets` | HACK_BECAUSE_OF_ALLOW_JS/index.js:5-8 | always Ok; holds exactly the stored listings, one per key |
| `OpenProfile.OpenLedger.CreateEventTicket` | HACK_BECAUSE_OF_ALLOW_JS/index.js:9-20 | no caller check: always adds exactly one listing under the new id, with nothing sold and no update time, and returns it; records untouched; the invariant is kept |
| `OpenProfile.OpenLedger.GetEventTicketById` | HACK_BECAUSE_OF_ALLOW_JS/index.js:21-27 | Ok exactly when the id is stored, carrying the stored listing |
| `OpenProfile.OpenLedger.DeleteEventTicket` | HACK_BECAUSE_OF_ALLOW_JS/index.js:28-34 | no caller check: removes and returns the listing, or gives an error if absent; afterwards the lookup fails; records untouched |
| `OpenProfile.OpenLedger.GetTicketSoldById` | HACK_BECAUSE_OF_ALLOW_JS/index.js:35-41 | Ok exactly when the id is stored, carrying the stored record |
| `OpenProfile.OpenLedger.BuyTicket` | HACK_BECAUSE_OF_ALLOW_JS/index.js:42-62 | a missing listing gives an error and no change; otherwise exactly one record naming the listing is added under the new id, and that listing alone gets one more sale with `updatedAt` = now |
| `OpenProfile.OpenLedger.ResellTicket` | HACK_BECAUSE_OF_ALLOW_JS/index.js:63-75 | a missing record gives an error; otherwise only its username changes |
| `Scenarios.RoleGatedLifetime` | src/index.ts:79-234 | on a fresh install: the administrator adds an organizer, who creates a listing; a non-organizer buys it (record `t2` naming `t1`, buyer `alice`) and resells it to `bob`; the organizer deletes the listing; the record survives, still naming `t1` |
| `Scenarios.OpenLifetime` | HACK_BECAUSE_OF_ALLOW_JS/index.js:10-62 | in the open build, one listing bought twice by anyone ends with `totalTicketSold` = 2, equal to the number of records naming it |
| `Accounting.NothingSoldForFresh` | HACK_BECAUSE_OF_ALLOW_JS/index.js:16 | no record names a listing id that was never issued, so a new listing's count of 0 is its true number of sales |
| `Accounting.SoldCountAfterInsert` | HACK_BECAUSE_OF_ALLOW_JS/index.js:49-54 | inserting a record under a new key raises the sale count of the listing it names by one, and no other |
| `Accounting.SoldCountAfterRelabel` | HACK_BECAUSE_OF_ALLOW_JS/index.js:69-73 | overwriting a record with one naming the same listing changes no sale count |
| `Accounting.InvariantAfterCreate` | HACK_BECAUSE_OF_ALLOW_JS/index.js:10-19 | creating a listing under a new id with `totalTicketSold` = 0 keeps the invariant (`totalTicketSold` equals the number of records naming the listing, for every listing) |
| `Accounting.InvariantAfterDelete` | HACK_BECAUSE_OF_ALLOW_JS/index.js:29-34 | removing a listing keeps the invariant, although records naming it remain |
| `Accounting.InvariantAfterBuy` | HACK_BECAUSE_OF_ALLOW_JS/index.js:54-60 | adding a new record naming a listing and bumping that listing's count keeps the invariant |
| `Accounting.InvariantAfterResell` | HACK_BECAUSE_OF_ALLOW_JS/index.js:69-73 | renaming a record's buyer, keeping its listing reference, keeps the invariant |
| `Accounting.ValuesOfKeyedListings` | src/index.ts:104-106 | when every listing is stored under its own id, enumerating the values yields as many listings as there are keys |

## Findings

| source | as written | input that shows it | evidently intended | confidence | as-written member | corrected member |
|---|---|---|---|---|---|---|
| src/index.ts:70 | `Principal.fromText(id) === eventAdmin` compares two principal objects by reference; the object built from `id` is never the stored one, so the administrator branch never holds | a freshly initialised canister whose registry is empty: `addOrganizer` called by the administrator is refused, so the registry stays empty forever and `createEventTicket` refuses every caller | the comment at src/index.ts:64 says the administrator passes; compare the identities by value | high (not executed) | `Registry.AsWrittenRegistryStaysEmpty` | `Registry.IsOrganizer` |

Both classes use the corrected check, `Registry.IsOrganizer`. As written, the
administrator can do none of the elevated actions (`addOrganizer`,
`deleteOrganizer`, `createEventTicket`, `deleteEventTicket`), and `buyTicket`
(src/index.ts:180) accepts the administrator as a buyer.

## Left out

- The uuid generator and its `Math.random` crypto shim (src/index.ts:237-248, HACK_BECAUSE_OF_ALLOW_JS/index.js:76-85) are not modelled. Each new identifier is a parameter that must not have been issued before; this stands in for the generator's uniqueness.
- The runtime plumbing is not modelled: the `$query`/`$update`/`$init` decorators, `ic.caller()` and `ic.time()`. The caller and the time are parameters. Each call runs to completion on its own, as the runtime serialises calls.
- `Principal.fromText` and `toString` are not modelled. Identities are their text, compared by value. A malformed text makes `fromText` trap in `init` (src/index.ts:60), in `isOrganizer` (line 70) and in `addOrganizer` (line 82); the trap rolls the call back. The model does not capture that trap.
- Canister upgrades are not modelled; the model covers one installation. `eventAdmin` (src/index.ts:42) and `organizerCount` (src/index.ts:51) are ordinary heap variables, and `init` runs only at install. The three `StableBTreeMap` tables persist across an upgrade. So across an upgrade, the administrator is lost and the counter restarts at 0, while the registry persists. The next `addOrganizer` then overwrites key 1, so the "never handed out twice" property of the counter holds only within one installation.
- RoleGated.RoleGatedLedger.AddOrganizer: does not model the `nat8` limit on `organizerCount`. The counter is an unbounded `nat`; in the source, a key above 255 would fail at serialisation.
- The `StableBTreeMap` storage is not modelled: memory ids, key and value size limits, and the fact that both ticket tables are declared on memory id 0. The two tables are modelled as independent maps.
- RoleGated.RoleGatedLedger.GetAllEventTickets: returns the set of stored listings rather than a sequence in key order. The proved cardinality shows that no listing is lost or repeated.
- OpenProfile.OpenLedger.GetAllEventTickets: returns the set of stored listings rather than a sequence in key order, as above.
- `price` is never computed on and is modelled as a `real`. `totalTicketSold` is an unbounded `nat`, so JavaScript number precision above 2^53 is not modelled. Timestamps are `nat`, so the `nat64` range is not modelled.
- OpenProfile.OpenLedger.CreateEventTicket: the payload has exactly a title, a description and a price. In the untyped build, the spread `...payload` (HACK_BECAUSE_OF_ALLOW_JS/index.js:15) would let extra payload fields override `id`, `createdAt` or `updatedAt`; that is not modelled.
- Listing capacity, reservations, ticket transfer, refunds and record ownership are not modelled. Neither build has them.
