/**
 The organizer registry of the role-gated canister: organizer identities
 stored under sequence numbers, and the check `isOrganizer` that grants
 elevated rights to stored organizers and to the administrator.

 Identities are modelled by their text form, compared by value.
 */
module Registry {

  /** The sequence numbers under which identity `id` is stored. */
  function EntriesOf(organizers: map<nat, string>, id: string): set<nat>
  {
    set k | k in organizers && organizers[k] == id
  }

  /**
   `isOrganizer`: the stored organizers whose text is `id` are collected and
   the caller is an organizer when there is at least one; otherwise the
   administrator also passes. The administrator test is modelled as the
   comparison of identities by value that the function is meant to make, so
   the administrator always passes.
   */
  function IsOrganizer(organizers: map<nat, string>, admin: string, id: string): (r: bool)
    ensures r <==> id == admin || exists k :: k in organizers && organizers[k] == id
  {
    if |EntriesOf(organizers, id)| > 0 then
      true
    else
      assert forall k :: k in organizers && organizers[k] == id ==> k in EntriesOf(organizers, id);
      id == admin
  }

  /**
   `isOrganizer` as the code evaluates it: the administrator test compares a
   freshly built principal with the stored one by reference, which never
   holds, so only stored organizers pass.
   */
  function IsOrganizerAsWritten(organizers: map<nat, string>, admin: string, id: string): (r: bool)
    ensures r <==> exists k :: k in organizers && organizers[k] == id
  {
    if |EntriesOf(organizers, id)| > 0 then
      true
    else
      assert forall k :: k in organizers && organizers[k] == id ==> k in EntriesOf(organizers, id);
      false
  }

  /** The two readings differ exactly on an administrator who is not also a stored organizer. */
  lemma AsWrittenDiffersOnlyOnAdmin(organizers: map<nat, string>, admin: string, id: string)
    ensures IsOrganizer(organizers, admin, id) != IsOrganizerAsWritten(organizers, admin, id)
        <==> id == admin && admin !in organizers.Values
  {
  }

  /** The registry state: the stored organizers and the sequence counter. */
  datatype Registry = Registry(organizers: map<nat, string>, count: nat)

  /** A call to `addOrganizer` or `deleteOrganizer`, with the identity of its caller. */
  datatype OrganizerCall =
    | AddOrganizer(caller: string, org: string)
    | DeleteOrganizer(caller: string, key: nat)

  /**
   The effect on the registry of one call, with `isOrganizer` as written:
   the registry part of `RoleGatedLedger.AddOrganizer` and
   `RoleGatedLedger.DeleteOrganizer`, with `IsOrganizerAsWritten` in place
   of `IsOrganizer` as the guard. Messages are left out; only the state is kept.
   */
  function StepAsWritten(reg: Registry, admin: string, call: OrganizerCall): Registry
  {
    match call
    case AddOrganizer(caller, org) =>
      if org != "" && IsOrganizerAsWritten(reg.organizers, admin, caller) then
        Registry(reg.organizers[reg.count + 1 := org], reg.count + 1)
      else
        reg
    case DeleteOrganizer(caller, key) =>
      if IsOrganizerAsWritten(reg.organizers, admin, caller) then
        Registry(reg.organizers - {key}, reg.count)
      else
        reg
  }

  /** The registry after a sequence of calls, with `isOrganizer` as written. */
  function RunAsWritten(reg: Registry, admin: string, calls: seq<OrganizerCall>): Registry
    decreases |calls|
  {
    if calls == [] then reg else RunAsWritten(StepAsWritten(reg, admin, calls[0]), admin, calls[1..])
  }

  /**
   With `isOrganizer` as written, a canister that starts with an empty
   registry keeps it empty whatever is called, by whom, and in what order:
   the administrator is refused the first `addOrganizer`, so nobody ever
   passes `isOrganizer` and no listing can ever be created.
   */
  lemma {:induction false} AsWrittenRegistryStaysEmpty(admin: string, calls: seq<OrganizerCall>)
    ensures RunAsWritten(Registry(map[], 0), admin, calls) == Registry(map[], 0)
    ensures forall caller :: !IsOrganizerAsWritten(RunAsWritten(Registry(map[], 0), admin, calls).organizers, admin, caller)
    decreases |calls|
  {
    if calls != [] {
      assert StepAsWritten(Registry(map[], 0), admin, calls[0]) == Registry(map[], 0);
      AsWrittenRegistryStaysEmpty(admin, calls[1..]);
    }
  }
}
