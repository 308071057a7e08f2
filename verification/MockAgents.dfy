/**
 * The daemon's agent registry as the mock holds it (tools/test-mocks/iwdmock/internal/mock/agent.go):
 * three fields updated under a mutex, proved to be the one-entry registry of the agent protocol.
 */
module MockAgents {
  import opened Common
  import opened AgentLifecycle

  datatype Reply = Accepted | AlreadyExists | NotFound

  class AgentRegistry {
    var sender: nat
    var path: string
    var isSet: bool
    ghost var origin: AgentId

    constructor ()
      ensures View() == None
    {
      sender, path, isSet := 0, "", false;
    }

    ghost function View(): Option<Entry>
      reads this
    {
      if isSet then Some(Entry(sender, path, origin)) else None
    }

    method Register(from: nat, at: string, ghost who: AgentId) returns (reply: Reply)
      modifies this
      ensures (View(), reply == Accepted) == DaemonRegister(old(View()), Entry(from, at, who))
      ensures reply == Accepted || reply == AlreadyExists
      ensures reply == Accepted <==> old(View()).None?
      ensures old(View()).Some? ==> View() == old(View())
      ensures reply == Accepted ==> forall sender: nat, path: string ::
        (DaemonUnregister(View(), sender, path) == (None, true) <==> sender == from && path == at)
    {
      if isSet { return AlreadyExists; }
      sender, path, isSet := from, at, true;
      origin := who;
      return Accepted;
    }

    method Unregister(from: nat, at: string) returns (reply: Reply)
      modifies this
      ensures (View(), reply == Accepted) == DaemonUnregister(old(View()), from, at)
      ensures reply == Accepted || reply == NotFound
      ensures View() == None || View() == old(View())
      ensures View() != old(View()) ==> old(View()).value.sender == from && old(View()).value.path == at
      ensures reply == Accepted ==> old(View()).Some? && forall e: Entry :: DaemonRegister(View(), e) == (Some(e), true)
    {
      if !isSet || path != at || sender != from { return NotFound; }
      isSet, sender, path := false, 0, "";
      return Accepted;
    }
  }

  /** An accepted registration is undone by its own sender at its own path, and by nothing else. */
  lemma OnlyTheRegistrantUndoes(e: Entry, sender: nat, path: string)
    ensures var (d, accepted) := DaemonRegister(None, e);
      accepted && (DaemonUnregister(d, sender, path) == (None, true) <==> sender == e.sender && path == e.path)
  {
  }
}
