/** The party indicator store: a registry from component identities to
    priorities, and the "always follow" flag. */
module PartyIndicatorStore {
  import opened Optional

  /** A component's unique `symbol`, identified by a number. */
  datatype Symbol = Symbol(id: nat)

  datatype State = State(registry: map<Symbol, int>, alwaysFollow: bool)

  const Initial := State(map[], false)

  /** `register(id, priority)`: maps `id` to `priority`, replacing any
      earlier priority. */
  function Register(st: State, id: Symbol, priority: int): (r: State)
    ensures PriorityOf(r, id) == Some(priority)
    ensures forall other :: other != id ==> PriorityOf(r, other) == PriorityOf(st, other)
    ensures r.registry.Keys == st.registry.Keys + {id}
    ensures r.alwaysFollow == st.alwaysFollow
  {
    st.(registry := st.registry[id := priority])
  }

  /** `unregister(id)`: removes `id` and nothing else. */
  function Unregister(st: State, id: Symbol): (r: State)
    ensures PriorityOf(r, id) == None
    ensures forall other :: other != id ==> PriorityOf(r, other) == PriorityOf(st, other)
    ensures r.registry.Keys == st.registry.Keys - {id}
    ensures r.alwaysFollow == st.alwaysFollow
  {
    st.(registry := st.registry - {id})
  }

  /** `setAlwaysFollow(shouldFollow)`: changes the flag only. */
  function SetAlwaysFollow(st: State, shouldFollow: bool): (r: State)
    ensures r.alwaysFollow == shouldFollow && r.registry == st.registry
  {
    st.(alwaysFollow := shouldFollow)
  }

  function PriorityOf(st: State, id: Symbol): (r: Option<int>)
    ensures r.Some? <==> id in st.registry
    ensures r.Some? ==> r.value == st.registry[id]
  {
    if id in st.registry then Some(st.registry[id]) else None
  }

  /** Unregistering an id that is not registered changes nothing. */
  lemma UnregisterAbsentIsNoOp(st: State, id: Symbol)
    requires PriorityOf(st, id).None?
    ensures Unregister(st, id) == st
  {
    assert st.registry - {id} == st.registry;
  }

  /** A component that registers and then unregisters leaves the store as
      it found it, provided it was not registered before. */
  lemma RegisterThenUnregisterRestores(st: State, id: Symbol, priority: int)
    requires PriorityOf(st, id).None?
    ensures Unregister(Register(st, id, priority), id) == st
  {
    assert st.registry[id := priority] - {id} == st.registry;
  }

  /** The flag and the registry are independent: the order of a flag change
      and a registration does not matter. */
  lemma FlagCommutesWithRegistry(st: State, id: Symbol, priority: int, shouldFollow: bool)
    ensures SetAlwaysFollow(Register(st, id, priority), shouldFollow) == Register(SetAlwaysFollow(st, shouldFollow), id, priority)
    ensures SetAlwaysFollow(Unregister(st, id), shouldFollow) == Unregister(SetAlwaysFollow(st, shouldFollow), id)
  {
  }
}
