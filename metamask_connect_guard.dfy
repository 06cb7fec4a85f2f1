/**
 * MetaMaskConnectGuard (metamask-connect.guard.ts): before a protected module
 * is loaded, read the connected flag once; when it is false, dispatch an error
 * message and a redirect to the root route. The value the guard emits is the
 * flag itself.
 */
module ConnectGuard {
  import opened Wrappers
  import opened Actions
  import opened GatewayModel
  import opened Effects

  /** The dispatches `canLoad` makes after reading the connected flag `connected`. */
  function GuardEvents(connected: bool): (r: seq<Event>)
    ensures r == [] <==> connected
    ensures !connected ==>
      |r| == 2 && r[0].Dispatched? && r[0].action.ErrorMessage? && r[1] == Dispatched(EthereumConnectRedirect)
    ensures forall e :: e in r ==> e.Dispatched? && e.action != EthereumConnect
  {
    if connected then [] else [Dispatched(ErrorMessage(CannotConnect)), Dispatched(EthereumConnectRedirect)]
  }

  /**
   * Connected: nothing happens. Disconnected: the store receives exactly the
   * error message and then the redirect, connectRedirect$ navigates to the root
   * route, and the connect state and pending reads are untouched.
   */
  lemma GuardOutcome(provider: Option<Provider>, s: State, connected: bool)
    ensures Runnable(provider, s, GuardEvents(connected))
    ensures var t := Run(provider, s, GuardEvents(connected));
      (connected ==> t == s) &&
      (!connected ==>
         t == s.(dispatched := s.dispatched + [ErrorMessage(CannotConnect), EthereumConnectRedirect],
                 effects := s.effects + [NavigateToRoot]))
  {
    if !connected {
      var es := GuardEvents(connected);
      var e1, e2 := es[0], es[1];
      assert es[1..][1..] == [];
      var s1 := Step(provider, s, e1);
      GuardDispatchStep(provider, s, ErrorMessage(CannotConnect), []);
      GuardDispatchStep(provider, s1, EthereumConnectRedirect, [NavigateToRoot]);
      assert s1.dispatched + [EthereumConnectRedirect] ==
        s.dispatched + [ErrorMessage(CannotConnect), EthereumConnectRedirect];
      assert Run(provider, s1, es[1..]) == Step(provider, s1, e2);
    }
  }

  /** Dispatching an action no stateless effect answers appends it alone, with the calls it triggers. */
  lemma GuardDispatchStep(provider: Option<Provider>, s: State, a: Action, calls: seq<SideEffect>)
    requires a == ErrorMessage(CannotConnect) || a == EthereumConnectRedirect
    requires calls == Triggered(a)
    ensures Step(provider, s, Dispatched(a)) ==
      s.(dispatched := s.dispatched + [a], effects := s.effects + calls)
  {
    assert [a][1..] == [];
    assert TriggeredAll([a]) == calls;
    assert ReadsIn(calls) == {};
  }

  class MetaMaskConnectGuard {
    /** The store, with the Web3 gateway effects that answer what is dispatched to it. */
    const store: Web3GatewayEffects

    constructor (store: Web3GatewayEffects)
      ensures this.store == store
    {
      this.store := store;
    }

    /**
     * `connectedStream` is the sequence of values the connected selector would
     * emit; the store always has a current value, so it is never empty. `take(1)`
     * reads only the first, so later values neither dispatch nor emit.
     */
    method CanLoad(connectedStream: seq<bool>) returns (emitted: seq<bool>)
      requires |connectedStream| > 0
      requires store.Valid()
      modifies store
      ensures emitted == [connectedStream[0]]
      ensures store.Valid() && store.settled == old(store.settled)
      ensures store.Snapshot() == Run(store.provider, old(store.Snapshot()), GuardEvents(connectedStream[0]))
    {
      var connected := connectedStream[0];
      GuardOutcome(store.provider, store.Snapshot(), connected);
      if !connected {
        Deny();
      }
      emitted := [connected];
    }

    /** The two dispatches `canLoad` makes when the session is not connected. */
    method Deny()
      requires store.Valid()
      modifies store
      ensures store.Valid() && store.settled == old(store.settled)
      ensures store.Snapshot() ==
        old(store.Snapshot()).(
          dispatched := old(store.dispatched) + [ErrorMessage(CannotConnect), EthereumConnectRedirect],
          effects := old(store.effects) + [NavigateToRoot])
    {
      ghost var s0 := store.Snapshot();
      GuardDispatchStep(store.provider, s0, ErrorMessage(CannotConnect), []);
      store.Dispatch(ErrorMessage(CannotConnect));
      ghost var s1 := store.Snapshot();
      GuardDispatchStep(store.provider, s1, EthereumConnectRedirect, [NavigateToRoot]);
      store.Dispatch(EthereumConnectRedirect);
      assert s1.dispatched + [EthereumConnectRedirect] ==
        s0.dispatched + [ErrorMessage(CannotConnect), EthereumConnectRedirect];
    }
  }
}
