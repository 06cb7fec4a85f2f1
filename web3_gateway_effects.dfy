/**
 * The Web3 gateway effects as the object NgRx runs: the exhaustMap of
 * ethereumConnect$ keeps an in-flight flag, switchMap keeps one pending read
 * per kind, the store receives every action in order, and the calls out of the
 * store are logged. Each input is one method, whose new state is the one
 * GatewayModel.Step prescribes.
 */
module Effects {
  import opened Wrappers
  import opened Actions
  import opened GatewayModel
  import opened GatewayProperties

  class Web3GatewayEffects {
    const provider: Option<Provider>
    var inFlight: bool
    var pendingReads: set<ReadKind>
    var dispatched: seq<Action>
    var effects: seq<SideEffect>
    /** How many eth_requestAccounts results have been delivered. */
    ghost var settled: nat

    function Snapshot(): State
      reads this
    {
      State(inFlight, pendingReads, dispatched, effects)
    }

    /**
     * Every action in the store is followed by the effects' reply, and exactly
     * one eth_requestAccounts call is unanswered while a connect is in flight
     * (none otherwise).
     */
    ghost predicate Valid()
      reads this
    {
      Inv(provider, Snapshot(), settled)
    }

    constructor (provider: Option<Provider>)
      ensures this.provider == provider && Snapshot() == Initial && settled == 0
      ensures Valid()
    {
      this.provider := provider;
      inFlight, pendingReads, dispatched, effects := false, {}, [], [];
      settled := 0;
    }

    /** An action reaches the store from outside the effects. */
    method Dispatch(a: Action)
      requires Valid()
      modifies this
      ensures Valid() && settled == old(settled)
      ensures Snapshot() == Step(provider, old(Snapshot()), Dispatched(a))
      ensures a == EthereumConnect && old(inFlight) ==> effects == old(effects) && inFlight
    {
      ghost var before := Snapshot();
      StepKeepsInv(provider, before, Dispatched(a), settled);
      ghost var after := Step(provider, before, Dispatched(a));
      var out := Settle(a, provider);
      dispatched := dispatched + out;
      var calls: seq<SideEffect> := [];
      if a == EthereumConnect && !inFlight && provider.Some? {
        // exhaustMap: only a connect signal that finds no request outstanding starts one
        inFlight := true;
        calls := [RequestAccounts];
      }
      calls := calls + TriggeredAll(out);
      effects := effects + calls;
      pendingReads := pendingReads + ReadsIn(calls);
      assert Snapshot() == after;
      if a == EthereumConnect {
        ConnectSignal(provider, before);
      }
    }

    /** The eth_requestAccounts call settles. */
    method SettleConnect(result: Settled<seq<string>>)
      requires Valid() && inFlight
      modifies this
      ensures Valid() && settled == old(settled) + 1
      ensures Snapshot() == Step(provider, old(Snapshot()), AccountsSettled(result))
      ensures !inFlight
    {
      ghost var before := Snapshot();
      var out := SettleAll(ConnectOutcome(result), provider);
      var calls := TriggeredAll(out);
      inFlight := false;
      dispatched := dispatched + out;
      effects := effects + calls;
      pendingReads := pendingReads + ReadsIn(calls);
      StepKeepsInv(provider, before, AccountsSettled(result), settled);
      settled := settled + 1;
    }

    /** A network, account or balance read settles. */
    method SettleRead(kind: ReadKind, result: Settled<string>)
      requires Valid() && kind in pendingReads
      modifies this
      ensures Valid() && settled == old(settled)
      ensures Snapshot() == Step(provider, old(Snapshot()), ReadSettled(kind, result))
    {
      ghost var before := Snapshot();
      pendingReads := pendingReads - {kind};
      dispatched := dispatched + Settle(ReadOutcome(kind, result), provider);
      StepKeepsInv(provider, before, ReadSettled(kind, result), settled);
    }

    /**
     * accountWatcher$: the provider reports its accounts; `currentAccount` is
     * the account the store holds at that moment (withLatestFrom).
     */
    method AccountsChanged(accounts: seq<string>, currentAccount: string)
      requires Valid() && provider.Some?
      modifies this
      ensures Valid() && settled == old(settled)
      ensures Snapshot() == Step(provider, old(Snapshot()), Event.AccountsChanged(accounts, currentAccount))
    {
      ghost var before := Snapshot();
      if ShouldReload(accounts, currentAccount) {
        effects := effects + [ReloadPage];
      }
      StepKeepsInv(provider, before, Event.AccountsChanged(accounts, currentAccount), settled);
    }
  }
}
