/**
 * The decisions of the Web3 gateway effects (web3-gateway.effects.ts) as
 * functions, and the effects as a whole as a state machine: `Step` maps the
 * current session state and one input event to the next state, which records
 * every action that reached the store and every call the effects made outside
 * it (to the wallet provider, the ethers service, the router, the browser).
 */
module GatewayModel {
  import opened Wrappers
  import opened Actions
  import opened Address

  /** The injected `window.ethereum` handle; the effects consult only its self-identification flag. */
  datatype Provider = Provider(isMetaMask: bool)

  /** A rejected promise or thrown error, as the effects see it: the `message` serializeError extracts from it. */
  datatype Failure = Failure(message: string)

  /** How an asynchronous call to the provider or the ethers service settles. */
  datatype Settled<T> = Resolved(value: T) | Rejected(failure: Failure)

  /** The three reads fanned out after a successful connect. */
  datatype ReadKind = Network | Account | Balance

  /** Calls made outside the store. */
  datatype SideEffect =
    | RequestAccounts       // provider.send('eth_requestAccounts')
    | Read(kind: ReadKind)  // EthersWeb3ProviderService.getNetwork / getSelectedAddress / getBalance
    | NavigateToRoot        // router.navigate(['/'])
    | ReloadPage            // document.location.reload()

  // ---------------------------------------------------------------------
  // The pure mappings inside the effects
  // ---------------------------------------------------------------------

  /** ethereumInject$: only a provider that flags itself as MetaMask is accepted. */
  function InjectCheck(provider: Option<Provider>): (r: Action)
    ensures r == ErrorMessage(InstallMetaMask) <==> provider == None || !provider.value.isMetaMask
    ensures r == EthereumInjectSuccess <==> provider != None && provider.value.isMetaMask
  {
    if provider.None? || !provider.value.isMetaMask then ErrorMessage(InstallMetaMask)
    else EthereumInjectSuccess
  }

  /** handleError: a failure is reported with its serialized message. */
  function HandleError(f: Failure): (r: Action)
    ensures r.ErrorMessage? && r.errorMsg == f.message
  {
    ErrorMessage(f.message)
  }

  /** The `map` of ethereumConnect$: the account list the provider granted. */
  function AccountsToAction(accounts: seq<string>): (r: Action)
    ensures r == EthereumConnectSuccess <==> |accounts| > 0
    ensures r != EthereumConnectSuccess ==> r == ErrorMessage(NoUserAccounts)
  {
    if |accounts| == 0 then ErrorMessage(NoUserAccounts) else EthereumConnectSuccess
  }

  /** The inner pipeline of ethereumConnect$: `map` on success, `catchError` on rejection. */
  function ConnectOutcome(result: Settled<seq<string>>): (r: seq<Action>)
    ensures EthereumConnectSuccess in r <==> result.Resolved? && |result.value| > 0
    ensures SpinnerHide in r <==> result.Rejected?
    ensures |r| == (if result.Rejected? then 2 else 1)
  {
    match result
    case Resolved(accounts) => [AccountsToAction(accounts)]
    case Rejected(f) => [HandleError(f), SpinnerHide]
  }

  /** The inner pipelines of getNetwork$, getAddress$ and getBalance$. */
  function ReadOutcome(kind: ReadKind, result: Settled<string>): (r: Action)
    ensures r.ErrorMessage? <==> result.Rejected?
    ensures r != SpinnerShow && r != SpinnerHide && r != EthereumConnectSuccess
  {
    match result
    case Rejected(f) => HandleError(f)
    case Resolved(v) =>
      match kind
      case Network => NetworkSuccess(v)
      case Account => AccountSuccess(v)
      case Balance => BalanceSuccess(v)
  }

  /**
   * The filter of accountWatcher$: whether an `accountsChanged` event carrying
   * `accounts` forces a page reload, given the account the store holds when the
   * event arrives ("" stands for every falsy stored value).
   */
  function ShouldReload(accounts: seq<string>, currentAccount: string): (reload: bool)
    ensures |accounts| == 0 ==> reload
    ensures |accounts| > 0 && currentAccount == "" ==> !reload
  {
    if |accounts| == 0 then true
    else
      var curAdd := if currentAccount != "" then Canonical(currentAccount) else currentAccount;
      var newAdd := if accounts[0] != "" then Canonical(accounts[0]) else accounts[0];
      curAdd != "" && curAdd != newAdd
  }

  /**
   * What the effects that hold no state (ethereumInject$, ethereumDisconnect$,
   * showSpinner$, hideSpinner$, getAccountInfo$) emit in reply to one action,
   * in the order the effects are declared.
   */
  function Reaction(a: Action, provider: Option<Provider>): (r: seq<Action>)
    ensures r != [] <==> Answered(a)
    ensures forall b :: b in r ==> !Answered(b)
    ensures a == EthereumConnect ==> SpinnerShow in r
    ensures a == EthereumConnectSuccess ==> SpinnerHide in r && SpinnerShow !in r
    ensures a != EthereumConnect ==> SpinnerShow !in r
  {
    match a
    case RootEffectsInit => [InjectCheck(provider)]
    case EthereumConnect => [SpinnerShow]
    case EthereumDisconnect => [ErrorMessage(DisconnectNotSupported)]
    case EthereumConnectSuccess => [SpinnerHide, GetNetwork, GetAccount, GetBalance]
    case _ => []
  }

  /** The actions some stateless effect answers with further actions. */
  predicate Answered(a: Action)
  {
    a.RootEffectsInit? || a.EthereumConnect? || a.EthereumDisconnect? || a.EthereumConnectSuccess?
  }

  /** The calls connectRedirect$ and the three read effects make in reply to one action. */
  function Triggered(a: Action): (r: seq<SideEffect>)
    ensures |r| <= 1
    ensures RequestAccounts !in r && ReloadPage !in r
    ensures NavigateToRoot in r <==> a == EthereumConnectRedirect
    ensures r != [] <==> a.EthereumConnectRedirect? || a.GetNetwork? || a.GetAccount? || a.GetBalance?
  {
    match a
    case EthereumConnectRedirect => [NavigateToRoot]
    case GetNetwork => [Read(Network)]
    case GetAccount => [Read(Account)]
    case GetBalance => [Read(Balance)]
    case _ => []
  }

  /**
   * Everything that reaches the store when `a` is dispatched: `a` itself, then
   * what the stateless effects emit in reply (which, by
   * GatewayProperties.ReactionsAreFinal, emit nothing further).
   */
  function Settle(a: Action, provider: Option<Provider>): seq<Action>
  {
    [a] + Reaction(a, provider)
  }

  function SettleAll(actions: seq<Action>, provider: Option<Provider>): seq<Action>
  {
    if actions == [] then [] else Settle(actions[0], provider) + SettleAll(actions[1..], provider)
  }

  function TriggeredAll(actions: seq<Action>): (r: seq<SideEffect>)
    ensures RequestAccounts !in r && ReloadPage !in r
  {
    if actions == [] then [] else Triggered(actions[0]) + TriggeredAll(actions[1..])
  }

  /** The reads a batch of calls starts. */
  function ReadsIn(effects: seq<SideEffect>): set<ReadKind>
  {
    set e | e in effects && e.Read? :: e.kind
  }

  // ---------------------------------------------------------------------
  // The effects as a state machine
  // ---------------------------------------------------------------------

  /**
   * inFlight: an eth_requestAccounts call started by ethereumConnect$ has not
   * settled (exhaustMap's inner subscription is active); pendingReads: the reads
   * whose result has not arrived; dispatched: every action that reached the
   * store, in order; effects: every call made outside the store, in order.
   */
  datatype State = State(
    inFlight: bool,
    pendingReads: set<ReadKind>,
    dispatched: seq<Action>,
    effects: seq<SideEffect>)

  const Initial: State := State(false, {}, [], [])

  /** The inputs of the effects. */
  datatype Event =
    | Dispatched(action: Action)                               // dispatched by a component, the guard or NgRx
    | AccountsSettled(granted: Settled<seq<string>>)           // eth_requestAccounts settles
    | ReadSettled(kind: ReadKind, result: Settled<string>)     // a network/account/balance read settles
    | AccountsChanged(accounts: seq<string>, currentAccount: string) // provider event, joined with the latest stored account

  /**
   * An event can happen in a state: only an outstanding call settles, and the
   * `accountsChanged` event source exists only when a provider is injected.
   */
  predicate Enabled(provider: Option<Provider>, s: State, e: Event)
  {
    match e
    case Dispatched(_) => true
    case AccountsSettled(_) => s.inFlight
    case ReadSettled(k, _) => k in s.pendingReads
    case AccountsChanged(_, _) => provider.Some?
  }

  function Step(provider: Option<Provider>, s: State, e: Event): (t: State)
    requires Enabled(provider, s, e)
    // both logs are append-only
    ensures s.dispatched <= t.dispatched && s.effects <= t.effects
    // only a connect signal can start a request, and only a delivered result can end one
    ensures t.inFlight && !s.inFlight ==> e == Dispatched(EthereumConnect) && provider.Some?
    ensures s.inFlight && !t.inFlight ==> e.AccountsSettled?
    // only the account watcher reloads the page, and it dispatches nothing
    ensures ReloadPage in t.effects && ReloadPage !in s.effects ==> e.AccountsChanged?
    ensures e.AccountsChanged? ==> t.dispatched == s.dispatched
  {
    match e
    case Dispatched(a) =>
      var out := Settle(a, provider);
      // exhaustMap starts a request only when none is outstanding; with no provider,
      // `send` throws before any request exists
      var starts := a == EthereumConnect && !s.inFlight && provider.Some?;
      var fx := (if starts then [RequestAccounts] else []) + TriggeredAll(out);
      State(s.inFlight || starts, s.pendingReads + ReadsIn(fx), s.dispatched + out, s.effects + fx)
    case AccountsSettled(result) =>
      var out := SettleAll(ConnectOutcome(result), provider);
      var fx := TriggeredAll(out);
      State(false, s.pendingReads + ReadsIn(fx), s.dispatched + out, s.effects + fx)
    case ReadSettled(k, result) =>
      s.(pendingReads := s.pendingReads - {k},
         dispatched := s.dispatched + Settle(ReadOutcome(k, result), provider))
    case AccountsChanged(accounts, current) =>
      if ShouldReload(accounts, current) then s.(effects := s.effects + [ReloadPage]) else s
  }

  /** Every event of `es` is enabled in the state the previous ones lead to. */
  predicate Runnable(provider: Option<Provider>, s: State, es: seq<Event>)
    decreases |es|
  {
    es == [] ||
    (Enabled(provider, s, es[0]) && Runnable(provider, Step(provider, s, es[0]), es[1..]))
  }

  function Run(provider: Option<Provider>, s: State, es: seq<Event>): State
    requires Runnable(provider, s, es)
    decreases |es|
  {
    if es == [] then s else Run(provider, Step(provider, s, es[0]), es[1..])
  }

  // ---------------------------------------------------------------------
  // Observations on the logs
  // ---------------------------------------------------------------------

  /** How many eth_requestAccounts calls a call log holds. */
  function RequestCount(fx: seq<SideEffect>): nat
  {
    if fx == [] then 0 else (if fx[0] == RequestAccounts then 1 else 0) + RequestCount(fx[1..])
  }

  /** How many eth_requestAccounts results an event sequence delivers. */
  function SettlementCount(es: seq<Event>): nat
  {
    if es == [] then 0 else (if es[0].AccountsSettled? then 1 else 0) + SettlementCount(es[1..])
  }

  /**
   * The spinner's visibility after the store has seen `d`, for a spinner
   * reducer in which the last show or hide wins. A reducer that counts
   * shows against hides would answer differently.
   */
  function SpinnerVisible(d: seq<Action>): bool
    decreases |d|
  {
    if d == [] then false
    else if d[|d| - 1] == SpinnerShow then true
    else if d[|d| - 1] == SpinnerHide then false
    else SpinnerVisible(d[..|d| - 1])
  }

  /** In `d`, position `i` is immediately followed by `block`. */
  predicate FollowedBy(d: seq<Action>, i: nat, block: seq<Action>)
  {
    i < |d| && i + 1 + |block| <= |d| && d[i + 1..i + 1 + |block|] == block
  }

  /** Every action in the store log is immediately followed by what the stateless effects emit in reply. */
  ghost predicate Reacted(d: seq<Action>, provider: Option<Provider>)
  {
    forall i :: 0 <= i < |d| ==> FollowedBy(d, i, Reaction(d[i], provider))
  }

  /** The invariant of the session, given the number of connect results delivered so far. */
  ghost predicate Inv(provider: Option<Provider>, s: State, settled: nat)
  {
    Reacted(s.dispatched, provider)
    && RequestCount(s.effects) == settled + (if s.inFlight then 1 else 0)
  }
}
