/**
 * What the Web3 gateway effects guarantee, proved about GatewayModel.Step:
 * single-flight connects, the spinner and fan-out that follow every connect
 * signal and connect success, the fixed outcomes of startup, disconnect and a
 * settled connect, and the reload decision of the account watcher.
 */
module GatewayProperties {
  import opened Wrappers
  import opened Actions
  import opened Address
  import opened GatewayModel

  // ---------------------------------------------------------------------
  // The store log: every action is followed by the effects' reply
  // ---------------------------------------------------------------------

  /** What the stateless effects emit triggers none of them again, so one round settles a dispatch. */
  lemma ReactionsAreFinal(a: Action, provider: Option<Provider>)
    ensures forall b :: b in Reaction(a, provider) ==> Reaction(b, provider) == []
  {
  }

  lemma ReactedAppend(d1: seq<Action>, d2: seq<Action>, provider: Option<Provider>)
    requires Reacted(d1, provider) && Reacted(d2, provider)
    ensures Reacted(d1 + d2, provider)
  {
    var d := d1 + d2;
    forall i | 0 <= i < |d|
      ensures FollowedBy(d, i, Reaction(d[i], provider))
    {
      if i < |d1| {
        assert d[i] == d1[i];
        FollowedByAppendLeft(d1, d2, i, Reaction(d1[i], provider));
      } else {
        assert d[i] == d2[i - |d1|];
        FollowedByAppendRight(d1, d2, i - |d1|, Reaction(d2[i - |d1|], provider));
      }
    }
  }

  lemma FollowedByAppendLeft(d1: seq<Action>, d2: seq<Action>, i: nat, block: seq<Action>)
    requires FollowedBy(d1, i, block)
    ensures FollowedBy(d1 + d2, i, block)
  {
    assert (d1 + d2)[i + 1..i + 1 + |block|] == d1[i + 1..i + 1 + |block|];
  }

  lemma FollowedByAppendRight(d1: seq<Action>, d2: seq<Action>, j: nat, block: seq<Action>)
    requires FollowedBy(d2, j, block)
    ensures FollowedBy(d1 + d2, |d1| + j, block)
  {
    var i := |d1| + j;
    assert (d1 + d2)[i + 1..i + 1 + |block|] == d2[j + 1..j + 1 + |block|];
  }

  lemma ReactedSettle(a: Action, provider: Option<Provider>)
    ensures Reacted(Settle(a, provider), provider)
  {
    var r := Reaction(a, provider);
    var d := [a] + r;
    ReactionsAreFinal(a, provider);
    forall i | 0 <= i < |d|
      ensures FollowedBy(d, i, Reaction(d[i], provider))
    {
      if i == 0 {
        assert d[1..1 + |r|] == r;
      } else {
        assert d[i] == r[i - 1];
        assert Reaction(d[i], provider) == [];
        assert d[i + 1..i + 1] == [];
      }
    }
  }

  lemma {:induction false} ReactedSettleAll(actions: seq<Action>, provider: Option<Provider>)
    ensures Reacted(SettleAll(actions, provider), provider)
  {
    if actions != [] {
      ReactedSettle(actions[0], provider);
      ReactedSettleAll(actions[1..], provider);
      ReactedAppend(Settle(actions[0], provider), SettleAll(actions[1..], provider), provider);
    }
  }

  // ---------------------------------------------------------------------
  // Counting provider requests
  // ---------------------------------------------------------------------

  lemma {:induction false} RequestCountAppend(a: seq<SideEffect>, b: seq<SideEffect>)
    ensures RequestCount(a + b) == RequestCount(a) + RequestCount(b)
  {
    if a != [] {
      assert (a + b)[0] == a[0];
      assert (a + b)[1..] == a[1..] + b;
      RequestCountAppend(a[1..], b);
    } else {
      assert a + b == b;
    }
  }

  /** Only ethereumConnect$ ever calls eth_requestAccounts. */
  lemma {:induction false} TriggeredNeverRequests(actions: seq<Action>)
    ensures RequestCount(TriggeredAll(actions)) == 0
  {
    if actions != [] {
      TriggeredNeverRequests(actions[1..]);
      RequestCountAppend(Triggered(actions[0]), TriggeredAll(actions[1..]));
    }
  }

  lemma {:induction false} TriggeredAllAppend(a: seq<Action>, b: seq<Action>)
    ensures TriggeredAll(a + b) == TriggeredAll(a) + TriggeredAll(b)
  {
    if a != [] {
      assert (a + b)[0] == a[0];
      assert (a + b)[1..] == a[1..] + b;
      TriggeredAllAppend(a[1..], b);
    } else {
      assert a + b == b;
    }
  }

  lemma {:induction false} SettleAllAppend(a: seq<Action>, b: seq<Action>, provider: Option<Provider>)
    ensures SettleAll(a + b, provider) == SettleAll(a, provider) + SettleAll(b, provider)
  {
    if a != [] {
      assert (a + b)[0] == a[0];
      assert (a + b)[1..] == a[1..] + b;
      SettleAllAppend(a[1..], b, provider);
    } else {
      assert a + b == b;
    }
  }

  lemma TriggeredAllSingle(x: Action)
    ensures TriggeredAll([x]) == Triggered(x)
  {
    assert [x][1..] == [];
  }

  lemma SettleAllSingle(x: Action, provider: Option<Provider>)
    ensures SettleAll([x], provider) == Settle(x, provider)
  {
    assert [x][1..] == [];
  }

  /** The store-only actions a dispatch of `x` produces, when neither `x` nor its reply calls out. */
  lemma TriggeredAllPair(x: Action, y: Action)
    ensures TriggeredAll([x, y]) == Triggered(x) + Triggered(y)
  {
    TriggeredAllSingle(x);
    TriggeredAllSingle(y);
    TriggeredAllAppend([x], [y]);
    assert [x] + [y] == [x, y];
  }

  lemma StepKeepsInv(provider: Option<Provider>, s: State, e: Event, settled: nat)
    requires Enabled(provider, s, e) && Inv(provider, s, settled)
    ensures Inv(provider, Step(provider, s, e), settled + (if e.AccountsSettled? then 1 else 0))
  {
    var t := Step(provider, s, e);
    match e
    case Dispatched(a) =>
      var out := Settle(a, provider);
      var starts := a == EthereumConnect && !s.inFlight && provider.Some?;
      var fx := (if starts then [RequestAccounts] else []) + TriggeredAll(out);
      ReactedSettle(a, provider);
      ReactedAppend(s.dispatched, out, provider);
      TriggeredNeverRequests(out);
      RequestCountAppend(if starts then [RequestAccounts] else [], TriggeredAll(out));
      RequestCountAppend(s.effects, fx);
    case AccountsSettled(result) =>
      var out := SettleAll(ConnectOutcome(result), provider);
      ReactedSettleAll(ConnectOutcome(result), provider);
      ReactedAppend(s.dispatched, out, provider);
      TriggeredNeverRequests(out);
      RequestCountAppend(s.effects, TriggeredAll(out));
    case ReadSettled(k, result) =>
      ReactedSettle(ReadOutcome(k, result), provider);
      ReactedAppend(s.dispatched, Settle(ReadOutcome(k, result), provider), provider);
    case AccountsChanged(accounts, current) =>
      RequestCountAppend(s.effects, [ReloadPage]);
  }

  lemma {:induction false} RunKeepsInv(provider: Option<Provider>, s: State, es: seq<Event>, settled: nat)
    requires Runnable(provider, s, es) && Inv(provider, s, settled)
    ensures Inv(provider, Run(provider, s, es), settled + SettlementCount(es))
    decreases |es|
  {
    if es != [] {
      StepKeepsInv(provider, s, es[0], settled);
      RunKeepsInv(provider, Step(provider, s, es[0]), es[1..],
                  settled + (if es[0].AccountsSettled? then 1 else 0));
    }
  }

  /**
   * Single flight: over any run from startup, eth_requestAccounts has been
   * called once per delivered result, plus once more exactly while a call is
   * outstanding; so at most one call is ever unanswered.
   */
  lemma SingleFlight(provider: Option<Provider>, es: seq<Event>)
    requires Runnable(provider, Initial, es)
    ensures var t := Run(provider, Initial, es);
      RequestCount(t.effects) == SettlementCount(es) + (if t.inFlight then 1 else 0)
    ensures RequestCount(Run(provider, Initial, es).effects) <= SettlementCount(es) + 1
  {
    RunKeepsInv(provider, Initial, es, 0);
  }

  /**
   * In the store log of any run from startup, every connect signal is followed
   * by the spinner being shown, every connect success by the spinner being
   * hidden and the network, account and balance reads in that order, every
   * disconnect by the fixed not-supported message, and the startup action by
   * the injection check's verdict.
   */
  lemma RunLogFollowUps(provider: Option<Provider>, es: seq<Event>)
    requires Runnable(provider, Initial, es)
    ensures var d := Run(provider, Initial, es).dispatched;
      forall i :: 0 <= i < |d| ==> FollowUpsAt(d, i, provider)
  {
    RunKeepsInv(provider, Initial, es, 0);
    var d := Run(provider, Initial, es).dispatched;
    forall i | 0 <= i < |d|
      ensures FollowUpsAt(d, i, provider)
    {
      FollowedByGivesFollowUps(d, i, provider);
    }
  }

  predicate FollowUpsAt(d: seq<Action>, i: nat, provider: Option<Provider>)
    requires i < |d|
  {
    (d[i] == EthereumConnect ==> i + 1 < |d| && d[i + 1] == SpinnerShow) &&
    (d[i] == EthereumConnectSuccess ==>
       i + 5 <= |d| && d[i + 1..i + 5] == [SpinnerHide, GetNetwork, GetAccount, GetBalance]) &&
    (d[i] == EthereumDisconnect ==>
       i + 1 < |d| && d[i + 1] == ErrorMessage(DisconnectNotSupported)) &&
    (d[i] == RootEffectsInit ==> i + 1 < |d| && d[i + 1] == InjectCheck(provider))
  }

  lemma FollowedByGivesFollowUps(d: seq<Action>, i: nat, provider: Option<Provider>)
    requires i < |d| && FollowedBy(d, i, Reaction(d[i], provider))
    ensures FollowUpsAt(d, i, provider)
  {
    if d[i] == EthereumConnect || d[i] == EthereumDisconnect || d[i] == RootEffectsInit {
      assert d[i + 1..i + 2][0] == d[i + 1];
    }
  }

  // ---------------------------------------------------------------------
  // One event at a time
  // ---------------------------------------------------------------------

  /** ethereumInject$: the startup action is answered by exactly one verdict and changes nothing else. */
  lemma StartupCheck(provider: Option<Provider>, s: State)
    ensures var ok := provider.Some? && provider.value.isMetaMask;
      Step(provider, s, Dispatched(RootEffectsInit)) ==
        s.(dispatched := s.dispatched +
             [RootEffectsInit, if ok then EthereumInjectSuccess else ErrorMessage(InstallMetaMask)])
  {
    TriggeredAllPair(RootEffectsInit, InjectCheck(provider));
    assert ReadsIn([]) == {};
  }

  /** ethereumDisconnect$: in every state, a disconnect is answered by the fixed message alone. */
  lemma DisconnectOnlyReports(provider: Option<Provider>, s: State)
    ensures Step(provider, s, Dispatched(EthereumDisconnect)) ==
      s.(dispatched := s.dispatched + [EthereumDisconnect, ErrorMessage(DisconnectNotSupported)])
  {
    TriggeredAllPair(EthereumDisconnect, ErrorMessage(DisconnectNotSupported));
    assert ReadsIn([]) == {};
  }

  /**
   * ethereumConnect$ with exhaustMap: while a request is outstanding a connect
   * signal only shows the spinner; otherwise it also starts the one request
   * (when a provider is injected).
   */
  lemma ConnectSignal(provider: Option<Provider>, s: State)
    ensures var t := Step(provider, s, Dispatched(EthereumConnect));
      var starts := !s.inFlight && provider.Some?;
      t == State(s.inFlight || starts, s.pendingReads,
                 s.dispatched + [EthereumConnect, SpinnerShow],
                 s.effects + (if starts then [RequestAccounts] else []))
    ensures s.inFlight ==> Step(provider, s, Dispatched(EthereumConnect)).effects == s.effects
  {
    TriggeredAllPair(EthereumConnect, SpinnerShow);
    var fx: seq<SideEffect> := if !s.inFlight && provider.Some? then [RequestAccounts] else [];
    assert fx + [] == fx;
    assert ReadsIn(fx) == {};
  }

  /** A rejected connect request reports the serialized failure, then hides the spinner; nothing else. */
  lemma ConnectRejected(provider: Option<Provider>, s: State, f: Failure)
    requires s.inFlight
    ensures Step(provider, s, AccountsSettled(Rejected(f))) ==
      s.(inFlight := false, dispatched := s.dispatched + [ErrorMessage(f.message), SpinnerHide])
  {
    var e := ErrorMessage(f.message);
    assert ConnectOutcome(Rejected(f)) == [e] + [SpinnerHide];
    SettleAllAppend([e], [SpinnerHide], provider);
    SettleAllSingle(e, provider);
    SettleAllSingle(SpinnerHide, provider);
    var out := SettleAll(ConnectOutcome(Rejected(f)), provider);
    assert out == [e, SpinnerHide];
    TriggeredAllPair(e, SpinnerHide);
    assert TriggeredAll(out) == [];
    assert ReadsIn([]) == {};
  }

  /**
   * An empty granted account list reports that no account was granted and does
   * nothing else: no connect success, and the spinner is not hidden.
   */
  lemma ConnectGrantedNoAccount(provider: Option<Provider>, s: State)
    requires s.inFlight
    ensures Step(provider, s, AccountsSettled(Resolved([]))) ==
      s.(inFlight := false, dispatched := s.dispatched + [ErrorMessage(NoUserAccounts)])
  {
    SettleAllSingle(ErrorMessage(NoUserAccounts), provider);
    TriggeredAllSingle(ErrorMessage(NoUserAccounts));
    assert ReadsIn([]) == {};
  }

  /**
   * A non-empty granted account list emits connect success, which hideSpinner$
   * and getAccountInfo$ answer by hiding the spinner and starting the network,
   * account and balance reads, in that order.
   */
  lemma ConnectGrantedAccounts(provider: Option<Provider>, s: State, accounts: seq<string>)
    requires s.inFlight && |accounts| > 0
    ensures Step(provider, s, AccountsSettled(Resolved(accounts))) ==
      State(false, s.pendingReads + {Network, Account, Balance},
            s.dispatched + [EthereumConnectSuccess, SpinnerHide, GetNetwork, GetAccount, GetBalance],
            s.effects + [Read(Network), Read(Account), Read(Balance)])
  {
    FanOutSettles(provider);
    FanOutCalls();
    var fx := [Read(Network), Read(Account), Read(Balance)];
    assert ReadsIn(fx) == {Network, Account, Balance} by {
      assert fx[0] in fx && fx[1] in fx && fx[2] in fx;
    }
  }

  lemma FanOutSettles(provider: Option<Provider>)
    ensures SettleAll([EthereumConnectSuccess], provider) ==
      [EthereumConnectSuccess, SpinnerHide, GetNetwork, GetAccount, GetBalance]
  {
    SettleAllSingle(EthereumConnectSuccess, provider);
  }

  lemma FanOutCalls()
    ensures TriggeredAll([EthereumConnectSuccess, SpinnerHide, GetNetwork, GetAccount, GetBalance]) ==
      [Read(Network), Read(Account), Read(Balance)]
  {
    var head := [EthereumConnectSuccess, SpinnerHide];
    TriggeredAllPair(EthereumConnectSuccess, SpinnerHide);
    TriggeredAllSingle(GetNetwork);
    TriggeredAllSingle(GetAccount);
    TriggeredAllSingle(GetBalance);
    TriggeredAllAppend(head, [GetNetwork]);
    TriggeredAllAppend(head + [GetNetwork], [GetAccount]);
    TriggeredAllAppend(head + [GetNetwork] + [GetAccount], [GetBalance]);
    assert head + [GetNetwork] + [GetAccount] + [GetBalance] ==
      [EthereumConnectSuccess, SpinnerHide, GetNetwork, GetAccount, GetBalance];
  }

  /** Whatever the provider answers, the connect request is no longer in flight and no new one starts. */
  lemma ConnectSettledEndsFlight(provider: Option<Provider>, s: State, result: Settled<seq<string>>)
    requires s.inFlight
    ensures var t := Step(provider, s, AccountsSettled(result));
      !t.inFlight && RequestCount(t.effects) == RequestCount(s.effects)
  {
    var out := SettleAll(ConnectOutcome(result), provider);
    TriggeredNeverRequests(out);
    RequestCountAppend(s.effects, TriggeredAll(out));
  }

  /** A settled read reports its value or its failure, and touches nothing but the store log and the pending set. */
  lemma ReadSettledOutcome(provider: Option<Provider>, s: State, k: ReadKind, result: Settled<string>)
    requires k in s.pendingReads
    ensures Step(provider, s, ReadSettled(k, result)) ==
      s.(pendingReads := s.pendingReads - {k}, dispatched := s.dispatched + [ReadOutcome(k, result)])
    ensures result.Rejected? ==> ReadOutcome(k, result) == ErrorMessage(result.failure.message)
  {
  }

  // ---------------------------------------------------------------------
  // The spinner
  // ---------------------------------------------------------------------

  lemma SpinnerVisibleSnoc(d: seq<Action>, x: Action)
    ensures SpinnerVisible(d + [x]) ==
      (if x == SpinnerShow then true else if x == SpinnerHide then false else SpinnerVisible(d))
  {
    assert (d + [x])[..|d|] == d;
  }

  /** A connect signal always leaves the spinner shown. */
  lemma SpinnerShownOnConnect(provider: Option<Provider>, s: State)
    ensures SpinnerVisible(Step(provider, s, Dispatched(EthereumConnect)).dispatched)
  {
    ConnectSignal(provider, s);
    assert s.dispatched + [EthereumConnect, SpinnerShow] == (s.dispatched + [EthereumConnect]) + [SpinnerShow];
    SpinnerVisibleSnoc(s.dispatched + [EthereumConnect], SpinnerShow);
  }

  /**
   * A rejected request or a granted non-empty account list hides the spinner;
   * an empty account list leaves it as it was (shown after a connect signal).
   */
  lemma SpinnerAfterConnectSettled(provider: Option<Provider>, s: State, result: Settled<seq<string>>)
    requires s.inFlight
    ensures var d := Step(provider, s, AccountsSettled(result)).dispatched;
      (result.Rejected? || |result.value| > 0 ==> !SpinnerVisible(d)) &&
      (result.Resolved? && |result.value| == 0 ==> SpinnerVisible(d) == SpinnerVisible(s.dispatched))
  {
    if result.Rejected? {
      ConnectRejected(provider, s, result.failure);
      HiddenAfterRejection(s.dispatched, ErrorMessage(result.failure.message));
    } else if |result.value| == 0 {
      assert result.value == [];
      ConnectGrantedNoAccount(provider, s);
      SpinnerVisibleSnoc(s.dispatched, ErrorMessage(NoUserAccounts));
    } else {
      ConnectGrantedAccounts(provider, s, result.value);
      HiddenAfterFanOut(s.dispatched);
    }
  }

  lemma HiddenAfterRejection(d0: seq<Action>, e: Action)
    ensures !SpinnerVisible(d0 + [e, SpinnerHide])
  {
    assert d0 + [e, SpinnerHide] == (d0 + [e]) + [SpinnerHide];
    SpinnerVisibleSnoc(d0 + [e], SpinnerHide);
  }

  lemma HiddenAfterFanOut(d0: seq<Action>)
    ensures !SpinnerVisible(d0 + [EthereumConnectSuccess, SpinnerHide, GetNetwork, GetAccount, GetBalance])
  {
    var d1 := d0 + [EthereumConnectSuccess, SpinnerHide];
    HiddenAfterRejection(d0, EthereumConnectSuccess);
    SpinnerVisibleSnoc(d1, GetNetwork);
    SpinnerVisibleSnoc(d1 + [GetNetwork], GetAccount);
    SpinnerVisibleSnoc(d1 + [GetNetwork] + [GetAccount], GetBalance);
    assert d0 + [EthereumConnectSuccess, SpinnerHide, GetNetwork, GetAccount, GetBalance]
        == d1 + [GetNetwork] + [GetAccount] + [GetBalance];
  }

  // ---------------------------------------------------------------------
  // The account watcher
  // ---------------------------------------------------------------------

  /**
   * The reload decision in terms of addresses: reload when the provider
   * reports no account, or when an account is stored and the first reported
   * one is not the same address up to letter case.
   */
  lemma ShouldReloadCharacterised(accounts: seq<string>, currentAccount: string)
    ensures ShouldReload(accounts, currentAccount) <==>
      |accounts| == 0 || (currentAccount != "" && !SameIgnoringCase(currentAccount, accounts[0]))
  {
    if |accounts| > 0 {
      CanonicalEqualIff(currentAccount, accounts[0]);
      assert Canonical("") == "";
    }
  }

  /** Addresses that differ only in letter case never force a reload. */
  lemma CaseVariantsNeverReload(accounts: seq<string>, currentAccount: string)
    requires |accounts| > 0 && SameIgnoringCase(currentAccount, accounts[0])
    ensures !ShouldReload(accounts, currentAccount)
  {
    ShouldReloadCharacterised(accounts, currentAccount);
  }

  /** The only thing an `accountsChanged` event can do is request one page reload. */
  lemma AccountsChangedOutcome(provider: Option<Provider>, s: State, accounts: seq<string>, currentAccount: string)
    requires provider.Some?
    ensures var t := Step(provider, s, AccountsChanged(accounts, currentAccount));
      t.inFlight == s.inFlight && t.pendingReads == s.pendingReads && t.dispatched == s.dispatched &&
      t.effects == s.effects +
        (if |accounts| == 0 || (currentAccount != "" && !SameIgnoringCase(currentAccount, accounts[0]))
         then [ReloadPage] else [])
  {
    ShouldReloadCharacterised(accounts, currentAccount);
  }

  /**
   * The account from the watcher's own example, spelled in lower case (as ethers
   * reports it) and in mixed case (as the `accountsChanged` event reports it), is
   * the same account: no reload.
   */
  lemma SameAccountExample(stored: string, reported: string)
    requires stored == "0xd64d1cc32225bd5815cfa7a0b8a6aa46e0ef1285"
    requires reported == "0xd64D1cc32225bD5815cFA7A0B8a6aa46e0eF1285"
    ensures !ShouldReload([reported], stored)
  {
    ExampleSpellingsAgree(stored, reported);
    ShouldReloadCharacterised([reported], stored);
  }

  lemma ExampleSpellingsAgree(stored: string, reported: string)
    requires stored == "0xd64d1cc32225bd5815cfa7a0b8a6aa46e0ef1285"
    requires reported == "0xd64D1cc32225bD5815cFA7A0B8a6aa46e0eF1285"
    ensures SameIgnoringCase(stored, reported)
  {
    ExampleSpellingsAgreeFrom(stored, reported, 0, 21);
    ExampleSpellingsAgreeFrom(stored, reported, 21, 42);
    SameIgnoringCasePointwise(stored, reported);
  }

  lemma ExampleSpellingsAgreeFrom(stored: string, reported: string, lo: nat, hi: nat)
    requires stored == "0xd64d1cc32225bd5815cfa7a0b8a6aa46e0ef1285"
    requires reported == "0xd64D1cc32225bD5815cFA7A0B8a6aa46e0eF1285"
    requires lo <= hi <= 42
    ensures forall i :: lo <= i < hi ==> SameCharIgnoringCase(stored[i], reported[i])
  {
  }

  /** Switching to a different account, or logging out, forces a reload. */
  lemma SwitchAndLogoutExamples(stored: string, other: string)
    requires stored == "0xd64d1cc32225bd5815cfa7a0b8a6aa46e0ef1285"
    requires other == "0xFDEa65C8e26263F6d9A1B5de9555D2931A33b825"
    ensures ShouldReload([other], stored)
    ensures ShouldReload([], stored)
  {
    DifferAt(stored, other, 2);
    ShouldReloadCharacterised([other], stored);
  }
}
