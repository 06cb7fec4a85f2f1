# Wallet-session effects and MetaMask route guard

A Dafny model of the client-side wallet session of the e-commerce dapp. It covers two parts:

- The NgRx **Web3 gateway effects** (`ClientApp/src/app/core/store/effects/web3-gateway.effects.ts`):
  - the startup MetaMask injection check;
  - the single-flight connect request (`exhaustMap`), and how its result maps to actions;
  - the spinner and the network/account/balance fan-out after a connect succeeds;
  - the unsupported disconnect;
  - the three follow-up reads;
  - the `accountsChanged` watcher that decides when to reload the page.
- The **MetaMask connect guard** (`ClientApp/src/app/core/guards/metamask-connect.guard.ts`). Before a protected module loads, it reads the connected flag once. When the flag is false, it dispatches an error message and then a redirect.

Layout:

- `wrappers.dfy`: `Option`.
- `actions.dfy` (module `Actions`): the store actions and the four fixed user-facing messages.
- `address.dfy` (module `Address`): the canonical address form that `utils.getAddress` provides. Lower-casing stands in for the EIP-55 checksum form:
  - `Address.CanonicalEqualIff` proves that two spellings have the same lower-cased form exactly when they differ only in letter case.
  - `Address.CanonicalIsCaseVariant` proves that a spelling and its canonical form differ only in letter case.
  - For the spellings the provider and ethers report, `0x` followed by 40 hex digits, the checksum form behaves the same way. `getAddress` also accepts other spellings (a missing `0x`, ICAP), and it throws on a mixed-case spelling with a wrong checksum. Lower-casing does neither (see "## Left out").
- `gateway_model.dfy` (module `GatewayModel`):
  - Each decision inside an effect is a function.
  - The effects as a whole are a state machine. `Step` maps a `State` and one input `Event` to the next state.
  - The state holds: the in-flight flag of the connect request, the reads not yet answered, the store's action log, and a log of calls made outside the store.
  - The calls outside the store are: `eth_requestAccounts`, the ethers reads, router navigation and page reload.
- `gateway_properties.dfy` (module `GatewayProperties`): the lemmas about `Step` and `Run`.
- `web3_gateway_effects.dfy` (module `Effects`):
  - The class `Web3GatewayEffects` has one method per input.
  - Each method's new state is `Step` of the old one.
  - Its invariant `Valid` has two parts. Every action in the store log is immediately followed by what the effects emit in reply. Exactly one provider request is unanswered while a connect is in flight, and none otherwise.
- `metamask_connect_guard.dfy` (module `ConnectGuard`): the guard class. Its `CanLoad` dispatches into the effects object.

Two behaviours of the code worth noting:

- **Spinner after an empty account list.** The spinner is hidden only by `hideSpinner$`, which answers connect success (web3-gateway.effects.ts:131-136), and in `catchError` on a rejected request (web3-gateway.effects.ts:87-89). An empty account list produces only the error message (web3-gateway.effects.ts:75-79). So after it, with a spinner reducer in which the last show or hide wins (see "## Left out"), the spinner stays as it was, as `GatewayProperties.SpinnerAfterConnectSettled` shows.
- **No provider.** With no provider, `this.ethProvider.send` throws before any request exists (web3-gateway.effects.ts:70). The model therefore starts no request on a connect signal, and nothing becomes in flight.

## Model

| member | source | states |
|---|---|---|
| `Address.Canonical` | ClientApp/src/app/core/store/effects/web3-gateway.effects.ts:213-218 | The canonical form has the length of the address and contains no upper-case letter. |
| `Address.CanonicalEqualIff` | ClientApp/src/app/core/store/effects/web3-gateway.effects.ts:205-218 | Two addresses have equal canonical forms exactly when they differ only in letter case, position by position. |
| `Address.CanonicalIdempotent` | ClientApp/src/app/core/store/effects/web3-gateway.effects.ts:213-218 | Canonicalising a canonical address leaves it unchanged. |
| `Address.CanonicalIsCaseVariant` | ClientApp/src/app/core/store/effects/web3-gateway.effects.ts:213-218 | An address and its canonical form differ only in letter case. |
| `GatewayModel.InjectCheck` | ClientApp/src/app/core/store/effects/web3-gateway.effects.ts:53-58 | The verdict is the "Please install MetaMask." error exactly when the provider is absent or not flagged `isMetaMask`. Otherwise it is inject-success. |
| `GatewayModel.AccountsToAction` | ClientApp/src/app/core/store/effects/web3-gateway.effects.ts:74-85 | Connect success is emitted exactly when the granted list is non-empty. Otherwise the result is the "Can't get any user accounts" error. |
| `GatewayModel.ConnectOutcome` | ClientApp/src/app/core/store/effects/web3-gateway.effects.ts:70-90 | Connect success is emitted exactly for a non-empty granted list. The spinner is hidden exactly on rejection. A rejection emits two actions and a resolution emits one. |
| `GatewayModel.ReadOutcome` | ClientApp/src/app/core/store/effects/web3-gateway.effects.ts:151-191 | A read reports an error message exactly when it is rejected. It never touches the spinner and never emits connect success. |
| `GatewayModel.ShouldReload` | ClientApp/src/app/core/store/effects/web3-gateway.effects.ts:202-225 | An empty account list always reloads. A non-empty list never reloads while the stored account is empty. |
| `Address.SameIgnoringCasePointwise` | ClientApp/src/app/core/store/effects/web3-gateway.effects.ts:205-218 | Two spellings are case variants exactly when they have the same length and every position holds the same character up to case. |
| `Address.DifferAt` | ClientApp/src/app/core/store/effects/web3-gateway.effects.ts:213-220 | Spellings whose characters differ at one position, beyond letter case, are different addresses. |
| `GatewayModel.HandleError` | ClientApp/src/app/core/store/effects/web3-gateway.effects.ts:238-241 | A failure is reported as an error message carrying exactly the failure's serialized message. |
| `GatewayModel.Reaction` | ClientApp/src/app/core/store/effects/web3-gateway.effects.ts:47-149 | Only the startup action, connect, disconnect and connect success get replies from the stateless effects, and no reply is itself one of those four, so one round settles a dispatch. Connect shows the spinner. Connect success hides it and never shows it. Nothing else shows it. |
| `GatewayModel.Triggered` | ClientApp/src/app/core/store/effects/web3-gateway.effects.ts:113-191 | An action makes at most one call. Only the redirect navigates to root. Only the redirect and the three read actions make a call at all. None of these effects requests accounts or reloads the page. |
| `GatewayModel.TriggeredAll` | ClientApp/src/app/core/store/effects/web3-gateway.effects.ts:113-191 | The calls triggered by any sequence of actions never include an account request or a page reload. |
| `GatewayModel.Step` | ClientApp/src/app/core/store/effects/web3-gateway.effects.ts:47-236 | The store log and the call log are only ever appended to. Only a connect signal with a provider present starts a request, and only a delivered result ends one. Only an `accountsChanged` event requests a reload, and that event dispatches nothing. |
| `GatewayProperties.ShouldReloadCharacterised` | ClientApp/src/app/core/store/effects/web3-gateway.effects.ts:202-225 | Reload happens exactly when the list is empty, or when an account is stored and it is not the first reported account up to letter case. |
| `GatewayProperties.CaseVariantsNeverReload` | ClientApp/src/app/core/store/effects/web3-gateway.effects.ts:205-224 | When the stored account and the first reported account differ only in letter case, no reload happens. |
| `GatewayProperties.SameAccountExample` | ClientApp/src/app/core/store/effects/web3-gateway.effects.ts:205-218 | With the lower-case spelling `0xd64d…1285` stored, the event's mixed-case spelling `0xd64D…1285` of the same account does not reload. |
| `GatewayProperties.SwitchAndLogoutExamples` | ClientApp/src/app/core/store/effects/web3-gateway.effects.ts:202-225 | With `0xd64d…1285` stored, an event reporting a different account (`0xFDEa…b825`) reloads, and an empty account list reloads. |
| `GatewayProperties.AccountsChangedOutcome` | ClientApp/src/app/core/store/effects/web3-gateway.effects.ts:195-232 | An `accountsChanged` event dispatches nothing and changes no connect or read state. It requests one page reload exactly under the reload condition. |
| `GatewayProperties.StepKeepsInv` | ClientApp/src/app/core/store/effects/web3-gateway.effects.ts:63-149 | Every event keeps two facts. Every logged action is followed by the effects' reply. The number of provider requests equals the delivered results plus one while in flight. |
| `GatewayProperties.RunKeepsInv` | ClientApp/src/app/core/store/effects/web3-gateway.effects.ts:63-149 | The same invariant holds after any runnable sequence of events. |
| `GatewayProperties.SingleFlight` | ClientApp/src/app/core/store/effects/web3-gateway.effects.ts:63-70 | From startup, provider requests equal delivered results plus one exactly while a request is outstanding. So at most one request is ever unanswered. |
| `GatewayProperties.ConnectSignal` | ClientApp/src/app/core/store/effects/web3-gateway.effects.ts:63-70 | A connect signal logs the connect action and the spinner being shown. It starts a request only when none is in flight and a provider exists. While one is in flight, no call is made. |
| `GatewayProperties.RunLogFollowUps` | ClientApp/src/app/core/store/effects/web3-gateway.effects.ts:124-149 | In any run's store log: every connect signal is followed by the spinner being shown; every connect success by hide spinner, then getNetwork, getAccount and getBalance in that order; every disconnect by the not-supported message; the startup action by the injection verdict. |
| `GatewayProperties.StartupCheck` | ClientApp/src/app/core/store/effects/web3-gateway.effects.ts:47-61 | The startup action adds exactly one verdict to the log and changes nothing else. The verdict is inject-success for a MetaMask provider and the install error otherwise. |
| `GatewayProperties.DisconnectOnlyReports` | ClientApp/src/app/core/store/effects/web3-gateway.effects.ts:95-111 | In every state, a disconnect adds only the fixed not-supported message. No other state changes and no call is made. |
| `GatewayProperties.ConnectRejected` | ClientApp/src/app/core/store/effects/web3-gateway.effects.ts:86-89 | A rejected request emits exactly the serialized failure message, then hide spinner, and ends the flight. |
| `GatewayProperties.ConnectGrantedNoAccount` | ClientApp/src/app/core/store/effects/web3-gateway.effects.ts:74-79 | An empty granted list emits exactly the "Can't get any user accounts" error and ends the flight. No connect success and no call follow. |
| `GatewayProperties.ConnectGrantedAccounts` | ClientApp/src/app/core/store/effects/web3-gateway.effects.ts:131-149 | A non-empty granted list emits, in order: connect success, hide spinner, getNetwork, getAccount, getBalance. It starts the three reads and ends the flight. |
| `GatewayProperties.ConnectSettledEndsFlight` | ClientApp/src/app/core/store/effects/web3-gateway.effects.ts:66-91 | Whatever the provider answers, the request is no longer in flight and no new request is made. |
| `GatewayProperties.ReadSettledOutcome` | ClientApp/src/app/core/store/effects/web3-gateway.effects.ts:151-191 | A settled read logs exactly its outcome and clears its pending mark. A failure becomes the serialized message. |
| `GatewayProperties.SpinnerShownOnConnect` | ClientApp/src/app/core/store/effects/web3-gateway.effects.ts:124-129 | After a connect signal the spinner is visible. |
| `GatewayProperties.SpinnerAfterConnectSettled` | ClientApp/src/app/core/store/effects/web3-gateway.effects.ts:74-89 | A rejection or a non-empty granted list leaves the spinner hidden. An empty list leaves it as it was. |
| `Effects.Web3GatewayEffects.constructor` | ClientApp/src/app/core/store/effects/web3-gateway.effects.ts:32-39 | Starts with nothing in flight, nothing pending and empty logs, with the invariant established. |
| `Effects.Web3GatewayEffects.Dispatch` | ClientApp/src/app/core/store/effects/web3-gateway.effects.ts:47-149 | The new state is `Step` of the old one on the dispatched action, and the invariant is kept. A connect signal while in flight makes no call. |
| `Effects.Web3GatewayEffects.SettleConnect` | ClientApp/src/app/core/store/effects/web3-gateway.effects.ts:70-90 | The new state is `Step` of the old one on the result, and the request is no longer in flight. |
| `Effects.Web3GatewayEffects.SettleRead` | ClientApp/src/app/core/store/effects/web3-gateway.effects.ts:151-191 | The new state is `Step` of the old one on the read result, and the invariant is kept. |
| `Effects.Web3GatewayEffects.AccountsChanged` | ClientApp/src/app/core/store/effects/web3-gateway.effects.ts:195-236 | The new state is `Step` of the old one on the event. The event is joined with the account the store holds at that moment. |
| `ConnectGuard.GuardEvents` | ClientApp/src/app/core/guards/metamask-connect.guard.ts:17-26 | Connected: nothing is dispatched. Disconnected: exactly two dispatches, an error message and then the redirect. The guard never dispatches a connect signal. |
| `ConnectGuard.GuardOutcome` | ClientApp/src/app/core/guards/metamask-connect.guard.ts:17-29 | When connected, nothing is dispatched and nothing changes. When disconnected, the log gains exactly the guard's error message and then the redirect, and the router is asked to navigate to root. |
| `ConnectGuard.MetaMaskConnectGuard.constructor` | ClientApp/src/app/core/guards/metamask-connect.guard.ts:11-12 | The guard dispatches into the given store. |
| `ConnectGuard.MetaMaskConnectGuard.CanLoad` | ClientApp/src/app/core/guards/metamask-connect.guard.ts:14-33 | The guard emits exactly one value: the first connected flag, so it denies exactly when disconnected. The store changes exactly as `GuardOutcome` says for that first flag. Later flag values cause nothing. |
| `ConnectGuard.MetaMaskConnectGuard.Deny` | ClientApp/src/app/core/guards/metamask-connect.guard.ts:18-27 | The store log gains exactly the "Không thể kết nối đến tài khoản Ethereum." error and then the redirect. The router is asked to navigate to root. Nothing else changes, and the invariant is kept. |

## Left out

- `utils.getAddress`: the EIP-55 checksum (Keccak hashing) is not modelled, and neither is the error it throws on a malformed address. Canonicalisation is ASCII lower-casing instead.
- GatewayProperties.ShouldReloadCharacterised: it matches `getAddress`, and so does `Address.CanonicalEqualIff`, only for spellings that are `0x` followed by 40 hex digits, which are the spellings the provider and ethers produce. For other spellings the model can differ from the code. Example: `getAddress` gives an address without `0x` and the same address with `0x` one checksum form, so the code does not reload, while the model does. `getAddress` also accepts ICAP spellings, and it throws on a mixed-case spelling with a wrong checksum. The model has neither behaviour.
- `serializeError`: its internals are not modelled. A failure is represented only by the message string it would yield.
- `console.log` calls are left out because they are I/O.
- The network, balance and address reads of `EthersWeb3ProviderService` are foreign calls. They are recorded as `Read` calls, and their outcomes are inputs (`ReadSettled`).
- Router navigation (`connectRedirect$`) and `document.location.reload()` are browser side effects. They are recorded as `NavigateToRoot` and `ReloadPage` calls.
- Cancellation by `switchMap` is not modelled separately. A read started again before its answer keeps a single pending mark, and the result of a superseded read is not distinguished from the current one.
- RxJS and NgRx scheduling is not modelled. When one action triggers several effects, their replies are logged in the order the effects are declared.
- Framework error handling is left out. With no provider, the connect effect's `send` throws, and NgRx's resubscription after that error is not modelled.
- When no provider is injected, `accountWatcher$` is `of(1)` and dispatches nothing. It is modelled as an event source that never fires.
- Provider response shape: the model treats the result of `eth_requestAccounts` as the account list, as the code's type annotation does (web3-gateway.effects.ts:74). The comment at web3-gateway.effects.ts:73 shows `send('eth_requestAccounts')` resolving to a JSON-RPC response object instead, `{ id, jsonrpc, result: [...] }`. On such an object `.length` is undefined, so the empty-list branch (web3-gateway.effects.ts:75-79) would never run and every resolution would emit connect success. This reading of the source was not executed, and the model does not follow it.
- The reducers are not part of this model, except for the one assumption about the spinner reducer stated in the next line. This includes the reducer that sets the connected flag the guard reads, and the reducer that stores the account the watcher compares against. Both values are inputs.
- GatewayModel.SpinnerVisible: the spinner reducer is not part of this model, and `SpinnerVisible` assumes it keeps a single flag set by the latest show or hide. `GatewayProperties.SpinnerShownOnConnect`, `GatewayProperties.SpinnerAfterConnectSettled` and the spinner note above rely on that assumption. A reducer that counts shows against hides would behave differently. `showSpinner$` (web3-gateway.effects.ts:124-129) is not behind `exhaustMap`, so a second connect signal during a flight still emits a show. With a counting reducer, the log connect, show, connect, show, connect success, hide would leave the spinner visible, while the model says it is hidden.
- `GatewayModel.ReadOutcome`: its own contract does not say which success action each read kind produces (network, account or balance success carrying the value). The function definition fixes that mapping, and `GatewayProperties.ReadSettledOutcome` uses it.
- `ClientApp/src/environments/environment.ts` is build configuration with no logic.
- The provider token files are dependency-injection wiring and a `window.ethereum` lookup. They are replaced by the `provider` parameter of the effects class.
- `status-color.model.ts` is a type with no behaviour.
