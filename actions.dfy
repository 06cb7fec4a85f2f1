/**
 * The NgRx actions that the wallet-session effects and the MetaMask route
 * guard consume and produce, and the fixed user-facing texts they carry.
 */
module Actions {

  datatype Action =
    | RootEffectsInit              // ROOT_EFFECTS_INIT: dispatched once, after every root effect is registered
    | EthereumInjectSuccess
    | EthereumConnect
    | EthereumConnectSuccess
    | EthereumDisconnect
    | EthereumConnectRedirect
    | GetNetwork
    | GetAccount
    | GetBalance
    | NetworkSuccess(network: string)
    | AccountSuccess(address: string)
    | BalanceSuccess(balance: string)
    | SpinnerShow
    | SpinnerHide
    | ErrorMessage(errorMsg: string)

  /** Reported at startup when no MetaMask provider is injected. */
  const InstallMetaMask: string := "Please install MetaMask."

  /** Reported when the provider grants access to an empty account list. */
  const NoUserAccounts: string := "Can't get any user accounts"

  /** Reported for every disconnect request: the provider has no programmatic logout. */
  const DisconnectNotSupported: string :=
    "Tính năng này chưa được hỗ trợ. Hãy refresh lại trang web để thoát khỏi tài khoản."

  /** Reported by the route guard when the session is not connected. */
  const CannotConnect: string := "Không thể kết nối đến tài khoản Ethereum."
}
