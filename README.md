# OmniBridge dApp: wallet-connection session and bridge configuration

This project is a Dafny model of two parts of the OmniBridge browser dApp.

- **The wallet-connection session** (`packages/dapp/src/contexts/Web3Context.jsx`). The `Web3Provider` component holds a web3 state cell with `account`, `ethersProvider`, `providerChainId` and `isSanctioned`. It also holds the flags `isGnosisSafe` and `loading`. It talks to a wallet modal that remembers a cached provider. It registers `accountsChanged` / `chainChanged` listeners on the raw provider, and it reports failures to an error log.
  - Module `Web3Context` first defines each transition as a function on a `ContextState` value: `SetWeb3ProviderStep`, `ConnectStep`, `DisconnectStep`, `EventStep`, `LoadStep` and `InitialState`.
  - The class `Web3Context.Web3Provider` then runs the same transitions step by step on one field per state cell. Each method is proved to reach exactly the value the matching function gives.
  - The derived flags `isConnected`, `isMetamask` and `isSanctioned ?? false` are pure functions, and so is the page-title rule.
- **The bridge configuration** (`packages/dapp/src/lib/networks.js`). Module `BridgeNetworks` holds:
  - the six `*_BRIDGE_CONFIG` records, the `bridgeInfo` table and the `defaultTokens` table;
  - `getNetworkConfig`, written as the `reduce` it is;
  - the derivation of `ENABLED_BRIDGES` from `REACT_APP_ENABLED_BRIDGES`.
- `JsStrings` models the JavaScript string operations these depend on: `indexOf`, `replace` with a string pattern, `split` and `toLowerCase`. `Wrappers` holds `Option`, used for `undefined`, and `Outcome`, used for an awaited call that resolves or throws.

External results are method and function parameters. These are `requestProvider`, `getAddress`, `getNetwork`, the Chainalysis lookup (a function from address to outcome), `isSafeApp`, `getNetworkName`, `getWalletProviderName`, `window.ethereum.isMetaMask` and the environment variables. The bridge name constants (`ETH_XDAI_BRIDGE`, …) and `nativeCurrencies` come from `lib/constants`, which is not part of this model. The names are a `BridgeNames` parameter, and the tables are functions of it. `nativeCurrencies[99]` is kept as a reference, `NativeCurrency(99)`.

Behaviour of the code worth noting, which the model keeps:
- The wallet-kind check compares `getWalletProviderName(...) === 'metamask'` exactly. It is not case-insensitive.
- There is no re-entrancy guard or generation token around concurrent connects.
- A throwing Chainalysis lookup aborts the whole bind. The session then keeps its previous value; it is not written with `isSanctioned` left unresolved.
- A bind that fails inside `connectWeb3` is swallowed by `setWeb3Provider`. No reset follows. If the safe-app check then returns false, listeners are still registered on the provider.
- The session is written only after the Chainalysis lookup resolves. So `isConnected` becomes true together with `isSanctioned`, not before the lookup settles.
- `disconnect` keeps the registered listeners. A later `accountsChanged` or `chainChanged` event on the old provider therefore binds it again and fills the session after the disconnect.
- If `isSafeApp()` rejects during the start-up `load`, the async function stops there with nothing caught. `loading` stays `true`.

## Model

| member | source | states |
|---|---|---|
| `JsStrings.IndexOf` | packages/dapp/src/contexts/Web3Context.jsx:34 | the result is the first index where the pattern occurs (no earlier occurrence), or -1 exactly when it occurs nowhere |
| `JsStrings.ReplaceFirst` | packages/dapp/src/contexts/Web3Context.jsx:35 | a string with no occurrence of the pattern is returned unchanged |
| `JsStrings.ReplaceFirstSplices` | packages/dapp/src/contexts/Web3Context.jsx:35 | at the first occurrence, the pattern is replaced and the text before and after stays verbatim |
| `JsStrings.Split` | packages/dapp/src/lib/networks.js:156 | splitting yields at least one piece and no piece holds the separator |
| `JsStrings.JoinSplit` | packages/dapp/src/lib/networks.js:156 | joining the pieces with the separator gives back the original string (split loses nothing) |
| `JsStrings.SplitJoin` | packages/dapp/src/lib/networks.js:156 | splitting a join of separator-free pieces gives back those pieces |
| `JsStrings.LowerChar` | packages/dapp/src/lib/networks.js:157 | an upper-case ASCII letter becomes its own lower-case letter, and every other character is kept |
| `JsStrings.ToLowerCase` | packages/dapp/src/lib/networks.js:157 | the result has the same length, and each character is lower-cased in place |
| `JsStrings.ToLowerCaseIdempotent` | packages/dapp/src/lib/networks.js:157 | lower-casing twice equals lower-casing once |
| `BridgeNetworks.BridgeInfo` | packages/dapp/src/lib/networks.js:160-167 | the table's keys are exactly the six bridge names |
| `BridgeNetworks.Lookup` | packages/dapp/src/lib/networks.js:171 | `bridgeInfo[b]` is defined exactly for names in the table, with that entry |
| `BridgeNetworks.Whole` | packages/dapp/src/lib/networks.js:173 | the whole table, with the same keys and every entry present |
| `BridgeNetworks.Reduce` | packages/dapp/src/lib/networks.js:171 | the fold adds exactly the listed names, each mapped to its lookup, and keeps the accumulator's other entries |
| `BridgeNetworks.GetNetworkConfig` | packages/dapp/src/lib/networks.js:169-174 | every configuration in the result is `bridgeInfo`'s own entry for that name |
| `BridgeNetworks.FallbackToWholeTable` | packages/dapp/src/lib/networks.js:169-174 | an absent or empty list yields the whole table |
| `BridgeNetworks.RestrictionToListedNames` | packages/dapp/src/lib/networks.js:170-171 | with a non-empty list the keys are exactly the listed names, each mapped to `bridgeInfo[name]` (undefined when unknown), and no unlisted bridge appears |
| `BridgeNetworks.ListedSetDecides` | packages/dapp/src/lib/networks.js:171 | two non-empty lists with the same names, in any order and with any duplicates, give the same result |
| `BridgeNetworks.EnabledBridges` | packages/dapp/src/lib/networks.js:156-158 | the list is the setting split on single spaces, with each piece lower-cased; an unset setting throws |
| `BridgeNetworks.Networks` | packages/dapp/src/lib/networks.js:169-176 | `networks` is defined exactly when the setting is; its keys are then exactly the enabled names, each mapped to `bridgeInfo[name]`, so the whole-table fallback is never reached once the setting is set (a split always has a piece) |
| `BridgeNetworks.EnabledNamesAreLowerCaseWords` | packages/dapp/src/lib/networks.js:156-158 | every enabled name is free of spaces and already lower-case |
| `BridgeNetworks.EmptySettingSelectsEmptyName` | packages/dapp/src/lib/networks.js:156-171 | an empty setting yields the single name "", so the result is `{"": bridgeInfo[""]}` and not the whole table |
| `BridgeNetworks.ChainIdsDiffer` | packages/dapp/src/lib/networks.js:22-154 | every bridge configuration has different home and foreign chain ids |
| `BridgeNetworks.WrappedCurrencyIffEnabled` | packages/dapp/src/lib/networks.js:22-154 | `homeWrappedForeignCurrencyAddress` is null exactly when `enableForeignCurrencyBridge` is false |
| `BridgeNetworks.DefaultTokens` | packages/dapp/src/lib/networks.js:178-257 | the table has an entry for each of the six bridges; with `DefaultTokensMatchBridges` and `DefaultTokenChainIds` its chain-id keys are each bridge's home and foreign chains, and each explicit token's `chainId` equals its key |
| `BridgeNetworks.DefaultTokensMatchBridges` | packages/dapp/src/lib/networks.js:178-257 | `defaultTokens` covers exactly the configured bridges, and each bridge's tokens are keyed by exactly its home and foreign chain ids |
| `BridgeNetworks.DefaultTokenChainIds` | packages/dapp/src/lib/networks.js:178-257 | every explicit token's `chainId` equals its key; the only other entry is POA's native currency under 99 |
| `Web3Context.Web3State.IsConnected` | packages/dapp/src/contexts/Web3Context.jsx:187-190 | connected implies account, chain id and provider are present, with a non-empty account and a non-zero chain id |
| `Web3Context.Web3State.ReportedSanctioned` | packages/dapp/src/contexts/Web3Context.jsx:203 | the reported flag is true exactly when the lookup said true, and false while it is absent |
| `Web3Context.ConnectedIffBound` | packages/dapp/src/contexts/Web3Context.jsx:187-190 | for an all-or-nothing state, connected holds iff bound with a non-empty account and a non-zero chain id |
| `Web3Context.ListenerPair` | packages/dapp/src/contexts/Web3Context.jsx:148-157 | one connect registers two listeners, `accountsChanged` then `chainChanged`, both on the provider it was given |
| `Web3Context.PairedAppend` | packages/dapp/src/contexts/Web3Context.jsx:147-158 | registering another pair keeps the listener list a series of `accountsChanged` / `chainChanged` pairs |
| `Web3Context.PairedHasBothEvents` | packages/dapp/src/contexts/Web3Context.jsx:147-158 | any provider with a registered listener has both an `accountsChanged` and a `chainChanged` listener |
| `Web3Context.Bind` | packages/dapp/src/contexts/Web3Context.jsx:110-118 | the bind succeeds iff address, network and Chainalysis lookup all resolve, and then writes all four fields from those results (with the lookup made on the bound address); otherwise the error of the first call that threw (address, then network, then Chainalysis) is reported |
| `Web3Context.InitialState` | packages/dapp/src/contexts/Web3Context.jsx:102-107 | at mount the session is empty, `isGnosisSafe` is false, `loading` is true and there are no listeners |
| `Web3Context.SetWeb3ProviderStep` | packages/dapp/src/contexts/Web3Context.jsx:109-122 | the session stays all-or-nothing; a failed bind keeps the old session and logs; a successful one writes exactly the account, provider, chain id and sanction flag just fetched; nothing else changes |
| `Web3Context.DisconnectStep` | packages/dapp/src/contexts/Web3Context.jsx:130-134 | clears the cached provider, `isGnosisSafe` and the session; `loading`, listeners and log are unchanged |
| `Web3Context.ConnectStep` | packages/dapp/src/contexts/Web3Context.jsx:136-165 | `loading` ends false; a throwing request or safe-app check ends fully disconnected; otherwise `isGnosisSafe` is the check's answer and the session is the bind's; listeners change iff the request worked and the context is not a safe app, and then exactly one pair on that provider is added; a throwing request logs its error, a throwing safe-app check logs its error after whatever the bind logged, and otherwise the log is the bind's |
| `Web3Context.EventStep` | packages/dapp/src/contexts/Web3Context.jsx:148-157 | a handler ends with `loading` false, re-binds the provider it captured, on a successful re-bind writes exactly the newly fetched account, chain id and sanction flag on that provider, logs exactly what the re-bind logs (one entry on failure), and leaves the listeners, `isGnosisSafe` and the cache alone |
| `Web3Context.LoadStep` | packages/dapp/src/contexts/Web3Context.jsx:171-177 | a rejected safe-app check changes nothing; otherwise `loading` ends false, and with no safe app and no cache only `loading` changes |
| `Web3Context.StartupConnectsIff` | packages/dapp/src/contexts/Web3Context.jsx:171-177 | from the mounted state, start-up connects iff the context is a safe app or a provider is cached; otherwise it only clears `loading` |
| `Web3Context.NoRestoreAfterDisconnect` | packages/dapp/src/contexts/Web3Context.jsx:130-177 | after a disconnect, a reload outside a safe app does not reconnect: the session is empty, not loading, not a safe app, with no listeners |
| `Web3Context.EventKeepsProvider` | packages/dapp/src/contexts/Web3Context.jsx:148-157 | an event on the bound provider leaves the session bound to that same raw provider, whether the re-bind succeeds or fails |
| `Web3Context.EventAfterDisconnectRebinds` | packages/dapp/src/contexts/Web3Context.jsx:130-157 | after a disconnect, an event on a still-registered listener binds its provider again, and a successful bind writes the freshly fetched session |
| `Web3Context.BindFailureKeepsSession` | packages/dapp/src/contexts/Web3Context.jsx:109-121 | when any lookup throws, the session is unchanged and exactly one error is logged |
| `Web3Context.RunPreservesInvariant` | packages/dapp/src/contexts/Web3Context.jsx:101-178 | along any sequence of connects, disconnects and handled events, the session stays all-or-nothing, the listeners stay paired and the old list is always a prefix of the new one (none is removed or replaced), and a clear `loading` stays clear |
| `Web3Context.IsMetamask` | packages/dapp/src/contexts/Web3Context.jsx:180-185 | true iff the wallet name is `metamask` and `window.ethereum.isMetaMask` is `true`; a spoofed name without the flag gives false |
| `Web3Context.Title` | packages/dapp/src/contexts/Web3Context.jsx:25-40 | without a non-empty `REACT_APP_TITLE` the title is `OmniBridge`; a template with no `%c` is used verbatim |
| `Web3Context.TitleReplacesFirstPlaceholder` | packages/dapp/src/contexts/Web3Context.jsx:31-35 | with a `%c` in the template, only its first occurrence is replaced by the network name |
| `Web3Context.TitleAfterChainChange` | packages/dapp/src/contexts/Web3Context.jsx:124-128 | the title is recomputed from the chain id only when the chain id is truthy, and otherwise left as it was |
| `Web3Context.Web3Provider.constructor` | packages/dapp/src/contexts/Web3Context.jsx:101-107 | the mounted component's fields are the initial state |
| `Web3Context.Web3Provider.SetWeb3Provider` | packages/dapp/src/contexts/Web3Context.jsx:109-122 | the fields are updated exactly as `SetWeb3ProviderStep`, touching only the web3 state and the log |
| `Web3Context.Web3Provider.Disconnect` | packages/dapp/src/contexts/Web3Context.jsx:130-134 | the fields are updated exactly as `DisconnectStep`, touching only the cache flag, `isGnosisSafe` and the web3 state |
| `Web3Context.Web3Provider.ConnectWeb3` | packages/dapp/src/contexts/Web3Context.jsx:136-165 | the fields are updated exactly as `ConnectStep`, keeping the invariant |
| `Web3Context.Web3Provider.OnProviderEvent` | packages/dapp/src/contexts/Web3Context.jsx:148-157 | a registered handler updates the fields exactly as `EventStep` |
| `Web3Context.Web3Provider.Load` | packages/dapp/src/contexts/Web3Context.jsx:167-178 | the start-up effect updates the fields exactly as `LoadStep` |

## Left out

- React machinery (`useState`, `useCallback`, `useMemo`, `useEffect`, the context object and JSX rendering). State cells are class fields and effects are explicit calls. Each await-sequence is one method call, so the `loading = true` between the awaits of one connect is not observable.
- Wallet adapter libraries (Web3Modal, WalletConnect, WalletLink, `connector`, `providerOptions`, lines 53-99). They are abstracted into the outcome of `requestProvider`.
- The `rpc` endpoint table (lines 42-51). It is configuration with no behaviour.
- The `window.ethereum.autoRefreshOnNetworkChange = false` write (lines 168-170). It is a browser global with no effect on the session.
- The record of the chosen provider that Web3Modal keeps on a successful connect (`cacheProvider: true`). This happens inside the library, so `cachedProvider` is only an input at mount and is cleared by disconnect.
- `new ethers.providers.Web3Provider(prov)` and `getSigner()`. They are taken not to throw, and failures of the signer are folded into the `getAddress` outcome.
- Concurrency. Overlapping connects and handler runs are not modelled. There is no generation token either, because the code has none. One emitted event runs every handler registered for it, and the model runs each handler as its own call.
- Listener removal. It does not exist in the code.
- Logging detail. `logError` is modelled as appending `Web3ModalError(error)` to a log, and errors are their messages.
- `ETH_SMARTBCH_BRIDGE` and the re-exports of the bridge names (networks.js lines 1-20). They are imports with no entry in these tables.
- The values of the bridge name constants and of `nativeCurrencies`. They are defined outside these files, so they are a parameter and a reference.
- Web3Context.ConnectStep: `modalProvider.on(...)` is taken never to throw. In the code it sits inside the `try`, so a provider without `.on` would be logged and disconnected, and a throw from the second `.on` would leave one unpaired listener; the model always registers both, and `PairedListeners` relies on that.
- Web3Context.Web3Provider.ConnectWeb3: the same: the two `.on` calls are taken never to throw.
- BridgeNetworks.ListedSetDecides: the result is a map, so it holds up to the order of the object's keys. In JavaScript the key order of `networks` follows the order of the list.
- BridgeNetworks.Lookup: `bridgeInfo[b]` in JavaScript also reads inherited properties, so a listed name such as `constructor` or `__proto__` yields an `Object.prototype` member. The model returns `None` (`undefined`) for every name not in the table.
- JsStrings.ToLowerCase: lower-cases ASCII letters only. JavaScript's `toLowerCase` also maps other Unicode letters.
- JsStrings.ReplaceFirst: the replacement is inserted literally. JavaScript's `replace` would interpret `$` patterns in the network name.
- Web3Context.IntTruthy: a chain id of `NaN` is not modelled. Chain ids are integers here.
