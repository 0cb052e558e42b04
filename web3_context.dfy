/**
 * The wallet-connection session of the dApp: the `Web3Provider` component's
 * state cells, its connect / disconnect / provider-event / start-up
 * transitions, and the flags and page title derived from the state.
 *
 * Every transition is first given as a function on a `ContextState` value;
 * the class `Web3Provider` then performs it step by step on its fields and
 * is proved to reach exactly that value. Results of calls into the wallet
 * modal, the provider and the compliance service are parameters.
 */
module Web3Context {
  import opened Wrappers
  import opened JsStrings

  /** A raw wallet provider object handed out by the modal, known by its identity. */
  datatype RawProvider = RawProvider(id: nat)

  /**
   * `new ethers.providers.Web3Provider(raw)`, known only by the raw provider it
   * wraps. The code makes a new wrapper object on every bind; as a value, two
   * wrappers of the same raw provider are equal here.
   */
  datatype EthersProvider = EthersProvider(raw: RawProvider)

  /** The web3 state cell: `{}` when empty, four fields once a provider is bound. */
  datatype Web3State = Web3State(
    account: Option<string>,
    ethersProvider: Option<EthersProvider>,
    providerChainId: Option<int>,
    isSanctioned: Option<bool>)
  {
    predicate IsEmpty()
    {
      account.None? && ethersProvider.None? && providerChainId.None? && isSanctioned.None?
    }

    predicate IsFull()
    {
      account.Some? && ethersProvider.Some? && providerChainId.Some? && isSanctioned.Some?
    }

    /** The four fields are all present or all absent. */
    predicate AllOrNothing()
    {
      IsEmpty() || IsFull()
    }

    /**
     * `isConnected`: account, chain id and provider are all truthy, so an
     * empty account or chain id 0 is not connected.
     */
    function IsConnected(): (r: bool)
      ensures r ==> account.Some? && providerChainId.Some? && ethersProvider.Some?
      ensures r ==> account.value != "" && providerChainId.value != 0
    {
      StringTruthy(account) && IntTruthy(providerChainId) && ethersProvider.Some?
    }

    /** The reported `isSanctioned ?? false`. */
    function ReportedSanctioned(): (r: bool)
      ensures r <==> isSanctioned == Some(true)
      ensures isSanctioned.None? ==> !r
    {
      isSanctioned.GetOr(false)
    }
  }

  /** JavaScript truthiness of an optional string. */
  predicate StringTruthy(o: Option<string>)
  {
    o.Some? && o.value != ""
  }

  /** JavaScript truthiness of an optional number. */
  predicate IntTruthy(o: Option<int>)
  {
    o.Some? && o.value != 0
  }

  /** `{}`: the value of the web3 state cell at start and after a disconnect. */
  const EMPTY_STATE := Web3State(None, None, None, None)

  /** For a well-formed state, connected means bound with a non-empty account and a non-zero chain id. */
  lemma ConnectedIffBound(s: Web3State)
    requires s.AllOrNothing()
    ensures s.IsConnected() <==> s.IsFull() && s.account.value != "" && s.providerChainId.value != 0
  {
  }

  /** The two provider events the component subscribes to. */
  datatype ProviderEvent = AccountsChanged | ChainChanged

  /** A handler registered with `modalProvider.on(event, ...)`; it re-binds `provider`. */
  datatype Listener = Listener(event: ProviderEvent, provider: RawProvider)

  /** An entry written to the error log: `logError({ web3ModalError: error })`. */
  datatype LogEntry = Web3ModalError(error: string)

  /** The two listeners one connect registers on a provider, in order. */
  function ListenerPair(prov: RawProvider): (ls: seq<Listener>)
    ensures |ls| == 2 && forall l :: l in ls ==> l.provider == prov
    ensures ls[0].event == AccountsChanged && ls[1].event == ChainChanged
  {
    [Listener(AccountsChanged, prov), Listener(ChainChanged, prov)]
  }

  /** The listener list is a series of pairs, each an `accountsChanged` and a `chainChanged` on one provider. */
  predicate PairedListeners(ls: seq<Listener>)
    decreases |ls|
  {
    ls == [] || (|ls| >= 2 && ls[..2] == ListenerPair(ls[0].provider) && PairedListeners(ls[2..]))
  }

  /** Registering one more pair keeps the listener list a series of pairs. */
  lemma {:induction false} PairedAppend(ls: seq<Listener>, prov: RawProvider)
    requires PairedListeners(ls)
    ensures PairedListeners(ls + ListenerPair(prov))
    decreases |ls|
  {
    if ls == [] {
      assert [] + ListenerPair(prov) == ListenerPair(prov);
      assert ListenerPair(prov)[2..] == [];
    } else {
      PairedAppend(ls[2..], prov);
      var ls' := ls + ListenerPair(prov);
      assert ls'[..2] == ls[..2];
      assert ls'[2..] == ls[2..] + ListenerPair(prov);
    }
  }

  /** In a series of pairs every `chainChanged` listener's provider also has an `accountsChanged` listener. */
  lemma {:induction false} PairedHasBothEvents(ls: seq<Listener>, l: Listener)
    requires PairedListeners(ls) && l in ls
    ensures Listener(AccountsChanged, l.provider) in ls && Listener(ChainChanged, l.provider) in ls
    decreases |ls|
  {
    if l in ls[..2] {
      assert ls[0] == Listener(AccountsChanged, ls[0].provider);
      assert ls[1] == Listener(ChainChanged, ls[0].provider);
    } else {
      assert ls == ls[..2] + ls[2..];
      PairedHasBothEvents(ls[2..], l);
    }
  }

  /** What the awaited calls of one bind settle to. */
  datatype BindReplies = BindReplies(
    address: Outcome<string>,               // `provider.getSigner().getAddress()`
    network: Outcome<int>,                  // `(await provider.getNetwork()).chainId`
    chainalysis: string -> Outcome<bool>)   // `isSanctionedByChainalysis(address)`

  /**
   * The `try` block of `setWeb3Provider`: the state it writes once every
   * await has resolved, or the error of the first await that threw.
   */
  function Bind(prov: RawProvider, replies: BindReplies): (r: Outcome<Web3State>)
    ensures r.Ok? <==>
      replies.address.Ok? && replies.network.Ok? && replies.chainalysis(replies.address.value).Ok?
    ensures r.Ok? ==> r.value.IsFull()
    ensures r.Ok? ==> r.value.account == Some(replies.address.value)
    ensures r.Ok? ==> r.value.ethersProvider == Some(EthersProvider(prov))
    ensures r.Ok? ==> r.value.providerChainId == Some(replies.network.value)
    ensures r.Ok? ==> r.value.isSanctioned == Some(replies.chainalysis(r.value.account.value).value)
    ensures replies.address.Fail? ==> r == Fail(replies.address.error)
    ensures replies.address.Ok? && replies.network.Fail? ==> r == Fail(replies.network.error)
    ensures replies.address.Ok? && replies.network.Ok? && replies.chainalysis(replies.address.value).Fail? ==>
      r == Fail(replies.chainalysis(replies.address.value).error)
  {
    match replies.address
    case Fail(e) => Fail(e)
    case Ok(address) =>
      match replies.network
      case Fail(e) => Fail(e)
      case Ok(chainId) =>
        match replies.chainalysis(address)
        case Fail(e) => Fail(e)
        case Ok(sanctioned) => Ok(Web3State(Some(address), Some(EthersProvider(prov)), Some(chainId), Some(sanctioned)))
  }

  /** Everything the component holds: its three state cells, the modal's cached provider, the listeners, the log. */
  datatype ContextState = ContextState(
    web3State: Web3State,
    isGnosisSafe: bool,
    loading: bool,
    cachedProvider: bool,
    listeners: seq<Listener>,
    log: seq<LogEntry>)

  /** The invariant every transition keeps. */
  predicate WellFormed(s: ContextState)
  {
    s.web3State.AllOrNothing() && PairedListeners(s.listeners)
  }

  /** The state when the component mounts: empty session, not a safe app, loading. */
  function InitialState(cachedProvider: bool): (r: ContextState)
    ensures WellFormed(r)
    ensures r.web3State.IsEmpty() && !r.isGnosisSafe && r.loading && r.cachedProvider == cachedProvider
    ensures r.listeners == [] && r.log == []
  {
    ContextState(EMPTY_STATE, false, true, cachedProvider, [], [])
  }

  /** `logError({ web3ModalError: e })`. */
  function LogError(s: ContextState, e: string): (r: ContextState)
    ensures r.log == s.log + [Web3ModalError(e)]
    ensures r.(log := s.log) == s
  {
    s.(log := s.log + [Web3ModalError(e)])
  }

  /**
   * `setWeb3Provider(prov)`: the session is replaced as a whole once every
   * await has resolved; if one throws, the error is logged and the session
   * keeps its previous value. Nothing else changes.
   */
  function SetWeb3ProviderStep(s: ContextState, prov: RawProvider, replies: BindReplies): (r: ContextState)
    ensures WellFormed(s) ==> WellFormed(r)
    ensures Bind(prov, replies).Fail? ==>
      r.web3State == s.web3State && r.log == s.log + [Web3ModalError(Bind(prov, replies).error)]
    ensures Bind(prov, replies).Ok? ==> r.web3State == Bind(prov, replies).value && r.log == s.log
    ensures r.(web3State := s.web3State, log := s.log) == s
  {
    match Bind(prov, replies)
    case Ok(state) => s.(web3State := state)
    case Fail(e) => LogError(s, e)
  }

  /** `disconnect()`: clears the cached provider, `isGnosisSafe` and the session, and nothing else. */
  function DisconnectStep(s: ContextState): (r: ContextState)
    ensures WellFormed(s) ==> WellFormed(r)
    ensures !r.cachedProvider && !r.isGnosisSafe && r.web3State.IsEmpty() && !r.web3State.IsConnected()
    ensures r.loading == s.loading && r.listeners == s.listeners && r.log == s.log
  {
    s.(cachedProvider := false, isGnosisSafe := false, web3State := EMPTY_STATE)
  }

  /** The body of `connectWeb3` after `requestProvider` resolved with `prov`, up to its `finally`. */
  function AfterRequest(s: ContextState, prov: RawProvider, replies: BindReplies, safeApp: Outcome<bool>): ContextState
  {
    var bound := SetWeb3ProviderStep(s, prov, replies);
    match safeApp
    case Fail(e) => DisconnectStep(LogError(bound, e))
    case Ok(gnosisSafe) =>
      var marked := bound.(isGnosisSafe := gnosisSafe);
      if gnosisSafe then marked else marked.(listeners := marked.listeners + ListenerPair(prov))
  }

  /**
   * `connectWeb3()`: sets `loading`, requests a provider, binds it, asks
   * whether this is a safe app and registers the two listeners only when it
   * is not. A throwing provider request or safe-app check is logged and ends
   * in a full disconnect. `loading` is always cleared at the end.
   */
  function ConnectStep(s: ContextState, request: Outcome<RawProvider>, replies: BindReplies, safeApp: Outcome<bool>)
    : (r: ContextState)
    ensures WellFormed(s) ==> WellFormed(r)
    ensures !r.loading
    ensures request.Fail? || safeApp.Fail? ==>
      !r.cachedProvider && !r.isGnosisSafe && r.web3State.IsEmpty() && r.listeners == s.listeners
    ensures request.Ok? && safeApp.Ok? ==>
      && r.isGnosisSafe == safeApp.value
      && r.cachedProvider == s.cachedProvider
      && r.web3State == SetWeb3ProviderStep(s, request.value, replies).web3State
    ensures r.listeners != s.listeners <==> request.Ok? && safeApp == Ok(false)
    ensures request.Ok? && safeApp == Ok(false) ==> r.listeners == s.listeners + ListenerPair(request.value)
    ensures request.Fail? ==> r.log == s.log + [Web3ModalError(request.error)]
    ensures request.Ok? && safeApp.Fail? ==>
      r.log == SetWeb3ProviderStep(s, request.value, replies).log + [Web3ModalError(safeApp.error)]
    ensures request.Ok? && safeApp.Ok? ==> r.log == SetWeb3ProviderStep(s, request.value, replies).log
  {
    var started := s.(loading := true);
    var settled :=
      match request
      case Fail(e) => DisconnectStep(LogError(started, e))
      case Ok(prov) => AfterRequest(started, prov, replies, safeApp);
    assert WellFormed(s) && request.Ok? && safeApp == Ok(false) ==> WellFormed(settled) by {
      if WellFormed(s) && request.Ok? && safeApp == Ok(false) {
        PairedAppend(s.listeners, request.value);
      }
    }
    assert request.Ok? && safeApp == Ok(false) ==> |settled.listeners| == |s.listeners| + 2;
    settled.(loading := false)
  }

  /**
   * A provider event handler registered by a connect: sets `loading`,
   * re-binds the same raw provider it captured, clears `loading`.
   */
  function EventStep(s: ContextState, l: Listener, replies: BindReplies): (r: ContextState)
    ensures WellFormed(s) ==> WellFormed(r)
    ensures !r.loading
    ensures r.listeners == s.listeners && r.isGnosisSafe == s.isGnosisSafe && r.cachedProvider == s.cachedProvider
    ensures Bind(l.provider, replies).Ok? ==> r.web3State == Bind(l.provider, replies).value
    ensures Bind(l.provider, replies).Ok? ==> r.web3State.ethersProvider == Some(EthersProvider(l.provider))
    ensures Bind(l.provider, replies).Fail? ==> r.web3State == s.web3State
    ensures r.log == SetWeb3ProviderStep(s, l.provider, replies).log
  {
    SetWeb3ProviderStep(s.(loading := true), l.provider, replies).(loading := false)
  }

  /**
   * The start-up `load` effect: connects when the context is a safe app or a
   * provider is cached, otherwise only clears `loading`. If the safe-app
   * check itself rejects, the async `load` stops there and nothing changes.
   */
  function LoadStep(s: ContextState, safeAppAtLoad: Outcome<bool>, request: Outcome<RawProvider>,
                    replies: BindReplies, safeApp: Outcome<bool>): (r: ContextState)
    ensures WellFormed(s) ==> WellFormed(r)
    ensures safeAppAtLoad.Fail? ==> r == s
    ensures safeAppAtLoad.Ok? ==> !r.loading
    ensures safeAppAtLoad.Ok? && !safeAppAtLoad.value && !s.cachedProvider ==> r == s.(loading := false)
  {
    match safeAppAtLoad
    case Fail(_) => s
    case Ok(gnosisSafe) =>
      if gnosisSafe || s.cachedProvider then ConnectStep(s, request, replies, safeApp)
      else s.(loading := false)
  }

  /** Start-up connects exactly when the safe-app check says yes or a provider is cached. */
  lemma StartupConnectsIff(cached: bool, safeAppAtLoad: bool, request: Outcome<RawProvider>,
                           replies: BindReplies, safeApp: Outcome<bool>)
    ensures LoadStep(InitialState(cached), Ok(safeAppAtLoad), request, replies, safeApp) ==
      if safeAppAtLoad || cached then ConnectStep(InitialState(cached), request, replies, safeApp)
      else InitialState(cached).(loading := false)
  {
  }

  /** After a disconnect, a reload outside a safe app does not reconnect: it ends empty and idle. */
  lemma NoRestoreAfterDisconnect(s: ContextState, request: Outcome<RawProvider>, replies: BindReplies, safeApp: Outcome<bool>)
    ensures
      var reloaded := LoadStep(InitialState(DisconnectStep(s).cachedProvider), Ok(false), request, replies, safeApp);
      && reloaded.web3State.IsEmpty() && !reloaded.loading && !reloaded.isGnosisSafe && reloaded.listeners == []
  {
  }

  /**
   * A provider event keeps the connection on the same raw provider: when the
   * session is bound to the provider the handler captured, it stays bound to
   * that provider whether the re-bind succeeds or fails.
   */
  lemma EventKeepsProvider(s: ContextState, l: Listener, replies: BindReplies)
    requires s.web3State.ethersProvider == Some(EthersProvider(l.provider))
    ensures EventStep(s, l, replies).web3State.ethersProvider == Some(EthersProvider(l.provider))
  {
  }

  /**
   * `disconnect` keeps the listeners, so an event on the old provider after a
   * disconnect runs its handler, which binds that provider again.
   */
  lemma EventAfterDisconnectRebinds(s: ContextState, l: Listener, replies: BindReplies)
    requires l in s.listeners
    ensures Apply(DisconnectStep(s), Event(l, replies)) == EventStep(DisconnectStep(s), l, replies)
    ensures Bind(l.provider, replies).Ok? ==>
      Apply(DisconnectStep(s), Event(l, replies)).web3State == Bind(l.provider, replies).value
  {
  }

  /** Whatever a bind's replies, a failed bind only logs: the session is never partially written. */
  lemma BindFailureKeepsSession(s: ContextState, prov: RawProvider, replies: BindReplies)
    requires replies.address.Fail? || replies.network.Fail? || replies.chainalysis(replies.address.value).Fail?
    ensures SetWeb3ProviderStep(s, prov, replies).web3State == s.web3State
    ensures |SetWeb3ProviderStep(s, prov, replies).log| == |s.log| + 1
  {
  }

  /** One thing that can happen to the component once mounted. */
  datatype Action =
    | Connect(request: Outcome<RawProvider>, replies: BindReplies, safeApp: Outcome<bool>)
    | Disconnect
    | Event(listener: Listener, replies: BindReplies)

  /** The effect of one action; an event no registered listener handles changes nothing. */
  function Apply(s: ContextState, a: Action): ContextState
  {
    match a
    case Connect(request, replies, safeApp) => ConnectStep(s, request, replies, safeApp)
    case Disconnect => DisconnectStep(s)
    case Event(l, replies) => if l in s.listeners then EventStep(s, l, replies) else s
  }

  /** The effect of a sequence of actions, in order. */
  function Run(s: ContextState, actions: seq<Action>): ContextState
    decreases |actions|
  {
    if actions == [] then s else Run(Apply(s, actions[0]), actions[1..])
  }

  /**
   * Along any sequence of actions the session stays all-or-nothing and the
   * listeners stay paired; once `loading` is clear no action leaves it set.
   */
  lemma {:induction false} RunPreservesInvariant(s: ContextState, actions: seq<Action>)
    requires WellFormed(s)
    ensures WellFormed(Run(s, actions))
    ensures !s.loading ==> !Run(s, actions).loading
    ensures s.listeners <= Run(s, actions).listeners
    decreases |actions|
  {
    if actions != [] {
      RunPreservesInvariant(Apply(s, actions[0]), actions[1..]);
    }
  }

  /** `isMetamask`: the provider's wallet name is `metamask` and the injected `window.ethereum.isMetaMask` is `true`. */
  function IsMetamask(s: Web3State, walletProviderName: Option<EthersProvider> -> string, injectedIsMetaMask: Option<bool>)
    : (r: bool)
    ensures r ==> walletProviderName(s.ethersProvider) == "metamask"
    ensures injectedIsMetaMask != Some(true) ==> !r
    ensures walletProviderName(s.ethersProvider) == "metamask" && injectedIsMetaMask == Some(true) ==> r
  {
    walletProviderName(s.ethersProvider) == "metamask" && injectedIsMetaMask == Some(true)
  }

  const DEFAULT_TITLE := "OmniBridge"
  const TITLE_REPLACE_STRING := "%c"

  /**
   * `updateTitle`'s choice of title: the default without a (non-empty)
   * `REACT_APP_TITLE`; otherwise the template with its first `%c` replaced by
   * the network name, or the template verbatim when it has no `%c`.
   */
  function Title(appTitle: Option<string>, networkName: string): (r: string)
    ensures !StringTruthy(appTitle) ==> r == DEFAULT_TITLE
    ensures StringTruthy(appTitle) && (forall j :: 0 <= j <= |appTitle.value| ==> !OccursAt(appTitle.value, TITLE_REPLACE_STRING, j))
      ==> r == appTitle.value
  {
    if !StringTruthy(appTitle) then DEFAULT_TITLE
    else
      var t := appTitle.value;
      if IndexOf(t, TITLE_REPLACE_STRING) != -1 then ReplaceFirst(t, TITLE_REPLACE_STRING, networkName) else t
  }

  /** With a `%c` in the template, only the first one is replaced; the rest of the template is kept. */
  lemma TitleReplacesFirstPlaceholder(t: string, networkName: string, i: nat)
    requires OccursAt(t, TITLE_REPLACE_STRING, i)
    requires forall j :: 0 <= j < i ==> !OccursAt(t, TITLE_REPLACE_STRING, j)
    ensures Title(Some(t), networkName) == t[..i] + networkName + t[i + 2..]
  {
    ReplaceFirstSplices(t, TITLE_REPLACE_STRING, networkName, i);
  }

  /** The title effect: recomputed from the chain id only when the chain id is truthy. */
  function TitleAfterChainChange(providerChainId: Option<int>, appTitle: Option<string>,
                                 networkName: int -> string, current: string): (r: string)
    ensures !IntTruthy(providerChainId) ==> r == current
    ensures IntTruthy(providerChainId) ==> r == Title(appTitle, networkName(providerChainId.value))
  {
    if IntTruthy(providerChainId) then Title(appTitle, networkName(providerChainId.value)) else current
  }

  /** The `Web3Provider` component: one field per state cell, plus the modal's cache flag, the listeners and the log. */
  class Web3Provider {
    var web3State: Web3State
    var isGnosisSafe: bool
    var loading: bool
    var cachedProvider: bool        // `web3Modal.cachedProvider` is set
    var listeners: seq<Listener>    // registered with `modalProvider.on`, never removed
    var log: seq<LogEntry>          // what `logError` received

    /** The component's state as a value. */
    function Model(): ContextState
      reads this
    {
      ContextState(web3State, isGnosisSafe, loading, cachedProvider, listeners, log)
    }

    ghost predicate Valid()
      reads this
    {
      WellFormed(Model())
    }

    /** Mounting: `useState({})`, `useState(false)`, `useState(true)`. */
    constructor (cached: bool)
      ensures Valid() && Model() == InitialState(cached)
    {
      web3State := EMPTY_STATE;
      isGnosisSafe := false;
      loading := true;
      cachedProvider := cached;
      listeners := [];
      log := [];
    }

    method SetWeb3Provider(prov: RawProvider, replies: BindReplies)
      requires Valid()
      modifies this`web3State, this`log
      ensures Valid() && Model() == SetWeb3ProviderStep(old(Model()), prov, replies)
    {
      var address := replies.address;
      if address.Fail? {
        log := log + [Web3ModalError(address.error)];
        return;
      }
      var network := replies.network;
      if network.Fail? {
        log := log + [Web3ModalError(network.error)];
        return;
      }
      var sanctioned := replies.chainalysis(address.value);
      if sanctioned.Fail? {
        log := log + [Web3ModalError(sanctioned.error)];
        return;
      }
      web3State := Web3State(Some(address.value), Some(EthersProvider(prov)), Some(network.value), Some(sanctioned.value));
    }

    method Disconnect()
      requires Valid()
      modifies this`cachedProvider, this`isGnosisSafe, this`web3State
      ensures Valid() && Model() == DisconnectStep(old(Model()))
    {
      cachedProvider := false;
      isGnosisSafe := false;
      web3State := EMPTY_STATE;
    }

    method ConnectWeb3(request: Outcome<RawProvider>, replies: BindReplies, safeApp: Outcome<bool>)
      requires Valid()
      modifies this
      ensures Valid() && Model() == ConnectStep(old(Model()), request, replies, safeApp)
    {
      loading := true;
      match request {
        case Fail(e) =>
          log := log + [Web3ModalError(e)];
          Disconnect();
        case Ok(modalProvider) =>
          SetWeb3Provider(modalProvider, replies);
          match safeApp {
            case Fail(e) =>
              log := log + [Web3ModalError(e)];
              Disconnect();
            case Ok(gnosisSafe) =>
              isGnosisSafe := gnosisSafe;
              if !gnosisSafe {
                ghost var before := listeners;
                PairedAppend(before, modalProvider);
                listeners := listeners + [Listener(AccountsChanged, modalProvider)];
                listeners := listeners + [Listener(ChainChanged, modalProvider)];
                assert listeners == before + ListenerPair(modalProvider);
              }
          }
      }
      loading := false;
    }

    /** A registered listener's handler runs. */
    method OnProviderEvent(l: Listener, replies: BindReplies)
      requires Valid() && l in listeners
      modifies this
      ensures Valid() && Model() == EventStep(old(Model()), l, replies)
    {
      loading := true;
      SetWeb3Provider(l.provider, replies);
      loading := false;
    }

    /** The start-up `load` effect. */
    method Load(safeAppAtLoad: Outcome<bool>, request: Outcome<RawProvider>, replies: BindReplies, safeApp: Outcome<bool>)
      requires Valid()
      modifies this
      ensures Valid() && Model() == LoadStep(old(Model()), safeAppAtLoad, request, replies, safeApp)
    {
      match safeAppAtLoad {
        case Fail(_) =>
        case Ok(gnosisSafe) =>
          if gnosisSafe || cachedProvider {
            ConnectWeb3(request, replies, safeApp);
          } else {
            loading := false;
          }
      }
    }
  }
}
