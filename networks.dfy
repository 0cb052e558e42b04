/**
 * The bridge-configuration tables of the dApp and the selection of the
 * enabled bridges from the `REACT_APP_ENABLED_BRIDGES` setting.
 */
module BridgeNetworks {
  import opened Wrappers
  import opened JsStrings

  /** One bridge's static configuration. Addresses are stored lower-cased. */
  datatype BridgeConfig = BridgeConfig(
    bridgeLabel: string,  // `label`
    homeChainId: int,
    foreignChainId: int,
    enableForeignCurrencyBridge: bool,
    homeWrappedForeignCurrencyAddress: Option<string>,  // `null` where there is none
    wrappedForeignCurrencyAddress: string,
    foreignMediatorAddress: string,
    homeMediatorAddress: string,
    foreignAmbAddress: string,
    homeAmbAddress: string,
    foreignGraphName: string,
    homeGraphName: string,
    ambLiveMonitorPrefix: string,
    claimDisabled: bool,
    tokensClaimDisabled: seq<string>)

  const ETH_XDAI_BRIDGE_CONFIG := BridgeConfig(
    "eth⥊gc", 100, 1, true,
    Some(ToLowerCase("0x6A023CCd1ff6F2045C3309768eAd9E68F978f6e1")),
    ToLowerCase("0xc02aaa39b223fe8d0a0e5c4f27ead9083c756cc2"),
    ToLowerCase("0x88ad09518695c6c3712AC10a214bE5109a655671"),
    ToLowerCase("0xf6A78083ca3e2a662D6dd1703c939c8aCE2e268d"),
    ToLowerCase("0x4C36d2919e407f0Cc2Ee3c993ccF8ac26d9CE64e"),
    ToLowerCase("0x75Df5AF045d91108662D8080fD1FEFAd6aA0bb59"),
    "raid-guild/mainnet-omnibridge",
    "raid-guild/xdai-omnibridge",
    "https://alm-xdai.herokuapp.com",
    false, [])

  const BSC_XDAI_BRIDGE_CONFIG := BridgeConfig(
    "bsc⥊gc", 100, 56, true,
    Some(ToLowerCase("0xCa8d20f3e0144a72C6B5d576e9Bd3Fd8557E2B04")),
    ToLowerCase("0xbb4CdB9CBd36B01bD1cBaEBF2De08d9173bc095c"),
    ToLowerCase("0xF0b456250DC9990662a6F25808cC74A6d1131Ea9"),
    ToLowerCase("0x59447362798334d3485c64D1e4870Fde2DDC0d75"),
    ToLowerCase("0x05185872898b6f94AA600177EF41B9334B1FA48B"),
    ToLowerCase("0x162E898bD0aacB578C8D5F8d6ca588c13d2A383F"),
    "maxaleks/bsc-to-xdai-omnibridge",
    "maxaleks/xdai-to-bsc-omnibridge",
    "https://alm-bsc-xdai.herokuapp.com",
    false, [ToLowerCase("0xCa8d20f3e0144a72C6B5d576e9Bd3Fd8557E2B04")])  // Wrapped BNB from BSC

  const POA_XDAI_BRIDGE_CONFIG := BridgeConfig(
    "poa⥊gc", 100, 99, true,
    Some(ToLowerCase("0x9fe3864F9Ae7cfb5668Dae90C0e20c4C3D437664")),
    ToLowerCase("0xD2CFBCDbDF02c42951ad269dcfFa27c02151Cebd"),
    ToLowerCase("0x8134470b7CF6f57Faee2076adf8F7301fD5865a5"),
    ToLowerCase("0x63be59CF177cA9bb317DE8C4aa965Ddda93CB9d7"),
    ToLowerCase("0xB2218bdEbe8e90f80D04286772B0968ead666942"),
    ToLowerCase("0xc2d77d118326c33BBe36EbeAbf4F7ED6BC2dda5c"),
    "dan13ram/poa-to-xdai-omnibridge",
    "dan13ram/xdai-to-poa-omnibridge",
    "https://alm-poa-xdai.herokuapp.com",
    false, [])

  const KOVAN_SOKOL_BRIDGE_CONFIG := BridgeConfig(
    "kovan⥊sokol", 77, 42, true,
    Some(ToLowerCase("0x3D14493DF2B479E6BABE82Fc2373F91622bac025")),
    ToLowerCase("0x89ded978ef13CDBb88c0a5A959B66B552cf3355a"),
    ToLowerCase("0xA960d095470f7509955d5402e36d9DB984B5C8E2"),
    ToLowerCase("0x40CdfF886715A4012fAD0219D15C98bB149AeF0e"),
    ToLowerCase("0xFe446bEF1DbF7AFE24E81e05BC8B271C1BA9a560"),
    ToLowerCase("0xFe446bEF1DbF7AFE24E81e05BC8B271C1BA9a560"),
    "dan13ram/kovan-omnibridge",
    "dan13ram/sokol-omnibridge",
    "https://alm-test-amb.herokuapp.com",
    false, [])

  const ETH_BSC_BRIDGE_CONFIG := BridgeConfig(
    "eth⥊bsc", 56, 1, false,
    None,
    ToLowerCase("0xc02aaa39b223fe8d0a0e5c4f27ead9083c756cc2"),
    ToLowerCase("0x69c707d975e8d883920003CC357E556a4732CD03"),
    ToLowerCase("0xD83893F31AA1B6B9D97C9c70D3492fe38D24d218"),
    ToLowerCase("0x07955be2967B655Cf52751fCE7ccC8c61EA594e2"),
    ToLowerCase("0x6943A218d58135793F1FE619414eD476C37ad65a"),
    "dan13ram/mainnet-to-bsc-omnibridge",
    "dan13ram/bsc-to-mainnet-omnibridge",
    "http://alm-bsc.herokuapp.com",
    false, [])

  const RINKEBY_AMBER_BRIDGE_CONFIG := BridgeConfig(
    "amber⥊rinkeby", 10001, 4, false,
    None,
    ToLowerCase("0xc778417E063141139Fce010982780140Aa0cD5Ab"),
    ToLowerCase("0x892cBeB36D31351b37a567e984d0208eeEf78a68"),
    ToLowerCase("0xf12FD0d3a039Ab4A5000855D5Cb532A76Fb69498"),
    ToLowerCase("0x92860545c57C29d3005755C9342a02DaB2F49ECe"),
    ToLowerCase("0x92860545c57C29d3005755C9342a02DaB2F49ECe"),
    "https://thegraph.mistswap.fi/subgraphs/name/mistswap/rinkeby-amber-omnibridge",
    "https://thegraph.mistswap.fi/subgraphs/name/mistswap/amber-rinkeby-omnibridge",
    "http://159.69.106.180:8080",
    false, [])

  /**
   * The bridge name constants (`ETH_XDAI_BRIDGE`, ...). Their values are
   * defined outside this model, so every table keyed by them takes them
   * as a parameter.
   */
  datatype BridgeNames = BridgeNames(
    ethXdai: string, bscXdai: string, poaXdai: string,
    kovanSokol: string, ethBsc: string, rinkebyAmber: string)
  {
    /** The six names are pairwise different, so no table entry overrides another. */
    predicate Distinct()
    {
      && ethXdai != bscXdai && ethXdai != poaXdai && ethXdai != kovanSokol
      && ethXdai != ethBsc && ethXdai != rinkebyAmber
      && bscXdai != poaXdai && bscXdai != kovanSokol && bscXdai != ethBsc
      && bscXdai != rinkebyAmber
      && poaXdai != kovanSokol && poaXdai != ethBsc && poaXdai != rinkebyAmber
      && kovanSokol != ethBsc && kovanSokol != rinkebyAmber
      && ethBsc != rinkebyAmber
    }
  }

  /** The `bridgeInfo` table: bridge name to configuration. */
  function BridgeInfo(n: BridgeNames): (m: map<string, BridgeConfig>)
    ensures m.Keys == {n.ethXdai, n.bscXdai, n.poaXdai, n.kovanSokol, n.ethBsc, n.rinkebyAmber}
  {
    map[
      n.ethXdai := ETH_XDAI_BRIDGE_CONFIG,
      n.bscXdai := BSC_XDAI_BRIDGE_CONFIG,
      n.poaXdai := POA_XDAI_BRIDGE_CONFIG,
      n.kovanSokol := KOVAN_SOKOL_BRIDGE_CONFIG,
      n.ethBsc := ETH_BSC_BRIDGE_CONFIG,
      n.rinkebyAmber := RINKEBY_AMBER_BRIDGE_CONFIG]
  }

  /** `bridgeInfo[b]`: the configuration, or `undefined` for a name not in the table. */
  function Lookup(info: map<string, BridgeConfig>, b: string): (r: Option<BridgeConfig>)
    ensures r.Some? <==> b in info
    ensures r.Some? ==> r.value == info[b]
  {
    if b in info then Some(info[b]) else None
  }

  /** The whole table, with every entry present. */
  function Whole(info: map<string, BridgeConfig>): (m: map<string, Option<BridgeConfig>>)
    ensures m.Keys == info.Keys
    ensures forall b :: b in m ==> m[b] == Some(info[b])
  {
    map b | b in info :: Some(info[b])
  }

  /**
   * `bridges.reduce((t, b) => ({ ...t, [b]: bridgeInfo[b] }), acc)`: every
   * listed name is added with its lookup; the entries of `acc` for names not
   * listed stay as they were.
   */
  function Reduce(info: map<string, BridgeConfig>, acc: map<string, Option<BridgeConfig>>, bridges: seq<string>)
    : (m: map<string, Option<BridgeConfig>>)
    ensures m.Keys == acc.Keys + set b | b in bridges
    ensures forall b :: b in bridges ==> m[b] == Lookup(info, b)
    ensures forall b :: b in acc && b !in bridges ==> m[b] == acc[b]
    decreases |bridges|
  {
    if bridges == [] then acc
    else
      var b := bridges[0];
      var m := Reduce(info, acc[b := Lookup(info, b)], bridges[1..]);
      assert forall x :: x in bridges <==> x == b || x in bridges[1..];
      m
  }

  /**
   * `getNetworkConfig(bridges)`: the table restricted to the listed names
   * when the list is present and non-empty, the whole table otherwise.
   */
  function GetNetworkConfig(bridges: Option<seq<string>>, info: map<string, BridgeConfig>)
    : (m: map<string, Option<BridgeConfig>>)
    ensures forall b :: b in m && m[b].Some? ==> b in info && m[b].value == info[b]
  {
    if bridges.Some? && |bridges.value| > 0 then Reduce(info, map[], bridges.value)
    else Whole(info)
  }

  /** An absent or empty list selects the whole table. */
  lemma FallbackToWholeTable(bridges: Option<seq<string>>, info: map<string, BridgeConfig>)
    requires bridges.None? || bridges.value == []
    ensures GetNetworkConfig(bridges, info) == Whole(info)
    ensures GetNetworkConfig(bridges, info).Keys == info.Keys
  {
  }

  /**
   * A non-empty list selects exactly the listed names, each mapped to its
   * lookup (`undefined` for an unknown name); no unlisted bridge appears.
   */
  lemma RestrictionToListedNames(bridges: seq<string>, info: map<string, BridgeConfig>)
    requires |bridges| > 0
    ensures GetNetworkConfig(Some(bridges), info).Keys == set b | b in bridges
    ensures forall b :: b in bridges ==> GetNetworkConfig(Some(bridges), info)[b] == Lookup(info, b)
    ensures forall b :: b in info && b !in bridges ==> b !in GetNetworkConfig(Some(bridges), info)
  {
  }

  /** Only the set of listed names matters: duplicates and order do not change the result. */
  lemma {:induction false} ListedSetDecides(xs: seq<string>, ys: seq<string>, info: map<string, BridgeConfig>)
    requires |xs| > 0 && |ys| > 0
    requires forall b :: b in xs <==> b in ys
    ensures GetNetworkConfig(Some(xs), info) == GetNetworkConfig(Some(ys), info)
  {
    var mx := GetNetworkConfig(Some(xs), info);
    var my := GetNetworkConfig(Some(ys), info);
    assert mx.Keys == my.Keys;
    forall b | b in mx ensures mx[b] == my[b] {
      assert b in xs && b in ys;
    }
  }

  /**
   * `ENABLED_BRIDGES`: the setting split on single spaces, each piece
   * lower-cased. An unset variable makes `.split` throw while the module
   * loads; that is `None` here.
   */
  function EnabledBridges(env: Option<string>): (r: Option<seq<string>>)
    ensures r.Some? <==> env.Some?
    ensures r.Some? ==> |r.value| == |Split(env.value, ' ')|
    ensures r.Some? ==> forall i :: 0 <= i < |r.value| ==> r.value[i] == ToLowerCase(Split(env.value, ' ')[i])
  {
    match env
    case None => None
    case Some(s) =>
      var parts := Split(s, ' ');
      Some(seq(|parts|, i requires 0 <= i < |parts| => ToLowerCase(parts[i])))
  }

  /** `networks`: the configuration selected by the setting, or `None` when loading throws. */
  function Networks(env: Option<string>, n: BridgeNames): (r: Option<map<string, Option<BridgeConfig>>>)
    ensures r.Some? <==> env.Some?
    ensures r.Some? ==> r.value.Keys == set b | b in EnabledBridges(env).value
    ensures r.Some? ==> forall b :: b in EnabledBridges(env).value ==> r.value[b] == Lookup(BridgeInfo(n), b)
  {
    match EnabledBridges(env)
    case None => None
    case Some(list) => Some(GetNetworkConfig(Some(list), BridgeInfo(n)))
  }

  /** Every enabled name is lower-case and holds no space. */
  lemma EnabledNamesAreLowerCaseWords(env: string, i: nat)
    requires i < |EnabledBridges(Some(env)).value|
    ensures ' ' !in EnabledBridges(Some(env)).value[i]
    ensures ToLowerCase(EnabledBridges(Some(env)).value[i]) == EnabledBridges(Some(env)).value[i]
  {
    var piece := Split(env, ' ')[i];
    ToLowerCaseIdempotent(piece);
    assert forall j :: 0 <= j < |piece| ==> piece[j] != ' ';
  }

  /**
   * An empty setting yields one empty name, so the list is not empty, the
   * fallback is not taken, and the result has the single key "" (mapped to
   * `undefined` unless some bridge is named "").
   */
  lemma EmptySettingSelectsEmptyName(n: BridgeNames)
    requires n.Distinct()
    ensures EnabledBridges(Some("")) == Some([""])
    ensures Networks(Some(""), n) == Some(map["" := Lookup(BridgeInfo(n), "")])
    ensures Networks(Some(""), n).value != Whole(BridgeInfo(n))
  {
    assert EnabledBridges(Some("")).value == [""];
    var m := Networks(Some(""), n).value;
    assert m.Keys == {""};
    assert n.ethXdai in Whole(BridgeInfo(n));
    assert n.bscXdai in Whole(BridgeInfo(n));
  }

  /** Every bridge configuration connects two different chains. */
  lemma ChainIdsDiffer(n: BridgeNames)
    ensures forall b :: b in BridgeInfo(n) ==> BridgeInfo(n)[b].homeChainId != BridgeInfo(n)[b].foreignChainId
  {
  }

  /** A configuration has a home-side wrapped foreign currency exactly when the foreign-currency bridge is enabled. */
  lemma WrappedCurrencyIffEnabled(n: BridgeNames)
    ensures forall b :: b in BridgeInfo(n) ==>
      (BridgeInfo(n)[b].homeWrappedForeignCurrencyAddress.None? <==> !BridgeInfo(n)[b].enableForeignCurrencyBridge)
  {
  }

  /** A default token record. */
  datatype Token = Token(address: string, chainId: int, symbol: string, name: string)

  /** A `defaultTokens` entry: an explicit record, or `nativeCurrencies[chainId]` (defined outside this model). */
  datatype TokenEntry = Explicit(token: Token) | NativeCurrency(currencyChainId: int)

  /** The `defaultTokens` table: bridge name to chain id to default token. */
  function DefaultTokens(n: BridgeNames): (m: map<string, map<int, TokenEntry>>)
    ensures m.Keys == {n.ethXdai, n.bscXdai, n.poaXdai, n.kovanSokol, n.ethBsc, n.rinkebyAmber}
  {
    map[
      n.ethXdai := map[
        1 := Explicit(Token("0x6810e776880c02933d47db1b9fc05908e5386b96", 1, "GNO", "Gnosis Token")),
        100 := Explicit(Token("0x9c58bacc331c9aa871afd802db6379a98e80cedb", 100, "GNO", "Gnosis Token from Ethereum"))],
      n.kovanSokol := map[
        42 := Explicit(Token("0xFD2df5dCe4c89B007A43CF88d8161dAf1A17C7AB", 42, "STAKE", "STAKE")),
        77 := Explicit(Token("0x408ec1bb883da0ea0fb3c955ea6befcd05aa7c3a", 77, "STAKE", "STAKE on xDai"))],
      n.bscXdai := map[
        56 := Explicit(Token("0xbb4CdB9CBd36B01bD1cBaEBF2De08d9173bc095c", 56, "WBNB", "Wrapped BNB")),
        100 := Explicit(Token("0xCa8d20f3e0144a72C6B5d576e9Bd3Fd8557E2B04", 100, "WBNB", "Wrapped BNB on GC"))],
      n.poaXdai := map[
        99 := NativeCurrency(99),
        100 := Explicit(Token("0x9fe3864F9Ae7cfb5668Dae90C0e20c4C3D437664", 100, "WPOA", "Wrapped POA from POA"))],
      n.ethBsc := map[
        56 := Explicit(Token("0xbb4CdB9CBd36B01bD1cBaEBF2De08d9173bc095c", 56, "WBNB", "Wrapped BNB")),
        1 := Explicit(Token("0x47f29657fd9f76710452208e9b12d8e9745e595c", 1, "WBNB", "Wrapped BNB from BSC"))],
      n.rinkebyAmber := map[
        10001 := Explicit(Token("0x17F4FCF5b6E0A95D4eE331c8529041896A073F9b", 10001, "WBCH", "Wrapped BCH")),
        4 := Explicit(Token("0xc778417E063141139Fce010982780140Aa0cD5Ab", 4, "WETH", "Wrapped ETH from Rinkeby"))]]
  }

  /**
   * Every bridge with default tokens is a configured bridge, and its tokens
   * are keyed by exactly that bridge's home and foreign chain ids.
   */
  lemma DefaultTokensMatchBridges(n: BridgeNames)
    requires n.Distinct()
    ensures DefaultTokens(n).Keys == BridgeInfo(n).Keys
    ensures forall b :: b in DefaultTokens(n) ==>
      DefaultTokens(n)[b].Keys == {BridgeInfo(n)[b].homeChainId, BridgeInfo(n)[b].foreignChainId}
  {
    var tokens, info := DefaultTokens(n), BridgeInfo(n);
    forall b | b in tokens
      ensures tokens[b].Keys == {info[b].homeChainId, info[b].foreignChainId}
    {
      if b == n.ethXdai {
        assert tokens[b].Keys == {1, 100} && info[b] == ETH_XDAI_BRIDGE_CONFIG;
      } else if b == n.bscXdai {
        assert tokens[b].Keys == {56, 100} && info[b] == BSC_XDAI_BRIDGE_CONFIG;
      } else if b == n.poaXdai {
        assert tokens[b].Keys == {99, 100} && info[b] == POA_XDAI_BRIDGE_CONFIG;
      } else if b == n.kovanSokol {
        assert tokens[b].Keys == {42, 77} && info[b] == KOVAN_SOKOL_BRIDGE_CONFIG;
      } else if b == n.ethBsc {
        assert tokens[b].Keys == {56, 1} && info[b] == ETH_BSC_BRIDGE_CONFIG;
      } else {
        assert tokens[b].Keys == {10001, 4} && info[b] == RINKEBY_AMBER_BRIDGE_CONFIG;
      }
    }
  }

  /**
   * Every explicit default token carries the chain id it is keyed by; the
   * only entry not given explicitly is POA's native currency under chain 99.
   */
  lemma DefaultTokenChainIds(n: BridgeNames)
    requires n.Distinct()
    ensures forall b, c :: b in DefaultTokens(n) && c in DefaultTokens(n)[b] && DefaultTokens(n)[b][c].Explicit? ==>
      DefaultTokens(n)[b][c].token.chainId == c
    ensures forall b, c :: b in DefaultTokens(n) && c in DefaultTokens(n)[b] && DefaultTokens(n)[b][c].NativeCurrency? ==>
      b == n.poaXdai && c == 99 && DefaultTokens(n)[b][c].currencyChainId == c
  {
    var tokens: map<string, map<int, TokenEntry>> := DefaultTokens(n);
    forall b: string, c: int | b in tokens && c in tokens[b]
      ensures tokens[b][c].Explicit? ==> tokens[b][c].token.chainId == c
      ensures tokens[b][c].NativeCurrency? ==> b == n.poaXdai && c == 99 && tokens[b][c].currencyChainId == c
    {
      if b == n.ethXdai {
        assert tokens[b].Keys == {1, 100};
      } else if b == n.bscXdai {
        assert tokens[b].Keys == {56, 100};
      } else if b == n.poaXdai {
        assert tokens[b].Keys == {99, 100};
      } else if b == n.kovanSokol {
        assert tokens[b].Keys == {42, 77};
      } else if b == n.ethBsc {
        assert tokens[b].Keys == {56, 1};
      } else {
        assert tokens[b].Keys == {10001, 4};
      }
    }
  }
}
