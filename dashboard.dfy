/**
 * The wallet dashboard page: its pure helpers (address shortening, the token
 * table, the network list and lookup) and the React state it updates step by
 * step (`walletData`, `selectedNetwork`, `loading`, `error`, `isConnected`, and
 * the `walletSession` entry of local storage). The browser wallet, the block
 * explorer and the environment variable `NEXT_PUBLIC_WALLET_TOKEN` are inputs.
 */
module Dashboard {
  import opened Wrappers
  import opened JsString

  datatype Network = Network(
    chainId: string, name: string, symbol: string, rpcUrl: string, blockExplorer: string,
    apiUrl: Option<string>, apiKey: Option<string>, color: string)

  datatype Token = Token(address: string, symbol: string, decimals: nat, balance: string, name: string)

  datatype Transaction = Transaction(
    hash: string, to: string, from: string, value: string, blockNumber: string,
    timeStamp: string, gasUsed: string, gasPrice: string,
    tokenSymbol: Option<string>, tokenName: Option<string>)

  /**
   * The wallet record. `currentNetwork` is optional because a record restored
   * from local storage may lack it; every record the page builds has one.
   */
  datatype WalletData = WalletData(
    account: string, balance: string, transactions: seq<Transaction>, tokens: seq<Token>,
    currentNetwork: Option<Network>)

  const MAX_TRANSACTIONS := 10
  const UNRECOGNIZED_CHAIN := 4902
  const REFRESH_ERROR := "Cannot update data."

  /** The four supported chains; each block-explorer key is the environment's wallet token. */
  function Networks(walletToken: Option<string>): (r: seq<Network>)
    ensures |r| == 4
    ensures forall i :: 0 <= i < |r| ==> r[i].apiUrl.Some? && r[i].apiKey == walletToken
  {
    [ Network("0x1", "Ethereum Mainnet", "ETH", "https://mainnet.infura.io/v3/YOUR_INFURA_KEY",
              "https://etherscan.io", Some("https://api.etherscan.io/api"), walletToken, "#627EEA"),
      Network("0x38", "BSC Mainnet", "BNB", "https://bsc-dataseed1.binance.org/",
              "https://bscscan.com", Some("https://api.bscscan.com/api"), walletToken, "#F3BA2F"),
      Network("0x89", "Polygon Mainnet", "MATIC", "https://polygon-rpc.com/",
              "https://polygonscan.com", Some("https://api.polygonscan.com/api"), walletToken, "#8247E5"),
      Network("0xa86a", "Avalanche C-Chain", "AVAX", "https://api.avax.network/ext/bc/C/rpc",
              "https://snowtrace.io", Some("https://api.snowtrace.io/api"), walletToken, "#E84142") ]
  }

  /** No two supported chains share a chain id. */
  lemma ChainIdsDistinct(walletToken: Option<string>)
    ensures var ns := Networks(walletToken);
      forall i, j :: 0 <= i < j < |ns| ==> ns[i].chainId != ns[j].chainId
  {
    var ns := Networks(walletToken);
    assert ns[0].chainId[2] != ns[1].chainId[2];
    assert ns[0].chainId[2] != ns[2].chainId[2];
    assert ns[0].chainId[2] != ns[3].chainId[2];
    assert ns[1].chainId[2] != ns[2].chainId[2];
    assert ns[1].chainId[2] != ns[3].chainId[2];
    assert ns[2].chainId[2] != ns[3].chainId[2];
  }

  /** The first network whose chain id is `chainId`, if any. */
  function FindNetwork(networks: seq<Network>, chainId: string): (r: Option<Network>)
    ensures r.Some? ==> r.value in networks && r.value.chainId == chainId
    ensures r.None? <==> forall n :: n in networks ==> n.chainId != chainId
    decreases |networks|
  {
    if networks == [] then None
    else if networks[0].chainId == chainId then Some(networks[0])
    else FindNetwork(networks[1..], chainId)
  }

  /** With distinct chain ids, looking up a network's own id finds that network. */
  lemma {:induction false} FindOwnChainId(networks: seq<Network>, i: nat)
    requires i < |networks|
    requires forall j, k :: 0 <= j < k < |networks| ==> networks[j].chainId != networks[k].chainId
    ensures FindNetwork(networks, networks[i].chainId) == Some(networks[i])
    decreases |networks|
  {
    if i > 0 {
      assert networks[0].chainId != networks[i].chainId;
      FindOwnChainId(networks[1..], i - 1);
    }
  }

  /** The `commonTokens` table of `getTokenBalances`. */
  function CommonTokens(): map<string, seq<Token>> {
    map[
      "0x1" := [ Token("0xA0b86a33E6441b8C4505E2E0c41ad4b88c0E8Ac0", "USDT", 6, "0", "Tether USD"),
                 Token("0xA0b73E1Ff0B80914AB6fe0444E65848C4C34450b", "USDC", 6, "0", "USD Coin") ],
      "0x38" := [ Token("0x55d398326f99059fF775485246999027B3197955", "USDT", 18, "0", "Tether USD"),
                  Token("0x8AC76a51cc950d9822D68b83fE1Ad97B32Cd580d", "USDC", 18, "0", "USD Coin") ]
    ]
  }

  /** `getTokenBalances(address, network)`: a table lookup by chain id; the address is not used. */
  function TokenBalances(address: string, network: Network): (r: seq<Token>)
    ensures forall t :: t in r ==> t.balance == "0"
    ensures |r| == 2 <==> network.chainId in {"0x1", "0x38"}
    ensures network.chainId !in {"0x1", "0x38"} ==> r == []
  {
    var table := CommonTokens();
    if network.chainId in table then table[network.chainId] else []
  }

  /** The token list depends on the network alone: any two addresses get the same list. */
  lemma TokenBalancesIgnoreAddress(a1: string, a2: string, network: Network)
    ensures TokenBalances(a1, network) == TokenBalances(a2, network)
  {
  }

  /** A JavaScript string-or-undefined used as a condition: only a non-empty string is true. */
  predicate Truthy(s: Option<string>) {
    s.Some? && s.value != ""
  }

  /** The block explorer's answer: a thrown request, a missing `result`, or the list it holds. */
  datatype TxFetch = FetchFailed | NoResult | Fetched(result: seq<Transaction>)

  /** The `transactions` of `refreshData`: at most the first ten of the explorer's list, in its order. */
  function RecentTransactions(network: Network, fetch: TxFetch): (r: seq<Transaction>)
    ensures |r| <= MAX_TRANSACTIONS
    ensures !(Truthy(network.apiUrl) && Truthy(network.apiKey)) ==> r == []
    ensures !fetch.Fetched? ==> r == []
    ensures fetch.Fetched? ==> r <= fetch.result
    ensures fetch.Fetched? && Truthy(network.apiUrl) && Truthy(network.apiKey) ==>
      |r| == if |fetch.result| < MAX_TRANSACTIONS then |fetch.result| else MAX_TRANSACTIONS
  {
    if Truthy(network.apiUrl) && Truthy(network.apiKey) then
      match fetch
      case Fetched(result) =>
        SlicePrefix(result, MAX_TRANSACTIONS);
        Slice(result, 0, MAX_TRANSACTIONS)
      case _ => []
    else []
  }

  /** The wallet data after a refresh: address kept, balance, transactions, tokens and network replaced. */
  function Refreshed(w: WalletData, network: Network, balance: string, fetch: TxFetch): (r: WalletData)
    ensures r.account == w.account && r.balance == balance
    ensures r.currentNetwork == Some(network)
    ensures r.tokens == TokenBalances(w.account, network)
    ensures r.transactions == RecentTransactions(network, fetch)
    ensures |r.transactions| <= MAX_TRANSACTIONS
  {
    w.(balance := balance,
       transactions := RecentTransactions(network, fetch),
       tokens := TokenBalances(w.account, network),
       currentNetwork := Some(network))
  }

  /** `formatAddress`: the first six characters, "...", and the last four. */
  function FormatAddress(address: string): (r: string)
    ensures |address| >= 10 ==> |r| == 13
  {
    SlicePrefix(address, 6);
    SliceSuffix(address, 4);
    Slice(address, 0, 6) + "..." + Slice(address, -4, |address|)
  }

  /** For any length, `slice` clamps: the head is at most six characters and the tail at most four. */
  lemma FormatAddressShape(address: string)
    ensures var n := |address|;
      var p := if n < 6 then n else 6;
      var q := if n < 4 then n else 4;
      var r := FormatAddress(address);
      && |r| == p + 3 + q
      && r[..p] == address[..p]
      && r[p..p + 3] == "..."
      && r[p + 3..] == address[n - q..]
  {
    SlicePrefix(address, 6);
    SliceSuffix(address, 4);
  }

  /** The empty address shortens to "...". */
  lemma FormatEmptyAddress()
    ensures FormatAddress("") == "..."
  {
    assert Slice("", 0, 6) == [] && Slice("", -4, 0) == [];
  }

  /** What local storage holds under `walletSession`, as `JSON.parse` sees it. */
  datatype Stored = Absent | Unparseable | StoredNull | Saved(data: WalletData)

  datatype SwitchOutcome = Switched | SwitchFailed(code: Option<int>)

  /** The page's React state and its local-storage entry. */
  datatype HomeState = HomeState(
    walletData: Option<WalletData>, loading: bool, error: Option<string>,
    isConnected: bool, selectedNetwork: Network, stored: Stored)

  function InitialState(networks: seq<Network>, stored: Stored): HomeState
    requires |networks| > 0
  {
    HomeState(None, false, None, false, networks[0], stored)
  }

  /** The mount effect that restores a saved session. */
  function RestoreStep(s: HomeState, networks: seq<Network>): (r: HomeState)
    requires |networks| > 0
    ensures r.loading == s.loading && r.error == s.error
    ensures s.stored.Absent? ==> r == s
    ensures s.stored.Saved? ==>
      && r.walletData == Some(s.stored.data) && r.isConnected && r.stored == s.stored
      && (s.stored.data.currentNetwork.Some? ==> r.selectedNetwork == s.stored.data.currentNetwork.value)
      && (s.stored.data.currentNetwork.None? ==> r.selectedNetwork == networks[0])
    ensures !s.stored.Saved? ==> r.stored == Absent && r.isConnected == s.isConnected
  {
    match s.stored
    case Absent => s
    case Unparseable => s.(stored := Absent)
    case StoredNull => s.(walletData := None, stored := Absent)
    case Saved(w) =>
      s.(walletData := Some(w), selectedNetwork := w.currentNetwork.GetOr(networks[0]), isConnected := true)
  }

  /** `refreshData(network?)`; `balance` is `None` when reading the balance throws. */
  function RefreshStep(s: HomeState, network: Option<Network>, balance: Option<string>, fetch: TxFetch): (r: HomeState)
    ensures r.selectedNetwork == s.selectedNetwork && r.isConnected == s.isConnected
    ensures s.walletData.Some? ==> !r.loading
  {
    match s.walletData
    case None => s
    case Some(w) =>
      var current := network.GetOr(s.selectedNetwork);
      match balance
      case None => s.(loading := false, error := Some(REFRESH_ERROR))
      case Some(b) =>
        var updated := Refreshed(w, current, b, fetch);
        s.(walletData := Some(updated), stored := Saved(updated), loading := false)
  }

  /** `switchNetwork(network)`: ask the wallet to switch, add the chain when it is unknown (code 4902), then refresh. */
  function SwitchStep(s: HomeState, network: Network, hasWallet: bool, outcome: SwitchOutcome,
                      addSucceeded: bool, balance: Option<string>, fetch: TxFetch): (r: HomeState)
    ensures !hasWallet ==> r == s
    ensures hasWallet && outcome.Switched? && s.walletData.Some? ==>
      r == RefreshStep(s.(selectedNetwork := network), Some(network), balance, fetch)
    ensures hasWallet && outcome.Switched? ==> r.selectedNetwork == network
    ensures hasWallet && outcome.Switched? && s.walletData.None? ==> r == s.(selectedNetwork := network)
    ensures hasWallet && outcome.SwitchFailed? && outcome.code != Some(UNRECOGNIZED_CHAIN) ==>
      r == s.(error := Some("Cannot switch to " + network.name))
  {
    if !hasWallet then s
    else if outcome.Switched? || (outcome.code == Some(UNRECOGNIZED_CHAIN) && addSucceeded) then
      var switched := s.(selectedNetwork := network);
      if s.walletData.Some? then RefreshStep(switched, Some(network), balance, fetch) else switched
    else if outcome.code == Some(UNRECOGNIZED_CHAIN) then s.(error := Some("Cannot add network " + network.name))
    else s.(error := Some("Cannot switch to " + network.name))
  }

  /** The network selector: switch only when the chosen chain id names a known network. */
  function SelectStep(s: HomeState, networks: seq<Network>, chainId: string, hasWallet: bool,
                      outcome: SwitchOutcome, addSucceeded: bool, balance: Option<string>, fetch: TxFetch): (r: HomeState)
    ensures (forall n :: n in networks ==> n.chainId != chainId) ==> r == s
  {
    match FindNetwork(networks, chainId)
    case None => s
    case Some(n) => SwitchStep(s, n, hasWallet, outcome, addSucceeded, balance, fetch)
  }

  /** `disconnect()`: forget the wallet (local storage is left as it is). */
  function DisconnectStep(s: HomeState): (r: HomeState)
    ensures r.walletData.None? && !r.isConnected && r.stored == s.stored
    ensures r.loading == s.loading && r.error == s.error && r.selectedNetwork == s.selectedNetwork
  {
    s.(walletData := None, isConnected := false)
  }

  /** Without wallet data, `refreshData` does nothing at all. */
  lemma RefreshNoOpWithoutWallet(s: HomeState, network: Option<Network>, balance: Option<string>, fetch: TxFetch)
    requires s.walletData.None?
    ensures RefreshStep(s, network, balance, fetch) == s
  {
  }

  /**
   * A successful refresh keeps the account, records the network it used, stores
   * exactly the new wallet data under `walletSession`, and keeps at most the
   * first ten transactions the explorer listed.
   */
  lemma RefreshUpdatesAndSaves(s: HomeState, network: Option<Network>, b: string, fetch: TxFetch)
    requires s.walletData.Some?
    ensures var r := RefreshStep(s, network, Some(b), fetch);
      var used := network.GetOr(s.selectedNetwork);
      && r.walletData.Some? && r.stored == Saved(r.walletData.value)
      && r.walletData.value.account == s.walletData.value.account
      && r.walletData.value.balance == b
      && r.walletData.value == Refreshed(s.walletData.value, used, b, fetch)
      && r.walletData.value.currentNetwork == Some(used)
      && r.walletData.value.tokens == TokenBalances(s.walletData.value.account, used)
      && r.walletData.value.transactions == RecentTransactions(used, fetch)
      && |r.walletData.value.transactions| <= MAX_TRANSACTIONS
      && (fetch.Fetched? ==> r.walletData.value.transactions <= fetch.result)
      && r.error == s.error
  {
  }

  /** Transactions are fetched only for a network with both an API URL and an API key. */
  lemma NoTransactionsWithoutApi(s: HomeState, network: Network, b: string, fetch: TxFetch)
    requires s.walletData.Some?
    requires !(Truthy(network.apiUrl) && Truthy(network.apiKey))
    ensures RefreshStep(s, Some(network), Some(b), fetch).walletData.value.transactions == []
  {
  }

  /** A failed balance read leaves the wallet data and storage alone and reports the refresh error. */
  lemma RefreshFailureReported(s: HomeState, network: Option<Network>, fetch: TxFetch)
    requires s.walletData.Some?
    ensures var r := RefreshStep(s, network, None, fetch);
      r.walletData == s.walletData && r.stored == s.stored && r.error == Some(REFRESH_ERROR)
  {
  }

  /** A restored record without a network selects the first supported network. */
  lemma RestoreFallsBackToFirstNetwork(s: HomeState, networks: seq<Network>, w: WalletData)
    requires |networks| > 0 && s.stored == Saved(w) && w.currentNetwork.None?
    ensures var r := RestoreStep(s, networks);
      r.selectedNetwork == networks[0] && r.walletData == Some(w) && r.isConnected
  {
  }

  /**
   * A saved entry that cannot be read is removed; a saved `null` also clears the wallet data.
   * Connection flag and selected network are kept.
   */
  lemma RestoreDiscardsUnreadable(s: HomeState, networks: seq<Network>)
    requires |networks| > 0 && s.stored in {Unparseable, StoredNull}
    ensures var r := RestoreStep(s, networks);
      && r.stored == Absent && r.isConnected == s.isConnected && r.selectedNetwork == s.selectedNetwork
      && (s.stored == Unparseable ==> r.walletData == s.walletData)
      && (s.stored == StoredNull ==> r.walletData.None?)
  {
  }

  /** An unknown chain the wallet refuses to add leaves only an error message naming the network. */
  lemma AddRefusedReportsError(s: HomeState, network: Network, balance: Option<string>, fetch: TxFetch)
    ensures SwitchStep(s, network, true, SwitchFailed(Some(UNRECOGNIZED_CHAIN)), false, balance, fetch)
         == s.(error := Some("Cannot add network " + network.name))
    ensures SwitchStep(s, network, true, SwitchFailed(Some(UNRECOGNIZED_CHAIN)), false, balance, fetch).selectedNetwork
         == s.selectedNetwork
  {
  }

  /** A wallet that refuses the switch for any reason but an unknown chain leaves only an error message. */
  lemma SwitchRefusedReportsError(s: HomeState, network: Network, code: Option<int>, addSucceeded: bool,
                                  balance: Option<string>, fetch: TxFetch)
    requires code != Some(UNRECOGNIZED_CHAIN)
    ensures SwitchStep(s, network, true, SwitchFailed(code), addSucceeded, balance, fetch)
         == s.(error := Some("Cannot switch to " + network.name))
  {
  }

  /** An unknown chain that the wallet then adds is switched to, exactly as a direct switch would. */
  lemma AddedChainSwitches(s: HomeState, network: Network, balance: Option<string>, fetch: TxFetch)
    ensures SwitchStep(s, network, true, SwitchFailed(Some(UNRECOGNIZED_CHAIN)), true, balance, fetch)
         == SwitchStep(s, network, true, Switched, false, balance, fetch)
    ensures SwitchStep(s, network, true, Switched, false, balance, fetch).selectedNetwork == network
  {
  }

  /** Selecting a supported chain switches to that very network. */
  lemma SelectKnownChain(s: HomeState, walletToken: Option<string>, i: nat, hasWallet: bool,
                         outcome: SwitchOutcome, addSucceeded: bool, balance: Option<string>, fetch: TxFetch)
    requires i < 4
    ensures var ns := Networks(walletToken);
      SelectStep(s, ns, ns[i].chainId, hasWallet, outcome, addSucceeded, balance, fetch)
        == SwitchStep(s, ns[i], hasWallet, outcome, addSucceeded, balance, fetch)
  {
    ChainIdsDistinct(walletToken);
    FindOwnChainId(Networks(walletToken), i);
  }

  /** The page component, holding its state the way React does between renders. */
  class Home {
    const networks: seq<Network>
    var walletData: Option<WalletData>
    var loading: bool
    var error: Option<string>
    var isConnected: bool
    var selectedNetwork: Network
    /** The `walletSession` entry of local storage. */
    var stored: Stored

    function State(): HomeState
      reads this
    {
      HomeState(walletData, loading, error, isConnected, selectedNetwork, stored)
    }

    constructor (walletToken: Option<string>, stored: Stored)
      ensures networks == Networks(walletToken)
      ensures State() == InitialState(Networks(walletToken), stored)
    {
      networks := Networks(walletToken);
      walletData := None;
      loading := false;
      error := None;
      isConnected := false;
      selectedNetwork := Networks(walletToken)[0];
      this.stored := stored;
    }

    method RestoreSession()
      requires |networks| > 0
      modifies this
      ensures State() == RestoreStep(old(State()), networks)
    {
      match stored
      case Absent =>
      case Unparseable =>
        stored := Absent;
      case StoredNull =>
        walletData := None;
        stored := Absent;
      case Saved(w) =>
        walletData := Some(w);
        selectedNetwork := w.currentNetwork.GetOr(networks[0]);
        isConnected := true;
    }

    method RefreshData(network: Option<Network>, balance: Option<string>, fetch: TxFetch)
      modifies this
      ensures State() == RefreshStep(old(State()), network, balance, fetch)
    {
      if walletData.None? {
        return;
      }
      var w := walletData.value;
      var current := network.GetOr(selectedNetwork);
      loading := true;
      if balance.None? {
        error := Some(REFRESH_ERROR);
      } else {
        var updated := Refreshed(w, current, balance.value, fetch);
        walletData := Some(updated);
        stored := Saved(updated);
      }
      loading := false;
    }

    method SwitchNetwork(network: Network, hasWallet: bool, outcome: SwitchOutcome, addSucceeded: bool,
                         balance: Option<string>, fetch: TxFetch)
      modifies this
      ensures State() == SwitchStep(old(State()), network, hasWallet, outcome, addSucceeded, balance, fetch)
    {
      if !hasWallet {
        return;
      }
      if outcome.Switched? || (outcome.code == Some(UNRECOGNIZED_CHAIN) && addSucceeded) {
        selectedNetwork := network;
        if walletData.Some? {
          RefreshData(Some(network), balance, fetch);
        }
      } else if outcome.code == Some(UNRECOGNIZED_CHAIN) {
        error := Some("Cannot add network " + network.name);
      } else {
        error := Some("Cannot switch to " + network.name);
      }
    }

    method SelectNetwork(chainId: string, hasWallet: bool, outcome: SwitchOutcome, addSucceeded: bool,
                         balance: Option<string>, fetch: TxFetch)
      modifies this
      ensures State() == SelectStep(old(State()), networks, chainId, hasWallet, outcome, addSucceeded, balance, fetch)
    {
      var found := FindNetwork(networks, chainId);
      if found.Some? {
        SwitchNetwork(found.value, hasWallet, outcome, addSucceeded, balance, fetch);
      }
    }

    method Disconnect()
      modifies this
      ensures State() == DisconnectStep(old(State()))
    {
      walletData := None;
      isConnected := false;
    }
  }
}
