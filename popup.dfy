// The popup's session-facing steps: the network shown on load, the selected
// account's details, and the network switch with its optional account refresh.
// Rendering is left out; what would be rendered is returned.
module Popup {
  import opened Basics
  import opened Session
  import opened KaspaUtils
  import opened AccountHandlers

  const MainnetUrl: string := "wss://eu-1.kaspa-ng.io/mainnet"
  const TestnetUrl: string := "wss://eu-1.kaspa-ng.io/testnet-10"

  /** The endpoint switchNetwork picks for a network name. */
  function NetworkUrl(network: string): string {
    if network == "mainnet" then MainnetUrl else TestnetUrl
  }

  /** The payload switchNetwork sends: the network and its endpoint, nothing else. */
  function NetworkPatch(network: string): Patch {
    NoChange.(network := Given(Some(network)), kaspaApiUrl := Given(Some(NetworkUrl(network))))
  }

  /** The network loadNetwork selects: the session's, or "testnet-11" when unset. */
  function LoadedNetwork(s: SessionData): string {
    if Truthy(s.network) then s.network.value else "testnet-11"
  }

  /** What reloadAccountDetails shows; reading a missing account's name throws (`SelectionMissing`). */
  datatype DetailsView = NoAccounts | Showing(account: Account, heading: string) | SelectionMissing

  function ShownAccount(s: SessionData): DetailsView {
    if |s.accounts| == 0 then NoAccounts
    else if 1 <= s.currentAccountSelected <= |s.accounts|
    then Showing(s.accounts[s.currentAccountSelected - 1], "Account #" + DecimalString(s.currentAccountSelected))
    else SelectionMissing
  }

  /** reloadAccountDetails: read the session and show the 1-based selected account. */
  method ReloadAccountDetails(store: SessionStore) returns (view: DetailsView)
    ensures view.NoAccounts? <==> |store.Data().accounts| == 0
    ensures view == ShownAccount(store.Data())
  {
    var sessionData := store.Get();
    if |sessionData.accounts| > 0 {
      var index := sessionData.currentAccountSelected - 1;
      if 0 <= index < |sessionData.accounts| {
        view := Showing(sessionData.accounts[index], "Account #" + DecimalString(sessionData.currentAccountSelected));
      } else {
        view := SelectionMissing;
      }
    } else {
      view := NoAccounts;
    }
  }

  /** The steps switchNetwork takes, in order. */
  datatype NetworkStep =
    | NetworkPatchSent(network: string, kaspaApiUrl: string)
    | ClientReconnected
    | AccountsReloaded
    | DetailsRefreshed
    | FailureReported

  /**
   * The guarded part of switchNetwork: rebuild the RPC client for the session's
   * endpoint and network, reload the accounts and refresh the details; the first
   * failure is reported and ends it. `connects`, `decrypts`, `keys` and
   * `balances` are what the SDK, the cipher and the balance query answer.
   */
  method RefreshAfterSwitch(store: SessionStore, storage: LocalStorage, rpc: RpcSlot, now: int,
                            connects: bool, decrypts: bool, keys: seq<DerivedKey>, balances: Option<seq<nat>>)
    returns (steps: seq<NetworkStep>, broadcasts: seq<Event>)
    requires store.Valid() && HasCredentials(store.Data())
    requires |keys| == AccountSlots
    requires balances.Some? ==> |balances.value| == AccountSlots
    modifies store, storage, rpc
    ensures store.Valid()
    ensures rpc.client == Some(RpcClient(old(store.Data()).kaspaApiUrl, NetworkIdFor(old(store.Data()).network), connects))
    ensures !(connects && decrypts && balances.Some?) ==>
      && store.Data() == old(store.Data()) && storage.accountLength == old(storage.accountLength)
      && broadcasts == []
      && steps == (if connects then [ClientReconnected, FailureReported] else [FailureReported])
    ensures connects && decrypts && balances.Some? ==>
      var s := old(store.Data());
      && store.Data() == s.(accounts := Visible(CreateAccounts(keys), balances.value, old(storage.accountLength)),
                            lastActivityTime := now)
      && storage.accountLength == NextStoredAsWritten(balances.value, old(storage.accountLength))
      && broadcasts == (if Truthy(s.network) && Truthy(s.kaspaApiUrl) then [NetworkUpdated(s.kaspaApiUrl.value)] else [])
      && steps == [ClientReconnected, AccountsReloaded,
                   if ShownAccount(store.Data()).SelectionMissing? then FailureReported else DetailsRefreshed]
  {
    // initKaspa
    var current := store.Get();
    var connected := rpc.UpdateRpcClient(current.kaspaApiUrl, current.network, connects);
    if !connected {
      return [FailureReported], [];
    }
    var reload, events := ReloadAccounts(store, storage, decrypts, keys, balances, now);
    if reload.ReloadFailed? {
      return [ClientReconnected, FailureReported], [];
    }
    var view := ReloadAccountDetails(store);
    steps := [ClientReconnected, AccountsReloaded, if view.SelectionMissing? then FailureReported else DetailsRefreshed];
    broadcasts := events;
  }

  /**
   * switchNetwork: read the session, send the network patch, and only when the
   * session read first held both credentials run `RefreshAfterSwitch`. A failure
   * there is reported; the patch stays.
   */
  method SwitchNetwork(store: SessionStore, storage: LocalStorage, rpc: RpcSlot, network: string, now: int,
                       connects: bool, decrypts: bool, keys: seq<DerivedKey>, balances: Option<seq<nat>>)
    returns (steps: seq<NetworkStep>, broadcasts: seq<Event>)
    requires store.Valid()
    requires |keys| == AccountSlots
    requires balances.Some? ==> |balances.value| == AccountSlots
    modifies store, storage, rpc
    ensures store.Valid()
    ensures |steps| >= 1 && steps[0] == NetworkPatchSent(network, NetworkUrl(network))
    ensures store.Data().network == Some(network) && store.Data().kaspaApiUrl == Some(NetworkUrl(network))
    ensures store.Data().encryptedSeed == old(store.Data()).encryptedSeed
    ensures store.Data().password == old(store.Data()).password
    ensures network == "" <==> broadcasts == []
    ensures var announce := if network != "" then [NetworkUpdated(NetworkUrl(network))] else [];
      broadcasts == if HasCredentials(old(store.Data())) && connects && decrypts && balances.Some?
                    then announce + announce else announce
    ensures !HasCredentials(old(store.Data())) ==>
      && steps == [NetworkPatchSent(network, NetworkUrl(network))]
      && store.Data() == Merged(old(store.Data()), NetworkPatch(network), now)
      && storage.accountLength == old(storage.accountLength)
      && rpc.client == old(rpc.client)
    ensures HasCredentials(old(store.Data())) ==>
      rpc.client == Some(RpcClient(Some(NetworkUrl(network)), NetworkIdFor(Some(network)), connects))
    ensures HasCredentials(old(store.Data())) && !(connects && decrypts && balances.Some?) ==>
      && steps == [NetworkPatchSent(network, NetworkUrl(network))] +
                  (if connects then [ClientReconnected, FailureReported] else [FailureReported])
      && store.Data() == Merged(old(store.Data()), NetworkPatch(network), now)
      && storage.accountLength == old(storage.accountLength)
    ensures HasCredentials(old(store.Data())) && connects && decrypts && balances.Some? ==>
      && store.Data() == Merged(old(store.Data()), NetworkPatch(network), now).(
           accounts := Visible(CreateAccounts(keys), balances.value, old(storage.accountLength)))
      && storage.accountLength == NextStoredAsWritten(balances.value, old(storage.accountLength))
      && steps == [NetworkPatchSent(network, NetworkUrl(network)), ClientReconnected, AccountsReloaded,
                   if ShownAccount(store.Data()).SelectionMissing? then FailureReported else DetailsRefreshed]
  {
    var sessionData := store.Get();
    var kaspaApiUrl := NetworkUrl(network);
    var _, sent := store.Set(NetworkPatch(network), now);
    steps := [NetworkPatchSent(network, kaspaApiUrl)];
    broadcasts := sent;

    if Truthy(sessionData.encryptedSeed) && Truthy(sessionData.password) {
      var more, events := RefreshAfterSwitch(store, storage, rpc, now, connects, decrypts, keys, balances);
      steps, broadcasts := steps + more, broadcasts + events;
    }
  }

  // ---- Properties across the popup and the store ----

  /** The endpoint and the RPC network id agree on mainnet, and only there. */
  lemma EndpointMatchesNetworkId(network: string)
    ensures NetworkUrl(network) == MainnetUrl <==> NetworkIdFor(Some(network)) == "mainnet"
    ensures NetworkUrl(network) in {MainnetUrl, TestnetUrl}
  {
  }

  /** A fresh session loads "testnet-11"; after a switch to a named network, loading selects that network. */
  lemma LoadAfterSwitch(s: SessionData, network: string, now: int, t: int)
    ensures LoadedNetwork(Initial(t)) == "testnet-11"
    ensures LoadedNetwork(Merged(s, NetworkPatch(network), now)) == if network != "" then network else "testnet-11"
    ensures !Truthy(s.network) ==> LoadedNetwork(s) == "testnet-11"
  {
  }

  /** Selecting list position i and then reloading the details shows account i as "Account #(i+1)". */
  lemma SwitchThenShow(s: SessionData, i: nat, now: int)
    requires i < |s.accounts|
    ensures ShownAccount(Merged(s, SelectionPatch(i + 1), now)) == Showing(s.accounts[i], "Account #" + DecimalString(i + 1))
  {
  }

  /** For discovered accounts the popup's label and the selected account's own name agree. */
  lemma {:induction false} LabelMatchesDiscoveredName(s: SessionData, keys: seq<DerivedKey>, balances: seq<nat>, accountLength: Option<nat>)
    requires |keys| == AccountSlots && |balances| == AccountSlots
    requires s.accounts == Visible(CreateAccounts(keys), balances, accountLength)
    ensures ShownAccount(s).Showing? ==> ShownAccount(s).heading == ShownAccount(s).account.name
    ensures ShownAccount(s).Showing? <==> 1 <= s.currentAccountSelected <= |s.accounts|
  {
    VisibleCovers(CreateAccounts(keys), balances, accountLength);
    CreatedAccountsNamed(keys);
  }
}
