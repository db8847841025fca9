// Account discovery and its surroundings: the reverse gap scan over the 25
// derived accounts, the durable account count, account naming, the RPC client
// slot and the guarded account reload. Key derivation, decryption and the
// balance query belong to the wallet SDK; their results arrive as parameters.
module KaspaUtils {
  import opened Basics
  import opened Session

  /** The number of accounts derived from a seed. */
  const AccountSlots: nat := 25

  /** One key pair as the SDK derives it. */
  datatype DerivedKey = DerivedKey(address: string, privateKey: string)

  /** The display name of the account at a 0-based index. */
  function AccountName(index: nat): string {
    "Account #" + DecimalString(index + 1)
  }

  /** Accounts built from derived keys, named by their 1-based position. */
  function CreateAccounts(keys: seq<DerivedKey>): seq<Account> {
    seq(|keys|, i requires 0 <= i < |keys| => Account(AccountName(i), keys[i].address, keys[i].privateKey, None))
  }

  lemma AccountNamesDistinct(i: nat, j: nat)
    requires AccountName(i) == AccountName(j)
    ensures i == j
  {
    var prefix := "Account #";
    assert AccountName(i)[|prefix|..] == DecimalString(i + 1);
    assert AccountName(j)[|prefix|..] == DecimalString(j + 1);
    DecimalStringInjective(i + 1, j + 1);
  }

  /** Created accounts keep the key order, carry no balance yet, and have pairwise distinct names. */
  lemma CreatedAccountsNamed(keys: seq<DerivedKey>)
    ensures |CreateAccounts(keys)| == |keys|
    ensures forall i :: 0 <= i < |keys| ==>
      CreateAccounts(keys)[i].name == "Account #" + DecimalString(i + 1) &&
      CreateAccounts(keys)[i].address == keys[i].address &&
      CreateAccounts(keys)[i].privateKey == keys[i].privateKey &&
      CreateAccounts(keys)[i].balance.None?
    ensures forall i, j :: 0 <= i < j < |keys| ==> CreateAccounts(keys)[i].name != CreateAccounts(keys)[j].name
  {
    forall i, j | 0 <= i < j < |keys|
      ensures CreateAccounts(keys)[i].name != CreateAccounts(keys)[j].name
    {
      if AccountName(i) == AccountName(j) {
        AccountNamesDistinct(i, j);
      }
    }
  }

  /** The network id the RPC client is built with. */
  function NetworkIdFor(network: JsString): string {
    if network == Some("mainnet") then "mainnet" else "testnet-11"
  }

  lemma NetworkIdChoice(network: JsString)
    ensures NetworkIdFor(network) in {"mainnet", "testnet-11"}
    ensures NetworkIdFor(network) == "mainnet" <==> network == Some("mainnet")
  {
  }

  // ---- The reverse gap scan ----

  /** The highest index below `n` holding a positive balance, or 0 when there is none. */
  function HighestFunded(balances: seq<nat>, n: nat): (r: nat)
    requires n <= |balances|
    ensures n == 0 ==> r == 0
    ensures n > 0 ==> r < n
    ensures r == 0 || balances[r] > 0
    ensures forall j :: r < j < n ==> balances[j] == 0
  {
    if n == 0 then 0
    else if balances[n - 1] > 0 then n - 1
    else HighestFunded(balances, n - 1)
  }

  /** `foundBalanceIndex` at the end of the scan. */
  function FoundBalanceIndex(balances: seq<nat>): nat
    requires |balances| == AccountSlots
  {
    HighestFunded(balances, AccountSlots)
  }

  /** The stored account count; a missing entry compares as 0. */
  function StoredCount(accountLength: Option<nat>): nat {
    accountLength.GetOr(0)
  }

  /** How many accounts the scan keeps: up to the larger of the found index and the stored count minus one. */
  function VisibleCount(found: nat, accountLength: Option<nat>): nat {
    Min(AccountSlots, Max(found + 1, StoredCount(accountLength)))
  }

  function WithBalance(a: Account, balance: nat): Account {
    a.(balance := Some(balance))
  }

  /** The accounts discovery shows: a prefix, in ascending order, each with its balance. */
  function Visible(accounts: seq<Account>, balances: seq<nat>, accountLength: Option<nat>): seq<Account>
    requires |accounts| == AccountSlots && |balances| == AccountSlots
  {
    var n := VisibleCount(FoundBalanceIndex(balances), accountLength);
    seq(n, i requires 0 <= i < n => WithBalance(accounts[i], balances[i]))
  }

  /**
   * The stored count after a pass, as the wallet computes it: raised to found + 1
   * only when the found index itself exceeds the stored count.
   */
  function NextStoredAsWritten(balances: seq<nat>, accountLength: Option<nat>): (r: Option<nat>)
    requires |balances| == AccountSlots
    ensures StoredCount(r) >= StoredCount(accountLength)
    ensures StoredCount(accountLength) <= AccountSlots ==> StoredCount(r) <= AccountSlots
    ensures r == accountLength || StoredCount(r) == FoundBalanceIndex(balances) + 1
  {
    var found := FoundBalanceIndex(balances);
    if found > StoredCount(accountLength) then Some(found + 1) else accountLength
  }

  /**
   * The corrected count: raised to found + 1 whenever that exceeds the stored
   * count, so that it counts every account the pass shows.
   */
  function NextStored(balances: seq<nat>, accountLength: Option<nat>): (r: Option<nat>)
    requires |balances| == AccountSlots
    ensures StoredCount(r) == Max(FoundBalanceIndex(balances) + 1, StoredCount(accountLength))
    ensures StoredCount(accountLength) >= FoundBalanceIndex(balances) + 1 ==> r == accountLength
  {
    var found := FoundBalanceIndex(balances);
    if found + 1 > StoredCount(accountLength) then Some(found + 1) else accountLength
  }

  function Reverse<T>(s: seq<T>): seq<T> {
    seq(|s|, k requires 0 <= k < |s| => s[|s| - 1 - k])
  }

  /** Reversal only reorders: it keeps every element with its multiplicity, and undoes itself. */
  lemma {:induction false} ReversePermutes<T>(s: seq<T>)
    ensures multiset(Reverse(s)) == multiset(s)
    ensures Reverse(Reverse(s)) == s
    decreases |s|
  {
    if s != [] {
      var init := s[..|s| - 1];
      assert Reverse(s) == [s[|s| - 1]] + Reverse(init);
      assert s == init + [s[|s| - 1]];
      ReversePermutes(init);
    }
  }

  /**
   * filterAccountsByBalance: scan the 25 balances from index 24 down, collect the
   * accounts to show, then reverse them into ascending order. Returns the shown
   * accounts and the account count to store.
   */
  method FilterAccountsByBalance(accounts: seq<Account>, balances: seq<nat>, accountLength: Option<nat>)
    returns (accountsWithBalance: seq<Account>, storedLength: Option<nat>)
    requires |accounts| == AccountSlots && |balances| == AccountSlots
    ensures accountsWithBalance == Visible(accounts, balances, accountLength)
    ensures storedLength == NextStoredAsWritten(balances, accountLength)
  {
    ghost var top := FoundBalanceIndex(balances);
    var stored: int := StoredCount(accountLength);
    ghost var last := Min(AccountSlots - 1, Max(top, stored - 1));
    var collected: seq<Account> := [];
    var foundBalanceIndex: nat := 0;
    var i := AccountSlots as int - 1;
    while i >= 0
      invariant -1 <= i < AccountSlots
      invariant foundBalanceIndex == if top > i then top else 0
      invariant |collected| == if last > i then last - i else 0
      invariant forall t :: 0 <= t < |collected| ==> collected[t] == WithBalance(accounts[last - t], balances[last - t])
    {
      var balance := balances[i];
      if foundBalanceIndex == 0 && balance > 0 {
        foundBalanceIndex := i;
      }
      if i <= foundBalanceIndex || i <= stored - 1 {
        collected := collected + [WithBalance(accounts[i], balance)];
      }
      i := i - 1;
    }
    storedLength := if foundBalanceIndex > stored then Some(foundBalanceIndex + 1) else accountLength;
    accountsWithBalance := Reverse(collected);
  }

  // ---- What discovery promises ----

  /** The shown prefix always holds account 0, every funded account and the stored count (up to 25). */
  lemma VisibleCovers(accounts: seq<Account>, balances: seq<nat>, accountLength: Option<nat>)
    requires |accounts| == AccountSlots && |balances| == AccountSlots
    ensures var v := Visible(accounts, balances, accountLength);
      && 1 <= |v| <= AccountSlots
      && v[0] == WithBalance(accounts[0], balances[0])
      && (forall i :: 0 <= i < AccountSlots && balances[i] > 0 ==> i < |v|)
      && Min(AccountSlots, StoredCount(accountLength)) <= |v|
      && (forall i :: 0 <= i < |v| ==> v[i] == WithBalance(accounts[i], balances[i]))
  {
  }

  /** The shown prefix is no longer than it must be: its last account is funded, or within the stored count, or account 0. */
  lemma VisibleIsTight(accounts: seq<Account>, balances: seq<nat>, accountLength: Option<nat>)
    requires |accounts| == AccountSlots && |balances| == AccountSlots
    ensures var n := |Visible(accounts, balances, accountLength)|;
      n == 1 || balances[n - 1] > 0 || n <= StoredCount(accountLength)
  {
  }

  /** Balances positive exactly at 0..k-1 with stored count c show indices 0..max(k-1, c-1). */
  lemma FundedPrefixDiscovery(accounts: seq<Account>, balances: seq<nat>, k: nat, c: nat)
    requires |accounts| == AccountSlots && |balances| == AccountSlots
    requires 1 <= k <= AccountSlots && c <= AccountSlots
    requires forall i :: 0 <= i < k ==> balances[i] > 0
    requires forall i :: k <= i < AccountSlots ==> balances[i] == 0
    ensures FoundBalanceIndex(balances) == k - 1
    ensures |Visible(accounts, balances, Some(c))| == Max(k, c)
  {
    assert balances[k - 1] > 0;
  }

  /** Balance positive only at index 5 and a stored count of 1: six accounts shown, count 6 stored. */
  lemma OnlyIndexFiveFunded(accounts: seq<Account>, balances: seq<nat>)
    requires |accounts| == AccountSlots && |balances| == AccountSlots
    requires balances[5] > 0
    requires forall i :: 0 <= i < AccountSlots && i != 5 ==> balances[i] == 0
    ensures |Visible(accounts, balances, Some(1))| == 6
    ensures NextStoredAsWritten(balances, Some(1)) == Some(6)
  {
    assert FoundBalanceIndex(balances) == 5;
  }

  /** Nothing funded: exactly the stored count of accounts (at least one), and the entry is left as it was, missing or not. */
  lemma NothingFunded(accounts: seq<Account>, balances: seq<nat>, accountLength: Option<nat>)
    requires |accounts| == AccountSlots && |balances| == AccountSlots
    requires forall i :: 0 <= i < AccountSlots ==> balances[i] == 0
    ensures |Visible(accounts, balances, accountLength)| == Min(AccountSlots, Max(1, StoredCount(accountLength)))
    ensures NextStoredAsWritten(balances, accountLength) == accountLength
  {
  }

  /** After a pass the stored count is exactly the number of accounts it showed (while the count is at most 25). */
  lemma StoredCountMatchesShown(accounts: seq<Account>, balances: seq<nat>, accountLength: Option<nat>)
    requires |accounts| == AccountSlots && |balances| == AccountSlots
    requires StoredCount(accountLength) <= AccountSlots
    ensures StoredCount(NextStored(balances, accountLength)) == |Visible(accounts, balances, accountLength)|
  {
  }

  /** A second pass over the same balances shows the same accounts and stores the same count. */
  lemma DiscoveryIdempotent(accounts: seq<Account>, balances: seq<nat>, accountLength: Option<nat>)
    requires |accounts| == AccountSlots && |balances| == AccountSlots
    ensures Visible(accounts, balances, NextStoredAsWritten(balances, accountLength)) == Visible(accounts, balances, accountLength)
    ensures NextStoredAsWritten(balances, NextStoredAsWritten(balances, accountLength)) == NextStoredAsWritten(balances, accountLength)
  {
  }

  /** The stored count after a run of passes, one balance batch per pass. */
  function StoredAfter(passes: seq<seq<nat>>, accountLength: Option<nat>): Option<nat>
    requires forall k :: 0 <= k < |passes| ==> |passes[k]| == AccountSlots
  {
    if passes == [] then accountLength
    else StoredAfter(passes[1..], NextStoredAsWritten(passes[0], accountLength))
  }

  /** The stored count never decreases, whatever balances later passes see, and discovery never takes it past 25. */
  lemma {:induction false} StoredCountMonotone(passes: seq<seq<nat>>, accountLength: Option<nat>)
    requires forall k :: 0 <= k < |passes| ==> |passes[k]| == AccountSlots
    ensures StoredCount(StoredAfter(passes, accountLength)) >= StoredCount(accountLength)
    ensures StoredCount(accountLength) <= AccountSlots ==> StoredCount(StoredAfter(passes, accountLength)) <= AccountSlots
    decreases |passes|
  {
    if passes != [] {
      var next := NextStoredAsWritten(passes[0], accountLength);
      assert StoredCount(next) >= StoredCount(accountLength);
      assert StoredCount(accountLength) <= AccountSlots ==> StoredCount(next) <= AccountSlots;
      StoredCountMonotone(passes[1..], next);
    }
  }

  /** An account once shown stays shown in every later pass, whatever the later balances are. */
  lemma ShownStaysShown(accounts: seq<Account>, earlier: seq<nat>, later: seq<nat>, accountLength: Option<nat>)
    requires |accounts| == AccountSlots && |earlier| == AccountSlots && |later| == AccountSlots
    ensures |Visible(accounts, later, NextStored(earlier, accountLength))| >= |Visible(accounts, earlier, accountLength)|
  {
  }

  // ---- The stored-count comparison as the wallet writes it ----

  /** The two comparisons store different counts exactly when the found index equals the stored count. */
  lemma AsWrittenDiffersOnlyAtEquality(balances: seq<nat>, accountLength: Option<nat>)
    requires |balances| == AccountSlots
    ensures NextStoredAsWritten(balances, accountLength) != NextStored(balances, accountLength)
            <==> FoundBalanceIndex(balances) == StoredCount(accountLength)
  {
  }

  /**
   * As written, a found index equal to the stored count shows one more account
   * than it stores, and a later pass without funds hides that account again.
   */
  lemma EqualCountShowsMoreThanStored(accounts: seq<Account>, funded: seq<nat>, zero: seq<nat>)
    requires |accounts| == AccountSlots && |funded| == AccountSlots && |zero| == AccountSlots
    requires funded[5] > 0
    requires forall i :: 0 <= i < AccountSlots && i != 5 ==> funded[i] == 0
    requires forall i :: 0 <= i < AccountSlots ==> zero[i] == 0
    ensures |Visible(accounts, funded, Some(5))| == 6
    ensures NextStoredAsWritten(funded, Some(5)) == Some(5)
    ensures |Visible(accounts, zero, NextStoredAsWritten(funded, Some(5)))| == 5
    ensures NextStored(funded, Some(5)) == Some(6)
  {
    assert FoundBalanceIndex(funded) == 5;
  }

  // ---- Durable storage and the RPC client slot ----

  /** The `accountLength` entry of the extension's local storage. */
  class LocalStorage {
    var accountLength: Option<nat>

    constructor (accountLength: Option<nat>)
      ensures this.accountLength == accountLength
    {
      this.accountLength := accountLength;
    }
  }

  datatype RpcClient = RpcClient(url: JsString, networkId: string, connected: bool)

  /** The module-level `rpcClient`. */
  class RpcSlot {
    var client: Option<RpcClient>

    constructor ()
      ensures client == None
    {
      client := None;
    }

    /** updateRpcClient: replace the client with one for `url` on the session's network, then connect. */
    method UpdateRpcClient(url: JsString, network: JsString, connects: bool) returns (ok: bool)
      modifies this
      ensures client == Some(RpcClient(url, NetworkIdFor(network), ok))
      ensures ok == connects
    {
      var networkId := if network == Some("mainnet") then "mainnet" else "testnet-11";
      client := Some(RpcClient(url, networkId, false));
      if connects {
        client := Some(client.value.(connected := true));
      }
      ok := connects;
    }
  }

  // ---- reloadAccounts ----

  datatype ReloadError = DecryptionFailed | BalanceQueryFailed

  datatype ReloadOutcome = NoCredentials | Reloaded | ReloadFailed(error: ReloadError)

  /**
   * reloadAccounts: with both credentials in the session, decrypt, derive, discover,
   * and write the snapshot back with its accounts replaced. `decrypts` is the
   * cipher's verdict, `keys` the SDK's 25 derived keys, `balances` the balance
   * query's answer (None when it fails).
   */
  method ReloadAccounts(store: SessionStore, storage: LocalStorage, decrypts: bool,
                        keys: seq<DerivedKey>, balances: Option<seq<nat>>, now: int)
    returns (outcome: ReloadOutcome, broadcasts: seq<Event>)
    requires store.Valid()
    requires |keys| == AccountSlots
    requires balances.Some? ==> |balances.value| == AccountSlots
    modifies store, storage
    ensures store.Valid()
    ensures !HasCredentials(old(store.Data())) ==>
      outcome == NoCredentials && broadcasts == []
    ensures HasCredentials(old(store.Data())) && !decrypts ==>
      outcome == ReloadFailed(DecryptionFailed) && broadcasts == []
    ensures HasCredentials(old(store.Data())) && decrypts && balances.None? ==>
      outcome == ReloadFailed(BalanceQueryFailed) && broadcasts == []
    ensures !outcome.Reloaded? ==>
      store.Data() == old(store.Data()) && storage.accountLength == old(storage.accountLength)
    ensures outcome.Reloaded? <==> HasCredentials(old(store.Data())) && decrypts && balances.Some?
    ensures outcome.Reloaded? ==>
      var s := old(store.Data());
      && store.Data() == s.(accounts := Visible(CreateAccounts(keys), balances.value, old(storage.accountLength)),
                            lastActivityTime := now)
      && storage.accountLength == NextStoredAsWritten(balances.value, old(storage.accountLength))
      && broadcasts == (if Truthy(s.network) && Truthy(s.kaspaApiUrl) then [NetworkUpdated(s.kaspaApiUrl.value)] else [])
  {
    var sessionData := store.Get();
    if !Truthy(sessionData.encryptedSeed) || !Truthy(sessionData.password) {
      return NoCredentials, [];
    }
    if !decrypts {
      return ReloadFailed(DecryptionFailed), [];
    }
    var accounts := CreateAccounts(keys);
    if balances.None? {
      return ReloadFailed(BalanceQueryFailed), [];
    }
    var accountsWithBalance, storedLength := FilterAccountsByBalance(accounts, balances.value, storage.accountLength);
    storage.accountLength := storedLength;
    WriteBackReplacesAccounts(sessionData, accountsWithBalance, now);
    var _ , events := store.Set(WholeRecord(sessionData.(accounts := accountsWithBalance)), now);
    outcome, broadcasts := Reloaded, events;
  }
}
