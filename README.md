# Kaspa wallet extension: session store and account discovery

This project models the stateful core of a Kaspa browser-extension wallet and
proves properties of that model:

- **The background session store** (`background.js`) is one in-memory session
  record with eight properties: accounts, last activity time, login flag,
  network, RPC endpoint, encrypted seed, password and selected account number.
  - A `SET_SESSION_DATA` message spreads its payload over the record and
    stamps the time. When the payload carries both a truthy network and a
    truthy endpoint, it broadcasts `NETWORK_UPDATED`. Falsy secrets are
    normalised to `null`.
  - A `GET_SESSION_DATA` message answers with a snapshot of the record.
  - A periodic tick clears the session after ten minutes of inactivity, and
    otherwise schedules a four-minute keep-alive alarm.
  - Suspending the worker clears the session in the same way.
- **Account discovery** (`kaspaUtils.js`) works over the 25 accounts derived
  from a seed. A reverse gap scan over their balances decides how many
  accounts are shown. The durable `accountLength` entry of local storage
  records how many accounts the user has. `reloadAccounts` guards on the
  credentials and writes the discovered accounts back into the session.
  `updateRpcClient` rebuilds the RPC client.
- **The account handlers** (`accountHandlers.js`):
  - the retrying HTTP helper with exponential backoff;
  - creating one more account, capped at 25;
  - switching the selected account;
  - revealing the selected account's private key after a password check.
- **The popup** (`popup.js`):
  - the network selected on load;
  - the details shown for the selected account;
  - the network switch, which always keeps the new network and endpoint and,
    only when the session holds credentials, reconnects, reloads the accounts
    and refreshes the details.

Module `Basics` (`basics.dfy`) holds shared values:
- `Option`;
- JavaScript truthiness of nullable strings, where `null`, `undefined` and ""
  are falsy;
- `DecimalString`, the decimal rendering used in "Account #n".

`Session` (`background.dfy`) holds the store as a class whose fields the
message handler reassigns. It is specified by pure functions over a
`SessionData` value: `Merged`, `Broadcasts`, `ResetOf` and `Expired`.

`KaspaUtils` (`kaspa_utils.dfy`) holds the scan as a method with a loop. It is
proved against the functions `Visible` and `NextStoredAsWritten`. Local storage and the
RPC client slot are classes.

`AccountHandlers` (`account_handlers.dfy`) and `Popup` (`popup.dfy`) are
methods over those objects. Every answer from outside the model arrives as a
parameter:
- the SDK's derived keys;
- the balance query's answer;
- the cipher's verdict;
- the connection's success;
- each `fetch` result.

The stored `accountLength` entry is the text of a number or missing. The
source compares it with numbers: `i <= accountLength - 1` and
`foundBalanceIndex > accountLength`. Both comparisons coerce a missing entry
to 0, so the model holds it as `Option<nat>` and reads `None` as 0
(`StoredCount`). Balances are modelled in their integer base unit. The source
scales them by 10^-8 into a floating-point number, which never changes
whether a balance is positive.

## Model

| member | source | states |
|---|---|---|
| Session.SessionStore.constructor | background.js:1-10 | The record starts with no accounts, logged out, network "testnet-11", the default endpoint, no secrets, account 1 selected and the given time. |
| Session.SessionStore.Set | background.js:12-32 | A SET leaves the record equal to the spread of the payload over the old record with the time set to now and falsy secrets read as null (`Merged`). It emits exactly `Broadcasts(payload)`, answers success and keeps the secrets normalised. |
| Session.SessionStore.Get | background.js:33-36 | A GET returns the current record and changes nothing. |
| Session.SessionStore.Tick | background.js:40-59 | If the time since the last activity is at least ten minutes, the session is reset (`ResetOf`) and no alarm is scheduled. Otherwise the record is unchanged and exactly one keep-alive alarm with a four-minute delay is scheduled. |
| Session.SessionStore.Reset | background.js:46-55 | The record becomes `ResetOf` the old one: no accounts, logged out, account 1, no secrets and the new time, with the network and endpoint kept. |
| Session.SessionStore.Suspend | background.js:70-81 | Suspension leaves exactly the reset record. |
| Session.MergeIsFieldwise | background.js:15-30 | After a SET, every property in the payload takes the payload's value and every absent one keeps its old value. The time is now. A given secret is kept when truthy and becomes null otherwise. |
| Session.MergeComposes | background.js:15 | Two SETs in a row equal one SET of their field-wise combination, with the later payload winning. |
| Session.NetworkBroadcastRule | background.js:17-22 | At most one NETWORK_UPDATED is emitted, and exactly one iff the payload's network and endpoint are both truthy. It carries the payload's endpoint. A payload without an endpoint broadcasts nothing. |
| Session.ResetRule | background.js:46-55 | A reset clears accounts, login and both secrets, selects account 1, stamps the time and keeps network and endpoint. It leaves no credentials and is idempotent. |
| Session.SetDefersExpiry | background.js:15 | A SET at time t keeps every tick before t plus ten minutes from resetting the session. |
| Session.LogoutKeepsSecrets | walletHandlers.js:59 | The logout payload clears accounts and login but leaves the password and encrypted seed in the record, because absent secrets are preserved. |
| Session.WriteBackReplacesAccounts | kaspaUtils.js:119 | Writing back a whole snapshot with only its accounts replaced changes exactly the accounts and the time. It re-broadcasts the network iff the snapshot's network and endpoint are truthy. |
| Basics.DecimalString | popup.js:61 | The decimal text of a number is never empty, and it is one character long exactly for numbers below 10. |
| Basics.DecimalStringInjective | kaspaUtils.js:97 | Different numbers render as different decimal text. |
| KaspaUtils.AccountNamesDistinct | kaspaUtils.js:97 | Two account indices with the same "Account #n" name are the same index. |
| KaspaUtils.CreatedAccountsNamed | kaspaUtils.js:96-100 | Created accounts keep the derivation order and each key's address and private key. The account at index i is named "Account #(i+1)", no account has a balance yet, and the names are pairwise distinct. |
| KaspaUtils.NetworkIdChoice | kaspaUtils.js:35 | The RPC network id is "mainnet" exactly when the session's network is "mainnet", and "testnet-11" otherwise. |
| KaspaUtils.HighestFunded | kaspaUtils.js:54-58 | The scan's found index is 0 or a funded index, and every index above it is unfunded. |
| KaspaUtils.FilterAccountsByBalance | kaspaUtils.js:45-69 | The loop from index 24 down to 0 returns exactly `Visible`: accounts 0 up to the larger of the found index and the stored count minus one, capped at 24, in ascending order, each with its balance. It returns `NextStoredAsWritten` as the count to store: found index + 1 when the found index exceeds the stored count, and otherwise the entry unchanged, missing or not. |
| KaspaUtils.VisibleCovers | kaspaUtils.js:59 | The shown accounts are a non-empty prefix of at most 25. The prefix holds account 0, every funded account and at least the stored count (up to 25), each with its own balance. |
| KaspaUtils.VisibleIsTight | kaspaUtils.js:59 | The shown prefix is no longer than needed: its last account is funded, or within the stored count, or account 0. |
| KaspaUtils.FundedPrefixDiscovery | kaspaUtils.js:54-62 | If balances are positive exactly at indices 0..k-1 and the stored count is c, the found index is k-1 and max(k, c) accounts are shown. |
| KaspaUtils.OnlyIndexFiveFunded | kaspaUtils.js:54-66 | If only index 5 is funded and the stored count is 1, six accounts are shown and 6 is stored. |
| KaspaUtils.NothingFunded | kaspaUtils.js:54-66 | If nothing is funded, exactly the stored count (at least one, at most 25) is shown, and the entry is left as it was. A missing entry stays missing. |
| KaspaUtils.StoredCountMatchesShown | kaspaUtils.js:59-66 | Under the corrected rule `NextStored`, while the stored count is at most 25, the count stored after a pass equals the number of accounts that pass showed. |
| KaspaUtils.DiscoveryIdempotent | kaspaUtils.js:45-69 | Under the wallet's own comparison, a second pass over the same balances shows the same accounts and stores the same count. |
| KaspaUtils.StoredCountMonotone | kaspaUtils.js:64-66 | Under the wallet's own comparison, over any run of discovery passes, the stored count never decreases and never exceeds 25 when it started at or below 25. |
| KaspaUtils.ReversePermutes | kaspaUtils.js:68 | Reversing the collected accounts only reorders them: every account is kept with its multiplicity, and reversing twice gives back the original list. |
| KaspaUtils.NextStoredAsWritten | kaspaUtils.js:64-66 | The count the wallet stores never decreases, and never passes 25 when it starts at or below 25. It is either the old entry, exactly as it was, or found index + 1. |
| KaspaUtils.AsWrittenDiffersOnlyAtEquality | kaspaUtils.js:64 | The wallet's rule and the corrected rule store different counts exactly when the found index equals the stored count. |
| KaspaUtils.EqualCountShowsMoreThanStored | kaspaUtils.js:64 | With the comparison as written (`NextStoredAsWritten`), the count is not raised when only index 5 is funded and the stored count is 5. Six accounts are shown but 5 stays stored, and a later pass with no funds shows only five. The corrected rule stores 6. |
| KaspaUtils.NextStored | kaspaUtils.js:64-66 | With the corrected comparison, the stored count becomes the larger of the found index plus one and the old count. It is unchanged when it already covers the found index. |
| KaspaUtils.ShownStaysShown | kaspaUtils.js:59-66 | Under the corrected rule `NextStored`, the accounts shown by a pass stay shown in any later pass, whatever the later balances are. The wallet's own rule does not promise this (`EqualCountShowsMoreThanStored`). |
| KaspaUtils.LocalStorage.constructor | kaspaUtils.js:52 | Local storage starts with the given `accountLength` entry. |
| KaspaUtils.RpcSlot.UpdateRpcClient | kaspaUtils.js:27-43 | The slot holds a new client for the given endpoint, with the network id chosen from the session's network. It is connected exactly when the connection succeeds, and the result reports that. |
| KaspaUtils.ReloadAccounts | kaspaUtils.js:107-125 | Without both credentials, or when decryption or the balance query fails, nothing changes, and the reason is reported. Otherwise the session's accounts become the discovered accounts of the derived keys and the time is stamped, with nothing else changed. Local storage gets the count the wallet's rule computes (`NextStoredAsWritten`), and the network is re-broadcast iff it and the endpoint are truthy. The reload succeeds iff credentials, decryption and query all do. |
| AccountHandlers.FetchWithRetries | accountHandlers.js:8-25 | With no retries the result is undefined after no calls. Otherwise it returns the first successful attempt's body, or throws the last attempt's error after exactly `retries` failed calls. Every earlier attempt failed, and the waits between calls are backoff, 2·backoff, 4·backoff, …. |
| AccountHandlers.FetchWithDefaults | accountHandlers.js:8 | With the default arguments, at most three calls are made and the result is never undefined. It throws the third call's error exactly when all three calls fail, after waits of 300 and 600 ms. Otherwise it returns the first successful body, after the waits that preceded it. |
| AccountHandlers.CreateNewAccount | accountHandlers.js:166-197 | At 25 accounts or more, "max" is reported and nothing changes. Otherwise the count n = accounts+1 is stored and creation succeeds iff the reload does. On success the session holds the accounts discovered for count n (at least n of them), selects account n and stamps the time, and storage holds `NextStoredAsWritten` of count n. On failure the session is unchanged and n stays stored. The only broadcast is the reload's write-back re-announcing the network, on success and when network and endpoint are truthy. At the cap and on failure nothing is broadcast. |
| AccountHandlers.SwitchAccount | accountHandlers.js:146-164 | The account at the 0-based position is returned when it exists, and none otherwise. The session then selects the 1-based number and stamps the time, with nothing else changed. |
| AccountHandlers.ExportPrivateKey | accountHandlers.js:199-224 | A dismissed prompt cancels. A password that does not decrypt reports "Wrong password.". Otherwise the selected account's private key is revealed under the title "Account #n Private Key", or, when no such account exists, the reading throws and "Wrong password." is reported. |
| Popup.LoadAfterSwitch | popup.js:26-28 | A fresh session loads "testnet-11". An unset or empty network loads "testnet-11". After switching to a non-empty network, loading selects that network. |
| Popup.ReloadAccountDetails | popup.js:42-65 | With no accounts nothing is shown. Otherwise the 1-based selected account is shown under "Account #n", or reading a missing selection throws. Nothing changes. |
| Popup.RefreshAfterSwitch | popup.js:76-85 | With credentials in the session, the RPC client is rebuilt for the session's endpoint and network, connected iff the connection succeeds. A failed connection, decryption or balance query is reported, and nothing else changes. Otherwise the session's accounts become the discovered ones, the count from `NextStoredAsWritten` is stored, the network is re-announced, and the details are refreshed (or a missing selection is reported). |
| Popup.SwitchNetwork | popup.js:67-91 | The network and its endpoint are always stored and never rolled back, and the secrets are untouched. For a non-empty network, exactly one NETWORK_UPDATED with its endpoint is broadcast, or two when the accounts are reloaded, because the write-back announces it again. An empty network broadcasts nothing. Without credentials in the session read first, switchNetwork itself takes no further step. The NETWORK_UPDATED listener, which would rebuild the client, is not modelled. With them, the client is rebuilt; a failed connection or reload is reported and leaves only the patch. A successful reload stores the discovered accounts and the wallet's count, and refreshes the details. |
| Popup.EndpointMatchesNetworkId | popup.js:69-72 | The endpoint the popup picks is one of the two kaspa-ng URLs. It is the mainnet one exactly when the RPC client's network id is "mainnet". |
| Popup.SwitchThenShow | popup.js:42-61 | Selecting list position i and then reloading the details shows account i under "Account #(i+1)". |
| Popup.LabelMatchesDiscoveredName | popup.js:56-61 | For discovered accounts, a shown account's heading equals its own name. Details are shown exactly when the selection is within the account list. |

## Left out

- Rendering is not modelled. This covers the DOM, toasts, modals and the account selector; what would be shown is returned as a value instead.
- The Chrome message transport, `sendResponse` and the extra payload keys a SET may carry are not modelled. A SET's payload is the eight session properties, each given or absent.
- The 20-second interval and the alarm listener are not modelled. Each tick is a call with the current time, and a keep-alive is an event in the result.
- Clocks are parameters. Each compound operation uses one `now` for all the time stamps it makes.
- Concurrency is not modelled. Interleaving of asynchronous messages and of overlapping popup actions is out of scope; operations run one after the other.
- The popup's `NETWORK_UPDATED` listener (kaspaUtils.js:7-12) is not modelled at all. In the wallet it rebuilds the RPC client after every broadcast. The model's claims about the RPC client slot (`SwitchNetwork` leaving it unchanged without credentials) cover only the operations' own steps.
- The wallet SDK and the cipher are not modelled: WebAssembly loading, mnemonic handling, key derivation, address encoding, decryption and the balance query. Their results are parameters: 25 derived keys, the balances or a failure, and whether the password decrypts.
- Failures of `initWasmModule` and of disconnecting the old client are not modelled. A failed `connect` is.
- The balance conversion to a floating-point number is not modelled. Balances are natural numbers in the base unit, and only whether a balance is positive matters.
- The radio-button `change` dispatch in `loadNetwork` is not modelled. It re-runs the network switch through the UI; `LoadedNetwork` gives the selected network.
- `fetchBalance`, `fetchTokenDetails`, the token and transaction handlers, and the wallet creation and unlock flows are not part of this model. Only the logout payload is modelled (`LogoutKeepsSecrets`).
- `ExportPrivateKey` does not model the copy of the encrypted seed kept in local storage or its JSON parsing; the cipher's verdict on it is a parameter.
- `KaspaUtils.Reverse` does not model the in-place reversal of the source's array; it returns the reversed sequence as a value.
- `AccountHandlers.FetchWithRetries` does not model the real waiting. The waits are returned, the response body is an opaque string, and the `fetch` options are not modelled.

## Findings

| source | as written | input that shows it | evidently intended | confidence | as-written member | corrected member |
|---|---|---|---|---|---|---|
| kaspaUtils.js:64-65 | The stored account count is raised only when the found index is greater than it. The scan shows found index + 1 accounts, so an index equal to the count is shown but not counted. | Stored `accountLength` 5, only account index 5 funded: six accounts are shown and 5 stays stored. Once that account is emptied, the next pass shows only five, and the sixth account disappears. | Raise the count whenever found index + 1 exceeds it, so that every account once shown stays shown. | not executed | KaspaUtils.EqualCountShowsMoreThanStored | KaspaUtils.NextStored |

The discovery method `FilterAccountsByBalance`, and everything built on it, stores
the count as written (`NextStoredAsWritten`). The corrected rule `NextStored`
is modelled beside it:
- it keeps every shown account shown (`ShownStaysShown`);
- it stores exactly the number of accounts shown (`StoredCountMatchesShown`);
- it differs from the wallet's rule only when the found index equals the stored
  count (`AsWrittenDiffersOnlyAtEquality`).
