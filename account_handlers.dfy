// The account handlers of the popup: the retrying HTTP helper, creating one more
// account (capped at 25), switching the selected account and revealing its
// private key. HTTP responses, the cipher's verdict and the SDK's derived keys
// arrive as parameters.
module AccountHandlers {
  import opened Basics
  import opened Session
  import opened KaspaUtils

  // ---- fetchWithRetries ----

  const DefaultRetries: int := 3
  const DefaultBackoffMs: int := 300

  /** What one `fetch` call produced: a rejection, or a response whose JSON body may fail to parse. */
  datatype FetchAttempt =
    | Rejected(message: string)
    | Responded(ok: bool, status: int, body: Option<string>)

  datatype FetchError = RequestError(message: string) | HttpStatusError(status: int) | BodyParseError

  datatype FetchOutcome = Undefined | Returned(body: string) | Thrown(error: FetchError)

  /** An attempt succeeds when the response is ok and its body parses. */
  predicate Succeeds(a: FetchAttempt) {
    a.Responded? && a.ok && a.body.Some?
  }

  /** The error a failed attempt throws. */
  function FailureOf(a: FetchAttempt): FetchError
    requires !Succeeds(a)
  {
    match a
    case Rejected(message) => RequestError(message)
    case Responded(ok, status, body) => if !ok then HttpStatusError(status) else BodyParseError
  }

  function Pow2(k: nat): nat {
    if k == 0 then 1 else 2 * Pow2(k - 1)
  }

  /** The waits before retries 1..n: the initial backoff, doubled each time. */
  function BackoffSchedule(backoff: int, n: nat): seq<int> {
    seq(n, j requires 0 <= j < n => backoff * Pow2(j))
  }

  /**
   * fetchWithRetries: `attempt(i)` is what the i-th call to `fetch` produces.
   * Returns the outcome, the number of calls made and the waits taken between them.
   */
  method FetchWithRetries(attempt: nat -> FetchAttempt, retries: int, backoff: int)
    returns (outcome: FetchOutcome, made: nat, waits: seq<int>)
    ensures outcome.Undefined? <==> retries <= 0
    ensures retries <= 0 ==> made == 0
    ensures retries > 0 ==> 1 <= made <= retries
    ensures forall j :: 0 <= j < made - 1 ==> !Succeeds(attempt(j))
    ensures outcome.Returned? ==> Succeeds(attempt(made - 1)) && outcome.body == attempt(made - 1).body.value
    ensures outcome.Thrown? ==>
      made == retries && !Succeeds(attempt(made - 1)) && outcome.error == FailureOf(attempt(made - 1))
    ensures waits == BackoffSchedule(backoff, if made == 0 then 0 else made - 1)
  {
    var delay := backoff;
    waits := [];
    made := 0;
    var i := 0;
    while i < retries
      invariant 0 <= i && (retries > 0 ==> i < retries) && (retries <= 0 ==> i == 0)
      invariant made == i
      invariant forall j :: 0 <= j < i ==> !Succeeds(attempt(j))
      invariant waits == BackoffSchedule(backoff, i)
      invariant delay == backoff * Pow2(i)
    {
      var response := attempt(i);
      made := i + 1;
      if Succeeds(response) {
        return Returned(response.body.value), made, waits;
      }
      if i < retries - 1 {
        waits := waits + [delay];
        delay := delay * 2;
      } else {
        return Thrown(FailureOf(response)), made, waits;
      }
      i := i + 1;
    }
    outcome := Undefined;
  }

  /**
   * The call `fetchWithRetries(url)` with the default arguments: at most three
   * calls, waiting 300 ms and then 600 ms between them.
   */
  method FetchWithDefaults(attempt: nat -> FetchAttempt) returns (outcome: FetchOutcome, made: nat, waits: seq<int>)
    ensures 1 <= made <= 3 && !outcome.Undefined?
    ensures outcome.Returned? ==> Succeeds(attempt(made - 1)) && outcome.body == attempt(made - 1).body.value
    ensures outcome.Thrown? <==> !Succeeds(attempt(0)) && !Succeeds(attempt(1)) && !Succeeds(attempt(2))
    ensures outcome.Thrown? ==> made == 3 && outcome.error == FailureOf(attempt(2))
    ensures waits == [300, 600][..made - 1]
  {
    outcome, made, waits := FetchWithRetries(attempt, DefaultRetries, DefaultBackoffMs);
    assert BackoffSchedule(DefaultBackoffMs, 2) == [300, 600];
    assert BackoffSchedule(DefaultBackoffMs, 1) == [300];
  }

  // ---- createNewAccount ----

  /**
   * The three toasts of createNewAccount: "Account #n created with success",
   * "25 accounts max per wallet" and "Error creating new account.".
   */
  datatype NewAccountOutcome = Created(count: nat) | LimitReached | CreateFailed

  function SelectionPatch(selected: int): Patch {
    NoChange.(currentAccountSelected := Given(selected))
  }

  /**
   * createNewAccount: store the new count, reload the accounts, and select the new
   * one; a 26th account is refused. Reading the name of an account the reload did
   * not produce throws, which the handler reports as a failure.
   */
  method CreateNewAccount(store: SessionStore, storage: LocalStorage, decrypts: bool,
                          keys: seq<DerivedKey>, balances: Option<seq<nat>>, now: int)
    returns (outcome: NewAccountOutcome, broadcasts: seq<Event>)
    requires store.Valid()
    requires |keys| == AccountSlots
    requires balances.Some? ==> |balances.value| == AccountSlots
    modifies store, storage
    ensures store.Valid()
    ensures |old(store.Data()).accounts| + 1 > AccountSlots ==>
      outcome == LimitReached && store.Data() == old(store.Data()) && storage.accountLength == old(storage.accountLength)
    ensures |old(store.Data()).accounts| + 1 <= AccountSlots ==>
      var n := |old(store.Data()).accounts| + 1;
      && (outcome == Created(n) <==> HasCredentials(old(store.Data())) && decrypts && balances.Some?)
      && (outcome != Created(n) ==>
            outcome == CreateFailed && store.Data() == old(store.Data()) && storage.accountLength == Some(n))
    ensures outcome.Created? ==>
      var s := old(store.Data());
      var n := outcome.count;
      && n == |s.accounts| + 1
      && store.Data() == s.(accounts := Visible(CreateAccounts(keys), balances.value, Some(n)),
                            currentAccountSelected := n, lastActivityTime := now)
      && n <= |store.Data().accounts|
      && storage.accountLength == NextStoredAsWritten(balances.value, Some(n))
    ensures !outcome.Created? ==> broadcasts == []
    ensures outcome.Created? ==>
      var s := old(store.Data());
      broadcasts == (if Truthy(s.network) && Truthy(s.kaspaApiUrl) then [NetworkUpdated(s.kaspaApiUrl.value)] else [])
  {
    var sessionData := store.Get();
    var accountLength := |sessionData.accounts| + 1;
    if accountLength <= AccountSlots {
      storage.accountLength := Some(accountLength);
      var reload, events := ReloadAccounts(store, storage, decrypts, keys, balances, now);
      broadcasts := events;
      if reload.ReloadFailed? {
        return CreateFailed, broadcasts;
      }
      var newSessionData := store.Get();
      if reload.Reloaded? {
        VisibleCovers(CreateAccounts(keys), balances.value, Some(accountLength));
      }
      if accountLength - 1 >= |newSessionData.accounts| {
        return CreateFailed, broadcasts;
      }
      var _, more := store.Set(SelectionPatch(accountLength), now);
      outcome, broadcasts := Created(accountLength), broadcasts + more;
    } else {
      outcome, broadcasts := LimitReached, [];
    }
  }

  // ---- switchAccount ----

  /** switchAccount: show the account at a 0-based list position and store its 1-based number. */
  method SwitchAccount(store: SessionStore, selectedIndex: nat, now: int) returns (selected: Option<Account>)
    requires store.Valid()
    modifies store
    ensures store.Valid()
    ensures selected == if selectedIndex < |old(store.Data()).accounts|
                        then Some(old(store.Data()).accounts[selectedIndex]) else None
    ensures store.Data() == old(store.Data()).(currentAccountSelected := selectedIndex + 1, lastActivityTime := now)
  {
    var sessionData := store.Get();
    selected := if selectedIndex < |sessionData.accounts| then Some(sessionData.accounts[selectedIndex]) else None;
    var _, _ := store.Set(SelectionPatch(selectedIndex + 1), now);
  }

  // ---- exportPrivateKey ----

  datatype ExportOutcome = Cancelled | Revealed(title: string, privateKey: string) | WrongPassword

  /**
   * exportPrivateKey: `entered` is the prompt's answer (None when dismissed) and
   * `decrypts` whether it decrypts the stored seed. Any failure reads "Wrong password.".
   */
  method ExportPrivateKey(store: SessionStore, entered: Option<string>, decrypts: bool) returns (outcome: ExportOutcome)
    ensures entered.None? ==> outcome == Cancelled
    ensures entered.Some? && !decrypts ==> outcome == WrongPassword
    ensures outcome.Revealed? ==> entered.Some? && decrypts
    ensures entered.Some? && decrypts ==>
      var s := store.Data();
      if 1 <= s.currentAccountSelected <= |s.accounts|
      then outcome == Revealed("Account #" + DecimalString(s.currentAccountSelected) + " Private Key",
                               s.accounts[s.currentAccountSelected - 1].privateKey)
      else outcome == WrongPassword
  {
    if entered.None? {
      return Cancelled;
    }
    if !decrypts {
      return WrongPassword;
    }
    var sessionData := store.Get();
    var index := sessionData.currentAccountSelected - 1;
    if 0 <= index < |sessionData.accounts| {
      var title := "Account #" + DecimalString(sessionData.currentAccountSelected) + " Private Key";
      outcome := Revealed(title, sessionData.accounts[index].privateKey);
    } else {
      outcome := WrongPassword;
    }
  }
}
