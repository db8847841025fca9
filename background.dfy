// The background worker's session store: the single in-memory session record,
// the SET_SESSION_DATA / GET_SESSION_DATA handler, the inactivity tick and the
// suspend reset. Time is injected as `now` (milliseconds); the broadcast and
// the keep-alive alarm are returned as events.
module Session {
  import opened Basics

  /** One derived wallet account; `balance` is set (in sompi) by discovery. */
  datatype Account = Account(name: string, address: string, privateKey: string, balance: Option<nat>)

  /** The session record, field for field. */
  datatype SessionData = SessionData(
    accounts: seq<Account>,
    lastActivityTime: int,
    isLoggedIn: bool,
    network: JsString,
    kaspaApiUrl: JsString,
    encryptedSeed: JsString,
    password: JsString,
    currentAccountSelected: int)

  /** A property of a SET_SESSION_DATA payload: left out, or present with a value. */
  datatype Field<T> = Absent | Given(value: T)

  /** A SET_SESSION_DATA payload: any subset of the record's fields. */
  datatype Patch = Patch(
    accounts: Field<seq<Account>>,
    lastActivityTime: Field<int>,
    isLoggedIn: Field<bool>,
    network: Field<JsString>,
    kaspaApiUrl: Field<JsString>,
    encryptedSeed: Field<JsString>,
    password: Field<JsString>,
    currentAccountSelected: Field<int>)

  datatype Event = NetworkUpdated(kaspaApiUrl: string) | KeepAlive(delayInMinutes: nat)

  datatype Response = Success

  const DefaultNetwork: string := "testnet-11"
  const DefaultApiUrl: string := "ws://57.129.49.28:17210"
  const IdleTimeoutMs: int := 10 * 60 * 1000
  const KeepAliveDelayMinutes: nat := 4

  const NoChange: Patch := Patch(Absent, Absent, Absent, Absent, Absent, Absent, Absent, Absent)

  /** What reading a payload property yields: the value, or `undefined` when left out. */
  function Supplied(f: Field<JsString>): JsString {
    if f.Given? then f.value else None
  }

  /** Object spread: a property the payload carries overrides the current one. */
  function Pick<T>(f: Field<T>, current: T): T {
    if f.Given? then f.value else current
  }

  /** The record the worker starts with. */
  function Initial(now: int): SessionData {
    SessionData([], now, false, Some(DefaultNetwork), Some(DefaultApiUrl), None, None, 1)
  }

  /** A stored secret is either null or a truthy string. */
  predicate SecretNormal(v: JsString) {
    v.None? || Truthy(v)
  }

  predicate SecretsNormal(s: SessionData) {
    SecretNormal(s.encryptedSeed) && SecretNormal(s.password)
  }

  /** Both decrypt-capable credentials are present. */
  predicate HasCredentials(s: SessionData) {
    Truthy(s.encryptedSeed) && Truthy(s.password)
  }

  /** The merge rule for a secret: kept when left out, cleared when given falsy, replaced when given truthy. */
  function MergeSecret(f: Field<JsString>, current: JsString): JsString {
    match f
    case Absent => current
    case Given(v) => if Truthy(v) then v else None
  }

  /** The record after a SET_SESSION_DATA carrying `p` at time `now`. */
  function Merged(s: SessionData, p: Patch, now: int): SessionData {
    SessionData(
      Pick(p.accounts, s.accounts),
      now,
      Pick(p.isLoggedIn, s.isLoggedIn),
      Pick(p.network, s.network),
      Pick(p.kaspaApiUrl, s.kaspaApiUrl),
      MergeSecret(p.encryptedSeed, s.encryptedSeed),
      MergeSecret(p.password, s.password),
      Pick(p.currentAccountSelected, s.currentAccountSelected))
  }

  /** The notifications a SET_SESSION_DATA carrying `p` sends. */
  function Broadcasts(p: Patch): seq<Event> {
    if Truthy(Supplied(p.network)) && Truthy(Supplied(p.kaspaApiUrl))
    then [NetworkUpdated(Supplied(p.kaspaApiUrl).value)]
    else []
  }

  /** The record after an idle expiry or a suspend at time `now`. */
  function ResetOf(s: SessionData, now: int): SessionData {
    SessionData([], now, false, s.network, s.kaspaApiUrl, None, None, 1)
  }

  /** The inactivity check of the periodic tick. */
  predicate Expired(s: SessionData, now: int) {
    now - s.lastActivityTime >= IdleTimeoutMs
  }

  /** The payload that writes a whole record back, every property present. */
  function WholeRecord(s: SessionData): Patch {
    Patch(Given(s.accounts), Given(s.lastActivityTime), Given(s.isLoggedIn), Given(s.network),
          Given(s.kaspaApiUrl), Given(s.encryptedSeed), Given(s.password), Given(s.currentAccountSelected))
  }

  /** The owner of the session record; every mutation goes through its methods. */
  class SessionStore {
    var accounts: seq<Account>
    var lastActivityTime: int
    var isLoggedIn: bool
    var network: JsString
    var kaspaApiUrl: JsString
    var encryptedSeed: JsString
    var password: JsString
    var currentAccountSelected: int

    function Data(): SessionData
      reads this
    {
      SessionData(accounts, lastActivityTime, isLoggedIn, network, kaspaApiUrl,
                  encryptedSeed, password, currentAccountSelected)
    }

    ghost predicate Valid()
      reads this
    {
      SecretsNormal(Data())
    }

    constructor (now: int)
      ensures Valid()
      ensures Data() == Initial(now)
      ensures Data().accounts == [] && !Data().isLoggedIn && Data().currentAccountSelected == 1
      ensures Data().network == Some("testnet-11") && Data().kaspaApiUrl == Some("ws://57.129.49.28:17210")
      ensures Data().encryptedSeed == None && Data().password == None
    {
      accounts := [];
      lastActivityTime := now;
      isLoggedIn := false;
      network := Some(DefaultNetwork);
      kaspaApiUrl := Some(DefaultApiUrl);
      encryptedSeed := None;
      password := None;
      currentAccountSelected := 1;
    }

    /** SET_SESSION_DATA: spread the payload, stamp the time, announce a network change, keep secrets. */
    method Set(patch: Patch, now: int) returns (response: Response, events: seq<Event>)
      requires Valid()
      modifies this
      ensures Valid()
      ensures Data() == Merged(old(Data()), patch, now)
      ensures events == Broadcasts(patch)
      ensures response == Success
    {
      // the spread, on a copy of the record
      var current := Data();
      var spreadNetwork := Pick(patch.network, current.network);
      var spreadApiUrl := Pick(patch.kaspaApiUrl, current.kaspaApiUrl);
      var seed := Pick(patch.encryptedSeed, current.encryptedSeed);
      var pass := Pick(patch.password, current.password);

      events := [];
      if Truthy(Supplied(patch.network)) && Truthy(Supplied(patch.kaspaApiUrl)) {
        spreadNetwork := patch.network.value;
        spreadApiUrl := patch.kaspaApiUrl.value;
        events := [NetworkUpdated(spreadApiUrl.value)];
      }

      if !Truthy(Supplied(patch.encryptedSeed)) {
        seed := if Truthy(seed) then seed else None;
      }
      if !Truthy(Supplied(patch.password)) {
        pass := if Truthy(pass) then pass else None;
      }
      var next := SessionData(Pick(patch.accounts, current.accounts), now, Pick(patch.isLoggedIn, current.isLoggedIn),
                              spreadNetwork, spreadApiUrl, seed, pass,
                              Pick(patch.currentAccountSelected, current.currentAccountSelected));
      assert next == Merged(current, patch, now);

      Replace(next);
      response := Success;
    }

    /** Overwrite the whole record, field by field. */
    method Replace(d: SessionData)
      requires SecretsNormal(d)
      modifies this
      ensures Valid()
      ensures Data() == d
    {
      accounts, lastActivityTime, isLoggedIn := d.accounts, d.lastActivityTime, d.isLoggedIn;
      network, kaspaApiUrl := d.network, d.kaspaApiUrl;
      encryptedSeed, password := d.encryptedSeed, d.password;
      currentAccountSelected := d.currentAccountSelected;
    }

    /** GET_SESSION_DATA: a copy of the current record. */
    method Get() returns (snapshot: SessionData)
      ensures snapshot == Data()
    {
      snapshot := SessionData(accounts, lastActivityTime, isLoggedIn, network, kaspaApiUrl,
                              encryptedSeed, password, currentAccountSelected);
    }

    /** Reset everything but the network settings. */
    method Reset(now: int)
      modifies this
      ensures Valid()
      ensures Data() == ResetOf(old(Data()), now)
    {
      accounts := [];
      lastActivityTime := now;
      isLoggedIn := false;
      encryptedSeed := None;
      password := None;
      currentAccountSelected := 1;
    }

    /** The periodic inactivity check. */
    method Tick(now: int) returns (events: seq<Event>)
      requires Valid()
      modifies this
      ensures Valid()
      ensures Expired(old(Data()), now) ==> Data() == ResetOf(old(Data()), now) && events == []
      ensures !Expired(old(Data()), now) ==> Data() == old(Data()) && events == [KeepAlive(KeepAliveDelayMinutes)]
    {
      if now - lastActivityTime >= IdleTimeoutMs {
        Reset(now);
        events := [];
      } else {
        events := [KeepAlive(KeepAliveDelayMinutes)];
      }
    }

    /** The host's suspend signal. */
    method Suspend(now: int)
      modifies this
      ensures Valid()
      ensures Data() == ResetOf(old(Data()), now)
    {
      Reset(now);
    }
  }

  /** Two SETs in a row equal one SET of their field-wise combination, the later payload winning. */
  function Combine(p1: Patch, p2: Patch): Patch {
    Patch(
      if p2.accounts.Given? then p2.accounts else p1.accounts,
      if p2.lastActivityTime.Given? then p2.lastActivityTime else p1.lastActivityTime,
      if p2.isLoggedIn.Given? then p2.isLoggedIn else p1.isLoggedIn,
      if p2.network.Given? then p2.network else p1.network,
      if p2.kaspaApiUrl.Given? then p2.kaspaApiUrl else p1.kaspaApiUrl,
      if p2.encryptedSeed.Given? then p2.encryptedSeed else p1.encryptedSeed,
      if p2.password.Given? then p2.password else p1.password,
      if p2.currentAccountSelected.Given? then p2.currentAccountSelected else p1.currentAccountSelected)
  }

  lemma MergeComposes(s: SessionData, p1: Patch, p2: Patch, t1: int, t2: int)
    ensures Merged(Merged(s, p1, t1), p2, t2) == Merged(s, Combine(p1, p2), t2)
  {
  }

  /** After a SET every property given takes its payload value, the rest stay, and the time is `now`. */
  lemma MergeIsFieldwise(s: SessionData, p: Patch, now: int)
    ensures var r := Merged(s, p, now);
      && r.lastActivityTime == now
      && (p.accounts.Given? ==> r.accounts == p.accounts.value)
      && (p.accounts.Absent? ==> r.accounts == s.accounts)
      && (p.isLoggedIn.Given? ==> r.isLoggedIn == p.isLoggedIn.value)
      && (p.isLoggedIn.Absent? ==> r.isLoggedIn == s.isLoggedIn)
      && (p.network.Given? ==> r.network == p.network.value)
      && (p.network.Absent? ==> r.network == s.network)
      && (p.kaspaApiUrl.Given? ==> r.kaspaApiUrl == p.kaspaApiUrl.value)
      && (p.kaspaApiUrl.Absent? ==> r.kaspaApiUrl == s.kaspaApiUrl)
      && (p.currentAccountSelected.Given? ==> r.currentAccountSelected == p.currentAccountSelected.value)
      && (p.currentAccountSelected.Absent? ==> r.currentAccountSelected == s.currentAccountSelected)
      && (p.encryptedSeed.Absent? ==> r.encryptedSeed == s.encryptedSeed)
      && (p.password.Absent? ==> r.password == s.password)
      && (p.encryptedSeed.Given? ==> r.encryptedSeed == (if Truthy(p.encryptedSeed.value) then p.encryptedSeed.value else None))
      && (p.password.Given? ==> r.password == (if Truthy(p.password.value) then p.password.value else None))
  {
  }

  /** Exactly one NETWORK_UPDATED, carrying the new URL, iff both network and URL are given truthy. */
  lemma NetworkBroadcastRule(p: Patch)
    ensures |Broadcasts(p)| <= 1
    ensures |Broadcasts(p)| == 1 <==> Truthy(Supplied(p.network)) && Truthy(Supplied(p.kaspaApiUrl))
    ensures |Broadcasts(p)| == 1 ==> Broadcasts(p)[0] == NetworkUpdated(p.kaspaApiUrl.value.value)
    ensures p.kaspaApiUrl.Absent? ==> Broadcasts(p) == []
  {
  }

  /** Reset clears accounts, login and secrets, keeps network settings, and is idempotent. */
  lemma ResetRule(s: SessionData, now: int)
    ensures var r := ResetOf(s, now);
      && r.accounts == [] && !r.isLoggedIn && r.currentAccountSelected == 1
      && r.encryptedSeed == None && r.password == None && r.lastActivityTime == now
      && r.network == s.network && r.kaspaApiUrl == s.kaspaApiUrl
      && ResetOf(r, now) == r
      && !HasCredentials(r)
  {
  }

  /** A SET at `t` keeps every tick before `t + 10 min` from resetting. */
  lemma SetDefersExpiry(s: SessionData, p: Patch, t: int, later: int)
    requires later < t + IdleTimeoutMs
    ensures !Expired(Merged(s, p, t), later)
  {
  }

  /** Logging out only sends accounts and the login flag, so the password stays in the record. */
  lemma LogoutKeepsSecrets(s: SessionData, now: int)
    ensures var r := Merged(s, NoChange.(accounts := Given([]), isLoggedIn := Given(false)), now);
      && r.accounts == [] && !r.isLoggedIn
      && r.password == s.password && r.encryptedSeed == s.encryptedSeed
  {
  }

  /** Writing back a snapshot with only its accounts replaced changes only the accounts and the time. */
  lemma WriteBackReplacesAccounts(s: SessionData, accounts: seq<Account>, now: int)
    requires SecretsNormal(s)
    ensures Merged(s, WholeRecord(s.(accounts := accounts)), now) == s.(accounts := accounts, lastActivityTime := now)
    ensures Broadcasts(WholeRecord(s.(accounts := accounts))) ==
            if Truthy(s.network) && Truthy(s.kaspaApiUrl) then [NetworkUpdated(s.kaspaApiUrl.value)] else []
  {
  }
}
