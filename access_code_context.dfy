/**
 * The session gate of `AccessCodeProvider`: the provider's two state flags,
 * the session record it keeps in localStorage, the mount-time session check
 * and `login`. The clock reading `new Date().getTime()` is the parameter
 * `now` (milliseconds).
 *
 * Each transition is specified by a function on a `State` value (LoadStep,
 * LoginStep); the `Provider` class performs it in place and its methods are
 * proved to follow those functions. `Run` replays a provider's lifetime as a
 * sequence of events, and the lemmas at the end hold over every such run.
 */
module AccessCodeContext {
  import opened Wrappers
  import opened WebStorage

  const DEFAULT_STORAGE_KEY: string := "app_access_data"
  const DEFAULT_EXPIRATION_HOURS: int := 8
  const OUTSIDE_PROVIDER_ERROR: string := "useAccessCode must be used within an AccessCodeProvider"

  /** The provider's props; an optional prop left out is None. */
  datatype Props = Props(accessCode: string, storageKey: Option<string>, expirationHours: Option<int>)

  /** The props once the defaults are filled in. */
  datatype Config = Config(accessCode: string, storageKey: string, expirationHours: int)

  function ResolveProps(props: Props): Config
  {
    Config(
      props.accessCode,
      match props.storageKey case Some(key) => key case None => DEFAULT_STORAGE_KEY,
      match props.expirationHours case Some(hours) => hours case None => DEFAULT_EXPIRATION_HOURS)
  }

  /** `expirationTime`: the session window in milliseconds. */
  function ExpirationTime(hours: int): int
  {
    hours * 60 * 60 * 1000
  }

  function Window(c: Config): int
  {
    ExpirationTime(c.expirationHours)
  }

  lemma DefaultConfig(accessCode: string)
    ensures ResolveProps(Props(accessCode, None, None))
         == Config(accessCode, "app_access_data", 8)
    ensures Window(ResolveProps(Props(accessCode, None, None))) == 28_800_000
  {
  }

  /** A prop that is given wins over its default. */
  lemma GivenPropsKept(accessCode: string, key: string, hours: int)
    ensures ResolveProps(Props(accessCode, Some(key), Some(hours))) == Config(accessCode, key, hours)
    ensures Window(ResolveProps(Props(accessCode, Some(key), Some(hours)))) == hours * 3_600_000
  {
  }

  /** Each optional prop falls back to its default on its own. */
  lemma MixedPropsDefaulted(accessCode: string, key: string, hours: int)
    ensures ResolveProps(Props(accessCode, Some(key), None)) == Config(accessCode, key, DEFAULT_EXPIRATION_HOURS)
    ensures ResolveProps(Props(accessCode, None, Some(hours))) == Config(accessCode, DEFAULT_STORAGE_KEY, hours)
  {
  }

  // ---------------------------------------------------------------------
  // The mount-time session check, as a decision on the stored entry
  // ---------------------------------------------------------------------

  /** `if (storedData)`: `null` and the empty string are falsy. */
  predicate Truthy(stored: Option<Entry>)
  {
    stored.Some? && stored.value != Text("")
  }

  /**
   * `const { timestamp } = JSON.parse(storedData)`: either the error that
   * `JSON.parse` throws, or the timestamp, None when it is not a number.
   */
  function ParseTimestamp(e: Entry): Result<Option<int>>
  {
    match e
    case Record(_, timestamp) => Ok(Some(timestamp))
    case Untimed => Ok(None)
    case Text(_) => Err("SyntaxError")
  }

  /** What the session check does: authorize, remove the entry, or neither. */
  datatype Decision = Authorize | Remove | Keep

  function Decide(stored: Option<Entry>, now: int, window: int): (d: Decision)
    ensures d == Authorize <==>
      stored.Some? && stored.value.Record? && now - stored.value.timestamp < window
    ensures d == Keep <==> stored == None || stored == Some(Text(""))
  {
    if !Truthy(stored) then Keep
    else match ParseTimestamp(stored.value)
      case Err(_) => Remove
      case Ok(timestamp) =>
        // a missing timestamp makes the comparison NaN < window, i.e. false
        if timestamp.Some? && now - timestamp.value < window then Authorize else Remove
  }

  // ---------------------------------------------------------------------
  // The provider's state and its two transitions
  // ---------------------------------------------------------------------

  /** The provider's two flags and the contents of localStorage. */
  datatype State = State(isAuthorized: bool, isLoading: bool, items: map<string, Entry>)

  /** A provider just mounted over the given storage. */
  function Mounted(items: map<string, Entry>): State
  {
    State(false, true, items)
  }

  function LoadStep(c: Config, s: State, now: int): State
  {
    match Decide(Lookup(s.items, c.storageKey), now, Window(c))
    case Authorize => s.(isAuthorized := true, isLoading := false)
    case Remove => s.(isLoading := false, items := s.items - {c.storageKey})
    case Keep => s.(isLoading := false)
  }

  datatype LoginResult = LoginResult(success: bool, state: State)

  function LoginStep(c: Config, s: State, code: string, now: int): LoginResult
  {
    if code == c.accessCode then
      LoginResult(true, s.(isAuthorized := true,
                           items := s.items[c.storageKey := Record(true, now)]))
    else
      LoginResult(false, s)
  }

  lemma LoadEndsLoading(c: Config, s: State, now: int)
    ensures !LoadStep(c, s, now).isLoading
    ensures LoadStep(c, s, now).isAuthorized ==> s.isAuthorized || Truthy(Lookup(s.items, c.storageKey))
  {
  }

  /** A fresh record authorizes and leaves storage alone, whatever `granted` says. */
  lemma LoadFreshRecord(c: Config, s: State, now: int, granted: bool, timestamp: int)
    requires Lookup(s.items, c.storageKey) == Some(Record(granted, timestamp))
    requires now - timestamp < Window(c)
    ensures LoadStep(c, s, now).isAuthorized
    ensures LoadStep(c, s, now).items == s.items
  {
  }

  /** An expired record is removed, and only its key; the flag is untouched. */
  lemma LoadExpiredRecord(c: Config, s: State, now: int, granted: bool, timestamp: int)
    requires Lookup(s.items, c.storageKey) == Some(Record(granted, timestamp))
    requires now - timestamp >= Window(c)
    ensures LoadStep(c, s, now).isAuthorized == s.isAuthorized
    ensures c.storageKey !in LoadStep(c, s, now).items
    ensures forall k :: k != c.storageKey ==>
      Lookup(LoadStep(c, s, now).items, k) == Lookup(s.items, k)
  {
  }

  /** Unparsable text, and parsed text without a timestamp, is removed. */
  lemma LoadUnparsable(c: Config, s: State, now: int)
    requires Lookup(s.items, c.storageKey) == Some(Untimed)
          || (Lookup(s.items, c.storageKey).Some? && Lookup(s.items, c.storageKey).value.Text?
              && Lookup(s.items, c.storageKey).value.text != "")
    ensures LoadStep(c, s, now) == s.(isLoading := false, items := s.items - {c.storageKey})
  {
  }

  /** No entry, or an empty one: only `isLoading` changes. */
  lemma LoadNothingStored(c: Config, s: State, now: int)
    requires Lookup(s.items, c.storageKey) == None || Lookup(s.items, c.storageKey) == Some(Text(""))
    ensures LoadStep(c, s, now) == s.(isLoading := false)
  {
  }

  /** A freshly mounted provider ends its check authorized exactly when a fresh record is stored. */
  lemma MountedLoadAuthorizesIff(c: Config, items: map<string, Entry>, now: int)
    ensures LoadStep(c, Mounted(items), now).isAuthorized <==>
      c.storageKey in items && items[c.storageKey].Record?
      && now - items[c.storageKey].timestamp < Window(c)
  {
  }

  lemma LoginSucceedsIff(c: Config, s: State, code: string, now: int)
    ensures LoginStep(c, s, code, now).success <==> code == c.accessCode
    ensures !LoginStep(c, s, code, now).success ==> LoginStep(c, s, code, now).state == s
  {
  }

  lemma LoginWritesRecord(c: Config, s: State, now: int)
    ensures LoginStep(c, s, c.accessCode, now).state.isAuthorized
    ensures LoginStep(c, s, c.accessCode, now).state.isLoading == s.isLoading
    ensures Lookup(LoginStep(c, s, c.accessCode, now).state.items, c.storageKey) == Some(Record(true, now))
    ensures forall k :: k != c.storageKey ==>
      Lookup(LoginStep(c, s, c.accessCode, now).state.items, k) == Lookup(s.items, k)
  {
  }

  /**
   * A successful login at `now` is honoured by a later session check at
   * `later` within the window, whether in the same provider or in a new one
   * mounted over the same storage (a page reload).
   */
  lemma LoginThenLoadAuthorizes(c: Config, s: State, now: int, later: int)
    requires later - now < Window(c)
    ensures var after := LoginStep(c, s, c.accessCode, now).state;
      LoadStep(c, after, later) == after.(isLoading := false)
      && LoadStep(c, Mounted(after.items), later).isAuthorized
  {
  }

  // ---------------------------------------------------------------------
  // A provider's lifetime: any sequence of session checks and logins
  // ---------------------------------------------------------------------

  /** A session check (the effect re-runs whenever it is triggered) or a call of `login`. */
  datatype Event = LoadAt(now: int) | LoginAt(code: string, now: int)

  function Step(c: Config, s: State, e: Event): State
  {
    match e
    case LoadAt(now) => LoadStep(c, s, now)
    case LoginAt(code, now) => LoginStep(c, s, code, now).state
  }

  /** The state after the events, in order. */
  function Run(c: Config, s: State, evs: seq<Event>): State
    decreases |evs|
  {
    if evs == [] then s else Step(c, Run(c, s, evs[..|evs| - 1]), evs[|evs| - 1])
  }

  /** The event sets `isAuthorized` in state `s`. */
  predicate Grants(c: Config, s: State, e: Event)
  {
    match e
    case LoadAt(now) => Decide(Lookup(s.items, c.storageKey), now, Window(c)) == Authorize
    case LoginAt(code, _) => code == c.accessCode
  }

  lemma StepAuthorization(c: Config, s: State, e: Event)
    ensures s.isAuthorized ==> Step(c, s, e).isAuthorized
    ensures !s.isAuthorized ==> (Step(c, s, e).isAuthorized <==> Grants(c, s, e))
  {
  }

  /** `isAuthorized` never goes back to false: from any point of a run to its end. */
  lemma {:induction false} RunMonotone(c: Config, s: State, evs: seq<Event>, j: nat)
    requires j <= |evs|
    requires Run(c, s, evs[..j]).isAuthorized
    ensures Run(c, s, evs).isAuthorized
    decreases |evs|
  {
    if j < |evs| {
      var n := |evs| - 1;
      assert evs[..n][..j] == evs[..j];
      RunMonotone(c, s, evs[..n], j);
      StepAuthorization(c, Run(c, s, evs[..n]), evs[n]);
    } else {
      assert evs[..j] == evs;
    }
  }

  /** An unauthorized provider that ends authorized had an event that granted it. */
  lemma {:induction false} RunAuthorizedHasCause(c: Config, s: State, evs: seq<Event>)
    requires !s.isAuthorized
    requires Run(c, s, evs).isAuthorized
    ensures exists i :: 0 <= i < |evs| && Grants(c, Run(c, s, evs[..i]), evs[i])
    decreases |evs|
  {
    var n := |evs| - 1;
    var init := evs[..n];
    StepAuthorization(c, Run(c, s, init), evs[n]);
    if Run(c, s, init).isAuthorized {
      RunAuthorizedHasCause(c, s, init);
      var i :| 0 <= i < |init| && Grants(c, Run(c, s, init[..i]), init[i]);
      assert init[..i] == evs[..i];
    } else {
      assert evs[..n] == init;
      assert Grants(c, Run(c, s, evs[..n]), evs[n]);
    }
  }

  /** No key other than `storageKey` is ever read or written. */
  lemma {:induction false} RunKeepsOtherKeys(c: Config, s: State, evs: seq<Event>, k: string)
    requires k != c.storageKey
    ensures Lookup(Run(c, s, evs).items, k) == Lookup(s.items, k)
    decreases |evs|
  {
    if evs != [] {
      RunKeepsOtherKeys(c, s, evs[..|evs| - 1], k);
    }
  }

  /**
   * A session record under `storageKey` other than the one there at the
   * start was written by a successful `login`, with that call's clock reading.
   */
  lemma {:induction false} RunRecordHasLogin(c: Config, s: State, evs: seq<Event>, granted: bool, timestamp: int)
    requires Lookup(s.items, c.storageKey) != Some(Record(granted, timestamp))
    requires Lookup(Run(c, s, evs).items, c.storageKey) == Some(Record(granted, timestamp))
    ensures granted
    ensures exists i :: 0 <= i < |evs| && evs[i] == LoginAt(c.accessCode, timestamp)
    decreases |evs|
  {
    var n := |evs| - 1;
    var before := Run(c, s, evs[..n]);
    if evs[n].LoginAt? && evs[n].code == c.accessCode {
      // the last event wrote the record
      assert Step(c, before, evs[n]).items[c.storageKey] == Record(true, evs[n].now);
      assert evs[n] == LoginAt(c.accessCode, timestamp);
    } else {
      assert Lookup(before.items, c.storageKey) == Some(Record(granted, timestamp));
      RunRecordHasLogin(c, s, evs[..n], granted, timestamp);
      var i :| 0 <= i < n && evs[..n][i] == LoginAt(c.accessCode, timestamp);
      assert evs[i] == evs[..n][i];
    }
  }

  /** Once a session check has run, `isLoading` stays false. */
  lemma {:induction false} RunLoadClearsLoading(c: Config, s: State, evs: seq<Event>, i: nat)
    requires i < |evs| && evs[i].LoadAt?
    ensures !Run(c, s, evs).isLoading
    decreases |evs|
  {
    var n := |evs| - 1;
    if i < n {
      assert evs[..n][i] == evs[i];
      RunLoadClearsLoading(c, s, evs[..n], i);
    }
  }

  // ---------------------------------------------------------------------
  // The provider component and the hook
  // ---------------------------------------------------------------------

  class Provider {
    const config: Config
    const storage: LocalStorage
    var isAuthorized: bool
    var isLoading: bool
    /** The codes `login` has been called with, oldest first. */
    ghost var loginCalls: seq<string>

    /** Mounting: `useState(false)`, `useState(true)`, defaults filled in. */
    constructor (props: Props, storage: LocalStorage)
      ensures config == ResolveProps(props) && this.storage == storage
      ensures Snapshot() == Mounted(storage.items)
      ensures loginCalls == []
    {
      config := ResolveProps(props);
      this.storage := storage;
      isAuthorized := false;
      isLoading := true;
      loginCalls := [];
    }

    function Snapshot(): State
      reads this, storage
    {
      State(isAuthorized, isLoading, storage.items)
    }

    /** The session check run by the effect. */
    method Load(now: int)
      modifies this, storage
      ensures Snapshot() == LoadStep(config, old(Snapshot()), now)
      ensures loginCalls == old(loginCalls)
    {
      var expirationTime := ExpirationTime(config.expirationHours);
      var storedData := storage.GetItem(config.storageKey);
      if Truthy(storedData) {
        var parsed := ParseTimestamp(storedData.value);
        match parsed {
          case Err(_) =>
            storage.RemoveItem(config.storageKey);
          case Ok(timestamp) =>
            if timestamp.Some? && now - timestamp.value < expirationTime {
              isAuthorized := true;
            } else {
              storage.RemoveItem(config.storageKey);
            }
        }
      }
      isLoading := false;
    }

    method Login(code: string, now: int) returns (success: bool)
      modifies this, storage
      ensures success <==> code == config.accessCode
      ensures LoginStep(config, old(Snapshot()), code, now) == LoginResult(success, Snapshot())
      ensures loginCalls == old(loginCalls) + [code]
    {
      loginCalls := loginCalls + [code];
      if code == config.accessCode {
        storage.SetItem(config.storageKey, Record(true, now));
        isAuthorized := true;
        return true;
      }
      return false;
    }
  }

  /** `useAccessCode()`: the enclosing provider's value, or the error it throws outside one. */
  function UseAccessCode<C>(context: Option<C>): (r: Result<C>)
    ensures r.Ok? <==> context.Some?
    ensures r.Ok? ==> r.value == context.value
    ensures r.Err? ==> r.error == OUTSIDE_PROVIDER_ERROR
  {
    match context
    case None => Err(OUTSIDE_PROVIDER_ERROR)
    case Some(value) => Ok(value)
  }
}
