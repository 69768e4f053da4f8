/**
 * How the three components are wired in a page: a provider, the login form
 * inside it, and a `Gate` whose `isAllowed` is the provider's `isAuthorized`.
 */
module Composition {
  import opened Wrappers
  import opened WebStorage
  import opened AccessCodeContext
  import opened AccessCodeLoginForm
  import opened GateComponent

  /** A logged-in state reveals exactly the protected children. */
  lemma LoginRevealsChildren<T>(c: Config, s: State, now: int, children: T, console: seq<string>)
    ensures Gate(LoginStep(c, s, c.accessCode, now).state.isAuthorized, children, console).0 == Fragment(children)
  {
  }

  /**
   * Over storage whose entry under the key does not authorize at the check
   * (none, an expired record, or any other value), a wrong code leaves the
   * children hidden and the error shown; typing the right code and submitting again
   * reveals them, while the stale error is still set.
   */
  method WrongThenRightCode<T>(props: Props, storage: LocalStorage, wrong: string, children: T, now: int)
    returns (before: Rendered<T>, after: Rendered<T>, shownError: Option<string>)
    requires Decide(Lookup(storage.items, ResolveProps(props).storageKey), now, Window(ResolveProps(props))) != Authorize
    requires wrong != props.accessCode
    modifies storage
    ensures before == Nothing
    ensures after == Fragment(children)
    ensures shownError == Some(INVALID_CODE_ERROR)
  {
    var provider := new Provider(props, storage);
    provider.Load(now);
    var form := new LoginForm(provider);
    form.OnChange(wrong);
    form.HandleCodeSubmit(now);
    var r := Gate(provider.isAuthorized, children, []);
    before := r.0;
    form.OnChange(props.accessCode);
    form.HandleCodeSubmit(now);
    r := Gate(provider.isAuthorized, children, r.1);
    after := r.0;
    shownError := ErrorParagraph(form.error);
  }

  /**
   * A session survives a page reload: a new provider over the same storage,
   * mounted within the window after the login, is authorized after its check.
   */
  method SessionSurvivesReload<T>(props: Props, storage: LocalStorage, children: T, loginAt: int, reloadAt: int)
    returns (view: Rendered<T>)
    requires reloadAt - loginAt < ExpirationTime(ResolveProps(props).expirationHours)
    modifies storage
    ensures view == Fragment(children)
  {
    var first := new Provider(props, storage);
    first.Load(loginAt);
    var ok := first.Login(props.accessCode, loginAt);
    var second := new Provider(props, storage);
    second.Load(reloadAt);
    var r := Gate(second.isAuthorized, children, []);
    view := r.0;
  }
}
