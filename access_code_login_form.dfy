/**
 * The login form's own state, `inputCode` and `error`, its two event
 * handlers, and the condition under which the error paragraph is shown.
 * The form talks to the provider only through `login`.
 */
module AccessCodeLoginForm {
  import opened Wrappers
  import AccessCodeContext

  const INVALID_CODE_ERROR: string := "Invalid access code. Please try again."

  /** `{error && <p>{error}</p>}`: the paragraph's text, if it is shown. */
  function ErrorParagraph(error: string): (p: Option<string>)
    ensures p.Some? <==> error != ""
    ensures p.Some? ==> p.value == error
  {
    if error == "" then None else Some(error)
  }

  class LoginForm {
    /** The provider whose `login` `useAccessCode()` returned. */
    const provider: AccessCodeContext.Provider
    var inputCode: string
    var error: string

    constructor (provider: AccessCodeContext.Provider)
      ensures this.provider == provider
      ensures inputCode == "" && error == ""
    {
      this.provider := provider;
      inputCode := "";
      error := "";
    }

    /** The input's `onChange`: the typed value replaces `inputCode`. */
    method OnChange(value: string)
      modifies this
      ensures inputCode == value && error == old(error)
    {
      inputCode := value;
    }

    /**
     * `handleCodeSubmit`: one call of `login` with the current input; on
     * failure the input is cleared and the fixed message shown, on success
     * both fields are left as they were.
     */
    method HandleCodeSubmit(now: int)
      modifies this, provider, provider.storage
      ensures provider.loginCalls == old(provider.loginCalls) + [old(inputCode)]
      ensures provider.Snapshot()
           == AccessCodeContext.LoginStep(provider.config, old(provider.Snapshot()), old(inputCode), now).state
      ensures old(inputCode) == provider.config.accessCode ==>
        inputCode == old(inputCode) && error == old(error)
      ensures old(inputCode) != provider.config.accessCode ==>
        inputCode == "" && error == INVALID_CODE_ERROR
    {
      var success := provider.Login(inputCode, now);
      if !success {
        error := INVALID_CODE_ERROR;
        inputCode := "";
      }
    }
  }
}
