/** `SessionBasedCaptcha`: the expected code lives in the caller's session under a
    key; generating writes it, validating reads it and, by default, removes it, so
    that each challenge can be answered once. */
module SessionBasedCaptcha {
  import opened Wrappers
  import opened Text
  import opened CaptchaTypes

  const SessionNullMessage: string :=
    "Session can not be null, please check if Session is enabled in ASP.NET Core via services.AddSession() and app.UseSession()."

  /** The string entries of an ASP.NET Core `ISession`, the store the manager
      writes into. */
  class Session {
    var entries: map<string, string>

    constructor (entries: map<string, string>)
      ensures this.entries == entries
    {
      this.entries := entries;
    }

    /** `SetString`: adds or overwrites one entry. */
    method SetString(key: string, value: string)
      modifies this
      ensures entries == old(entries)[key := value]
    {
      entries := entries[key := value];
    }

    /** `GetString`: null (None) when the key is absent. */
    method GetString(key: string) returns (value: Option<string>)
      ensures key in entries ==> value == Some(entries[key])
      ensures key !in entries ==> value == None
    {
      value := if key in entries then Some(entries[key]) else None;
    }

    /** `Remove`: drops the key if present. */
    method Remove(key: string)
      modifies this
      ensures entries == old(entries) - {key}
    {
      entries := entries - {key};
    }
  }

  datatype SessionBasedCaptchaOptions = SessionBasedCaptchaOptions(
    sessionName: string,
    fontStyle: FontStyle,
    fontName: Option<string>,
    drawLines: bool)

  /** The MVC result wrapping a stream over the image bytes. */
  datatype FileStreamResult = FileStreamResult(content: seq<byte>, contentType: string)

  /** `sessionKeyName ?? Options.SessionName` */
  function SessionKey(options: SessionBasedCaptchaOptions, sessionKeyName: Option<string>): string {
    sessionKeyName.GetOr(options.sessionName)
  }

  /** `EnsureHttpSession`: a missing session is a configuration error. */
  function EnsureHttpSession(httpSession: Session?): (r: Result<(), CaptchaError>)
    ensures r.Failure? <==> httpSession == null
    ensures r.Failure? ==> r.error == ArgumentNull(Some("httpSession"), Some(SessionNullMessage))
  {
    if httpSession == null then Failure(ArgumentNull(Some("httpSession"), Some(SessionNullMessage)))
    else Success(())
  }

  /** `GenerateCaptchaImageBytes(httpSession, width, height, sessionKeyName)`.
      `captchaCode` is what the subclass's `GenerateCaptchaCode` returns; it is
      consulted only once the session has been checked. */
  method GenerateCaptchaImageBytes(options: SessionBasedCaptchaOptions, httpSession: Session?,
                                   captchaCode: CodeResult, render: Renderer,
                                   width: int := 100, height: int := 36, sessionKeyName: Option<string> := None)
    returns (r: Result<seq<byte>, CaptchaError>)
    requires KeepsCode(render)
    modifies httpSession
    ensures httpSession == null ==> r == Failure(ArgumentNull(Some("httpSession"), Some(SessionNullMessage)))
    ensures httpSession != null && captchaCode.Failure? ==>
              r == Failure(captchaCode.error) && httpSession.entries == old(httpSession.entries)
    ensures httpSession != null && captchaCode.Success? ==>
              && r == Success(render(width, height, captchaCode.value, options.fontName, options.fontStyle,
                                     options.drawLines).captchaByteData)
              && httpSession.entries == old(httpSession.entries)[SessionKey(options, sessionKeyName) := captchaCode.value]
  {
    var _ :- EnsureHttpSession(httpSession);
    var code :- captchaCode;
    var result := render(width, height, code, options.fontName, options.fontStyle, options.drawLines);
    httpSession.SetString(SessionKey(options, sessionKeyName), result.captchaCode);
    r := Success(result.captchaByteData);
  }

  /** `GenerateCaptchaImageFileStream`: the same, with the bytes wrapped as a PNG
      file result. */
  method GenerateCaptchaImageFileStream(options: SessionBasedCaptchaOptions, httpSession: Session?,
                                        captchaCode: CodeResult, render: Renderer,
                                        width: int := 100, height: int := 36, sessionKeyName: Option<string> := None)
    returns (r: Result<FileStreamResult, CaptchaError>)
    requires KeepsCode(render)
    modifies httpSession
    ensures httpSession == null ==> r == Failure(ArgumentNull(Some("httpSession"), Some(SessionNullMessage)))
    ensures httpSession != null && captchaCode.Failure? ==>
              r == Failure(captchaCode.error) && httpSession.entries == old(httpSession.entries)
    ensures httpSession != null && captchaCode.Success? ==>
              && r == Success(FileStreamResult(
                        render(width, height, captchaCode.value, options.fontName, options.fontStyle,
                               options.drawLines).captchaByteData,
                        "image/png"))
              && httpSession.entries == old(httpSession.entries)[SessionKey(options, sessionKeyName) := captchaCode.value]
  {
    var _ :- EnsureHttpSession(httpSession);
    var code :- captchaCode;
    var result := render(width, height, code, options.fontName, options.fontStyle, options.drawLines);
    httpSession.SetString(SessionKey(options, sessionKeyName), result.captchaCode);
    r := Success(FileStreamResult(result.captchaByteData, "image/png"));
  }

  /** `Validate(userInputCaptcha, httpSession, ignoreCase, dropSession, sessionKeyName)`.
      A blank guess is false and touches nothing; otherwise the guess must equal the
      stored code, and with `dropSession` the entry is removed whatever the outcome.
      There is no null guard here: a null session is dereferenced. */
  method Validate(options: SessionBasedCaptchaOptions, userInputCaptcha: string, httpSession: Session?,
                  ignoreCase: bool := true, dropSession: bool := true, sessionKeyName: Option<string> := None)
    returns (r: Result<bool, CaptchaError>)
    modifies httpSession
    ensures IsNullOrWhiteSpace(userInputCaptcha) ==>
              r == Success(false) && (httpSession != null ==> httpSession.entries == old(httpSession.entries))
    ensures !IsNullOrWhiteSpace(userInputCaptcha) && httpSession == null ==> r == Failure(NullReference)
    ensures !IsNullOrWhiteSpace(userInputCaptcha) && httpSession != null ==>
              var key := SessionKey(options, sessionKeyName);
              && r == Success(key in old(httpSession.entries)
                              && Equals(userInputCaptcha, old(httpSession.entries)[key], ignoreCase))
              && httpSession.entries == if dropSession then old(httpSession.entries) - {key}
                                        else old(httpSession.entries)
  {
    if IsNullOrWhiteSpace(userInputCaptcha) {
      return Success(false);
    }
    if httpSession == null {
      return Failure(NullReference);
    }
    var key := SessionKey(options, sessionKeyName);
    var codeInSession := httpSession.GetString(key);
    var isValid := Compare(userInputCaptcha, codeInSession, ignoreCase);
    if dropSession {
      httpSession.Remove(key);
    }
    CompareZeroIffEquals(userInputCaptcha, codeInSession, ignoreCase);
    r := Success(isValid == 0);
  }

  /** Single use: after a code is issued into a session, the first validation with
      that code succeeds and a second one with the same guess fails. */
  method GenerateThenValidateTwice(options: SessionBasedCaptchaOptions, httpSession: Session, code: string,
                                   render: Renderer)
    returns (first: Result<bool, CaptchaError>, second: Result<bool, CaptchaError>)
    requires KeepsCode(render) && !IsNullOrWhiteSpace(code)
    modifies httpSession
    ensures first == Success(true) && second == Success(false)
    ensures options.sessionName !in httpSession.entries
  {
    var image := GenerateCaptchaImageBytes(options, httpSession, Success(code), render);
    first := Validate(options, code, httpSession);
    second := Validate(options, code, httpSession);
  }
}
