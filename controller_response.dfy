/**
 * The response envelope a controller method returns: a message, a raw status code, opaque
 * payloads, and stream / redirect flags, with a status code derived from them on every read.
 */
module Response {
  import opened Common

  /** The stand-in the `code` getter uses for an unset raw code; deliberately not a valid status. */
  const UNSET_CODE := 1000
  const DEFAULT_FILE_TYPE := "application/octet-stream"

  /** What the constructor and the `code` setter throw: an `Error("Invalid status code")`. */
  datatype Thrown = InvalidStatusCode

  /** A raw code counts as set when it is truthy: present and not zero. */
  predicate IsSet(raw: Option<int>) {
    raw.Some? && raw.value != 0
  }

  /** The number the getter works on: the raw code if set, else the stand-in. */
  function Effective(raw: Option<int>): int {
    if IsSet(raw) then raw.value else UNSET_CODE
  }

  /** The constructor's check: an explicit (truthy) code must lie in [200, 600). */
  predicate ConstructorAccepts(raw: Option<int>) {
    !IsSet(raw) || 200 <= raw.value < 600
  }

  /**
   * The `code` getter, as written. The error test fires when the effective code IS in [400, 600)
   * and then reports 500; the redirect test reports 302 unless the code is 3xx; anything left
   * outside [200, 600) becomes 200.
   */
  function ResolveCode(raw: Option<int>, errorTruthy: bool, isRedirect: bool): (code: int)
    ensures 200 <= code < 600
  {
    var tmp := Effective(raw);
    if errorTruthy && !(tmp < 400 || tmp >= 600) then 500
    else if isRedirect && !(tmp >= 300 && tmp < 400) then 302
    else if tmp < 200 || tmp >= 600 then 200
    else tmp
  }

  /** The error rule: it forces 500 exactly on a 4xx/5xx code; on any other code the error flag is irrelevant. */
  lemma ErrorRule(raw: Option<int>, isRedirect: bool)
    ensures 400 <= Effective(raw) < 600 ==> ResolveCode(raw, true, isRedirect) == 500
    ensures !(400 <= Effective(raw) < 600) ==>
              ResolveCode(raw, true, isRedirect) == ResolveCode(raw, false, isRedirect)
  {
  }

  /** The redirect rule, once the error rule has not fired. */
  lemma RedirectRule(raw: Option<int>, errorTruthy: bool)
    requires !(errorTruthy && 400 <= Effective(raw) < 600)
    ensures !(300 <= Effective(raw) < 400) ==> ResolveCode(raw, errorTruthy, true) == 302
    ensures 300 <= Effective(raw) < 400 ==> ResolveCode(raw, errorTruthy, true) == Effective(raw)
  {
  }

  /** When neither the error nor the redirect rule fires, a code in [200, 600) is kept and any other becomes 200. */
  lemma FallbackRule(raw: Option<int>, errorTruthy: bool, isRedirect: bool)
    requires !(errorTruthy && 400 <= Effective(raw) < 600)
    requires !(isRedirect && !(300 <= Effective(raw) < 400))
    ensures ResolveCode(raw, errorTruthy, isRedirect) ==
              if 200 <= Effective(raw) < 600 then Effective(raw) else 200
  {
  }

  /** Storing the derived code back as the raw code derives the same code again. */
  lemma ResolveCodeIsFixedPoint(raw: Option<int>, errorTruthy: bool, isRedirect: bool)
    ensures var code := ResolveCode(raw, errorTruthy, isRedirect);
            ResolveCode(Some(code), errorTruthy, isRedirect) == code
  {
  }

  /**
   * The getter as its comment describes it: an error envelope whose code is NOT 4xx/5xx is
   * reported as 500, and one whose code is 4xx/5xx keeps it (unless the redirect rule applies).
   */
  function ResolveCodeIntended(raw: Option<int>, errorTruthy: bool, isRedirect: bool): (code: int)
    ensures 200 <= code < 600
    ensures errorTruthy && !isRedirect ==> 400 <= code < 600
    ensures errorTruthy && !isRedirect && 400 <= Effective(raw) < 600 ==> code == Effective(raw)
    ensures errorTruthy && !(400 <= Effective(raw) < 600) ==> code == 500
    ensures !errorTruthy ==> code == ResolveCode(raw, false, isRedirect)
  {
    var tmp := Effective(raw);
    if errorTruthy && (tmp < 400 || tmp >= 600) then 500
    else if isRedirect && !(tmp >= 300 && tmp < 400) then 302
    else if tmp < 200 || tmp >= 600 then 200
    else tmp
  }

  /**
   * Where the two differ: an error envelope without a code is reported as a 2xx success, and an
   * explicit 404 on an error envelope is overwritten by 500.
   */
  lemma ErrorEnvelopeAsWritten()
    ensures ResolveCode(None, true, false) == 200
    ensures ResolveCodeIntended(None, true, false) == 500
    ensures ResolveCode(Some(404), true, false) == 500
    ensures ResolveCodeIntended(Some(404), true, false) == 404
  {
  }

  /** The `code` setter, as written: an out-of-range value stores 200 and a valid one throws. */
  function SetterOutcome(code: int): (r: Result<int, Thrown>)
    ensures r.Ok? <==> !(200 <= code < 600)
    ensures r.Ok? ==> r.value == 200
    ensures r.Err? ==> r.error == InvalidStatusCode
  {
    if code < 200 || code >= 600 then Ok(200) else Err(InvalidStatusCode)
  }

  /** The setter as its comment describes it: a valid code is stored and an out-of-range one throws. */
  function IntendedSetterOutcome(code: int): (r: Result<int, Thrown>)
    ensures r.Ok? <==> 200 <= code < 600
    ensures r.Ok? ==> r.value == code
    ensures r.Err? ==> r.error == InvalidStatusCode
  {
    if code < 200 || code >= 600 then Err(InvalidStatusCode) else Ok(code)
  }

  /**
   * `response.code = 500`, as a handler of the example application writes it, throws; with the
   * intended setter the plain envelope then reports 500.
   */
  lemma SetterAsWritten()
    ensures SetterOutcome(500) == Err(InvalidStatusCode)
    ensures SetterOutcome(700) == Ok(200)
    ensures IntendedSetterOutcome(500) == Ok(500) && ResolveCode(Some(500), false, false) == 500
  {
  }

  /** The presets' clamp: keep `c` when it lies in [lo, hi), else use `fallback`. */
  function Clamp(c: int, lo: int, hi: int, fallback: int): (r: int)
    requires lo <= fallback < hi
    ensures lo <= r < hi
    ensures lo <= c < hi ==> r == c
    ensures !(lo <= c < hi) ==> r == fallback
  {
    if c < lo || c >= hi then fallback else c
  }

  /** Every field of an envelope, as one value. */
  datatype Fields = Fields(
    message: Option<string>,
    rawCode: Option<int>,
    data: Opaque,
    meta: Opaque,
    error: Opaque,
    isStream: bool,
    fileName: string,
    fileType: string,
    isRedirect: bool,
    redirectUrl: string)

  /** What `toJSON` returns. */
  datatype Json = Json(success: bool, message: Option<string>, code: int, data: Opaque, meta: Opaque, error: Opaque)

  class ControllerResponse {
    var message: Option<string>
    var rawCode: Option<int>
    var data: Opaque
    var meta: Opaque
    var error: Opaque
    var isStream: bool
    var fileName: string
    var fileType: string
    var isRedirect: bool
    var redirectUrl: string

    function State(): Fields
      reads this
    {
      Fields(message, rawCode, data, meta, error, isStream, fileName, fileType, isRedirect, redirectUrl)
    }

    /** The fields a freshly constructed envelope holds. */
    static function Initial(message: Option<string>, code: Option<int>, data: Opaque, meta: Opaque, error: Opaque): Fields {
      Fields(message, code, data, meta, error, false, "", "", false, "")
    }

    /** Construction once the code check has passed; `Create` is the throwing entry point. */
    constructor (message: Option<string>, code: Option<int>, data: Opaque, meta: Opaque, error: Opaque)
      requires ConstructorAccepts(code)
      ensures State() == Initial(message, code, data, meta, error)
    {
      this.message := message;
      this.rawCode := code;
      this.data := data;
      this.meta := meta;
      this.error := error;
      this.isStream := false;
      this.fileName := "";
      this.fileType := "";
      this.isRedirect := false;
      this.redirectUrl := "";
    }

    /** `new ControllerResponse(...)`: throws exactly when an explicit code lies outside [200, 600). */
    static method Create(message: Option<string>, code: Option<int>, data: Opaque, meta: Opaque, error: Opaque)
      returns (r: Result<ControllerResponse, Thrown>)
      ensures r.Err? <==> IsSet(code) && !(200 <= code.value < 600)
      ensures r.Err? ==> r.error == InvalidStatusCode
      ensures r.Ok? ==> fresh(r.value) && r.value.State() == Initial(message, code, data, meta, error)
    {
      if code.Some? && code.value != 0 && (code.value < 200 || code.value >= 600) {
        return Err(InvalidStatusCode);
      }
      var response := new ControllerResponse(message, code, data, meta, error);
      return Ok(response);
    }

    /** The `code` getter: always a status in [200, 600), whatever the fields hold. */
    function Code(): (code: int)
      reads this
      ensures 200 <= code < 600
    {
      ResolveCode(rawCode, Truthy(error), isRedirect)
    }

    /** The `code` setter, as written: only an out-of-range value is accepted, and it stores 200. */
    method SetCode(code: int) returns (outcome: Result<int, Thrown>)
      modifies this
      ensures outcome == SetterOutcome(code)
      ensures outcome.Ok? ==> State() == old(State()).(rawCode := Some(200))
      ensures outcome.Err? ==> State() == old(State())
      ensures outcome.Ok? ==> Code() == (if isRedirect then 302 else 200)
    {
      if code < 200 || code >= 600 {
        rawCode := Some(200);
        outcome := Ok(200);
      } else {
        outcome := Err(InvalidStatusCode);
      }
    }

    /** `toJSON`: `success` holds exactly for a derived 2xx code; the other fields are copied. */
    function ToJson(): (j: Json)
      reads this
      ensures j.code == Code()
      ensures j.success <==> 200 <= Code() < 300
      ensures j.message == message && j.data == data && j.meta == meta && j.error == error
    {
      var code := Code();
      Json(code >= 200 && code < 300, message, code, data, meta, error)
    }

    /** `success(data, meta, message = "Success", code = 200)`: the code argument is ignored. */
    static method Success(data: Opaque, meta: Opaque, message: Option<string>, code: Option<int>)
      returns (r: ControllerResponse)
      ensures fresh(r)
      ensures r.State() == Initial(Some(message.GetOr("Success")), Some(200), data, meta, Undefined)
      ensures r.Code() == 200 && r.ToJson().success
    {
      r := new ControllerResponse(Some(message.GetOr("Success")), Some(200), data, meta, Undefined);
    }

    /** `error(errors, code = 400, message = "Failed")`: a code outside [400, 600) is replaced by 400. */
    static method Error(errors: Opaque, code: Option<int>, message: Option<string>)
      returns (r: ControllerResponse)
      ensures fresh(r)
      ensures r.State() ==
                Initial(Some(message.GetOr("Failed")), Some(Clamp(code.GetOr(400), 400, 600, 400)), Undefined, Undefined, errors)
      ensures r.Code() == if Truthy(errors) then 500 else Clamp(code.GetOr(400), 400, 600, 400)
      ensures !r.ToJson().success
    {
      var c := code.GetOr(400);
      if c < 400 || c >= 600 {
        c := 400;
      }
      r := new ControllerResponse(Some(message.GetOr("Failed")), Some(c), Undefined, Undefined, errors);
    }

    /** `stream(fileName, data, fileType, message = "Success")`: a falsy file type becomes the octet-stream type. */
    static method Stream(fileName: string, data: Opaque, fileType: Option<string>, message: Option<string>)
      returns (r: ControllerResponse)
      ensures fresh(r)
      ensures r.State() ==
                Initial(Some(message.GetOr("Success")), Some(200), data, Undefined, Undefined).(
                  isStream := true,
                  fileName := fileName,
                  fileType := if fileType.None? || fileType.value == "" then DEFAULT_FILE_TYPE else fileType.value)
      ensures r.Code() == 200
    {
      r := new ControllerResponse(Some(message.GetOr("Success")), Some(200), data, Undefined, Undefined);
      r.isStream := true;
      r.fileName := fileName;
      r.fileType := if fileType.Some? && fileType.value != "" then fileType.value else DEFAULT_FILE_TYPE;
    }

    /** `redirect(url, code = 302)`: a code outside [300, 400) is replaced by 302; the derived code is that 3xx code. */
    static method Redirect(url: string, code: Option<int>) returns (r: ControllerResponse)
      ensures fresh(r)
      ensures r.State() ==
                Initial(Some("Redirecting"), Some(Clamp(code.GetOr(302), 300, 400, 302)), Undefined, Undefined, Undefined).(
                  isRedirect := true,
                  redirectUrl := url)
      ensures r.Code() == Clamp(code.GetOr(302), 300, 400, 302)
      ensures 300 <= r.Code() < 400
    {
      var c := code.GetOr(302);
      if c < 300 || c >= 400 {
        c := 302;
      }
      r := new ControllerResponse(Some("Redirecting"), Some(c), Undefined, Undefined, Undefined);
      r.isRedirect := true;
      r.redirectUrl := url;
    }
  }

  /**
   * The error preset with a truthy errors value derives 500 whatever code it was given, so
   * `error(["x"], 999)` reports 500 rather than the 400 it stores.
   */
  lemma ErrorPresetWithErrorsReports500(c: int)
    ensures ResolveCode(Some(Clamp(c, 400, 600, 400)), true, false) == 500
  {
  }
}
