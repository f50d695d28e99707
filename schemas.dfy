/** The request and response models of `schemas.py`. A request body is
    modelled by which fields it carries; validation fills in the defaults
    and enforces the timeout range, collecting one error per bad field as
    pydantic does. */
module Schemas {
  import opened Wrappers

  const MinTimeout: int := 1
  const MaxTimeout: int := 30
  const DefaultTimeout: int := 10
  const DefaultLanguage: string := "c"

  /** A validated request. `language` is any string at this layer. */
  datatype ExecuteRequest = ExecuteRequest(code: string, language: string := DefaultLanguage, timeout: int := DefaultTimeout)

  /** The fields present in the request body. */
  datatype RequestBody = RequestBody(code: Option<string>, language: Option<string>, timeout: Option<int>)

  /** Why a field was refused. */
  datatype FieldError = CodeMissing | TimeoutBelowMinimum(given: int) | TimeoutAboveMaximum(given: int)

  /** `code` is required and has no default. */
  function CodeErrors(body: RequestBody): seq<FieldError>
  {
    if body.code.None? then [CodeMissing] else []
  }

  /** `ge=1, le=30`; an absent timeout takes its default, which is not
      checked again. */
  function TimeoutErrors(body: RequestBody): seq<FieldError>
  {
    match body.timeout
    case None => []
    case Some(t) =>
      if t < MinTimeout then [TimeoutBelowMinimum(t)]
      else if t > MaxTimeout then [TimeoutAboveMaximum(t)]
      else []
  }

  /** Validating a request body. */
  function Validate(body: RequestBody): (r: Result<ExecuteRequest, seq<FieldError>>)
    ensures r.Ok? <==> body.code.Some? && (body.timeout.None? || MinTimeout <= body.timeout.value <= MaxTimeout)
    ensures r.Ok? ==> MinTimeout <= r.value.timeout <= MaxTimeout
    ensures r.Ok? ==> r.value.code == body.code.value
    ensures r.Ok? ==> r.value.language == (if body.language.Some? then body.language.value else DefaultLanguage)
    ensures r.Ok? ==> r.value.timeout == (if body.timeout.Some? then body.timeout.value else DefaultTimeout)
    ensures r.Err? ==> |r.error| > 0 && (CodeMissing in r.error <==> body.code.None?)
    ensures r.Err? && body.timeout.Some? && body.timeout.value < MinTimeout ==>
      TimeoutBelowMinimum(body.timeout.value) in r.error
    ensures r.Err? && body.timeout.Some? && body.timeout.value > MaxTimeout ==>
      TimeoutAboveMaximum(body.timeout.value) in r.error
  {
    var errors := CodeErrors(body) + TimeoutErrors(body);
    if errors != [] then Err(errors)
    else
      var language := if body.language.Some? then body.language.value else DefaultLanguage;
      var timeout := if body.timeout.Some? then body.timeout.value else DefaultTimeout;
      Ok(ExecuteRequest(body.code.value, language, timeout))
  }

  /** The edges of the timeout range: 1 and 30 pass, 0 and 31 do not; a
      request naming only its code gets language "c" and timeout 10. */
  lemma TimeoutBoundaries(code: string)
    ensures Validate(RequestBody(Some(code), None, Some(1))).Ok?
    ensures Validate(RequestBody(Some(code), None, Some(30))).Ok?
    ensures Validate(RequestBody(Some(code), None, Some(0))) == Err([TimeoutBelowMinimum(0)])
    ensures Validate(RequestBody(Some(code), None, Some(31))) == Err([TimeoutAboveMaximum(31)])
    ensures Validate(RequestBody(Some(code), None, None)) == Ok(ExecuteRequest(code))
    ensures MinTimeout <= ExecuteRequest(code).timeout <= MaxTimeout
  {
    assert [] + [TimeoutBelowMinimum(0)] == [TimeoutBelowMinimum(0)];
    assert [] + [TimeoutAboveMaximum(31)] == [TimeoutAboveMaximum(31)];
  }

  datatype TimingInfo = TimingInfo(wallTimeMs: real, containerTimeMs: real)

  /** The response body. `error` is optional and defaults to `None`. */
  datatype ExecuteResponse = ExecuteResponse(
    success: bool,
    output: string,
    error: Option<string> := None,
    exitCode: int,
    timing: TimingInfo)
}
