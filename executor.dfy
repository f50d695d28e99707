/** The `POST /execute` handler of `routes/executor.py`: refuse blank code,
    call the runner once, and copy its result into the response. The wall
    time the handler measures around the call comes in as a parameter. */
module Executor {
  import opened Wrappers
  import PyText
  import Schemas
  import DockerRunner

  const EmptyCodeDetail: string := "Code cannot be empty"

  /** What the handler produces: a response body, an `HTTPException`, or an
      exception from the runner that it lets through. */
  datatype Reply =
    | Response(body: Schemas.ExecuteResponse)
    | HttpError(status: int, detail: string)
    | Raised(failure: DockerRunner.Failure)

  /** The response built from the runner's result. `result.get("container_time_ms", 0)`
      always finds the key, since every result the runner builds has it. */
  function ResponseFor(r: DockerRunner.ExecResult, wallTimeMs: real): (resp: Schemas.ExecuteResponse)
    ensures resp.success == r.success && resp.output == r.stdout && resp.exitCode == r.exitCode
    ensures resp.error == r.stderr
    ensures resp.timing.containerTimeMs == r.containerTimeMs && resp.timing.wallTimeMs == wallTimeMs
  {
    Schemas.ExecuteResponse(
      success := r.success,
      output := r.stdout,
      error := r.stderr,
      exitCode := r.exitCode,
      timing := Schemas.TimingInfo(wallTimeMs := wallTimeMs, containerTimeMs := r.containerTimeMs))
  }

  /** The handler's specification. Blank code (empty or only whitespace) is
      refused with a 400 and nothing else; any other code is run once with
      the request's own language and timeout, and the reply carries the
      run's result (or its exception). */
  function Respond(req: Schemas.ExecuteRequest, wallTimeMs: real, substrate: DockerRunner.LaunchParams -> DockerRunner.Outcome): (reply: Reply)
    ensures reply.HttpError? <==> PyText.AllSpace(req.code)
    ensures reply.HttpError? ==> reply == HttpError(400, EmptyCodeDetail)
    ensures !PyText.AllSpace(req.code) ==>
      var run := DockerRunner.Execute(req.code, req.language, req.timeout, substrate);
      (run.result.Propagated? ==> reply == Raised(run.result.failure)) &&
      (run.result.Returned? ==> reply == Response(ResponseFor(run.result.result, wallTimeMs)))
    ensures reply.Response? ==> (reply.body.success <==> reply.body.error == None)
    ensures reply.Response? && reply.body.success ==> reply.body.exitCode == 0
    ensures reply.Response? && !reply.body.success ==>
      reply.body.output == "" && reply.body.timing.containerTimeMs == 0.0
  {
    PyText.StripEmptyIffAllSpace(req.code);
    if PyText.Strip(req.code) == [] then HttpError(400, EmptyCodeDetail)
    else
      match DockerRunner.Execute(req.code, req.language, req.timeout, substrate).result
      case Propagated(f) => Raised(f)
      case Returned(r) => Response(ResponseFor(r, wallTimeMs))
  }

  /** `execute_code`: the runner is not touched for blank code; otherwise it
      is called exactly once, with `req.code`, `req.language` and
      `timeout=req.timeout`. */
  method ExecuteCode(runner: DockerRunner.Runner, substrate: DockerRunner.LaunchParams -> DockerRunner.Outcome,
                     req: Schemas.ExecuteRequest, wallTimeMs: real)
    returns (reply: Reply)
    modifies runner
    ensures reply == Respond(req, wallTimeMs, substrate)
    ensures PyText.AllSpace(req.code) ==> unchanged(runner)
    ensures !PyText.AllSpace(req.code) ==>
      runner.calls == old(runner.calls) + [DockerRunner.Call(req.code, req.language, req.timeout)]
  {
    PyText.StripEmptyIffAllSpace(req.code);
    if PyText.Strip(req.code) == [] {
      return HttpError(400, EmptyCodeDetail);
    }
    var result, launched := runner.RunCodeInContainer(substrate, req.code, req.language, timeout := req.timeout);
    match result
    case Propagated(f) =>
      reply := Raised(f);
    case Returned(r) =>
      reply := Response(ResponseFor(r, wallTimeMs));
  }
}
