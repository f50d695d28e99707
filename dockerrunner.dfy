/** The execution orchestrator of `docker_runner.py`: the container launch
    with its fixed resource policy, the mapping of every outcome of the
    Docker call to one result record, and the lazily created client held in
    the module-level `client` variable. The Docker library itself is not
    modelled: the call's outcome comes from `substrate`, an arbitrary
    function of the launch parameters. */
module DockerRunner {
  import opened Wrappers
  import PyText
  import DockerCommand

  const ExecutorImage: string := "sdtime-executor:latest"

  /** The keyword arguments of `containers.run`. */
  datatype LaunchParams = LaunchParams(
    image: string,
    command: string,
    remove: bool,
    networkDisabled: bool,
    memLimit: string,
    cpuPeriod: int,
    cpuQuota: int,
    stderr: bool,
    stdout: bool,
    detach: bool,
    timeout: int)

  /** The resource policy every run must carry: the fixed executor image, a
      container removed after the run, no network, 128 MiB of memory, half of
      one CPU (quota over period), output captured, and a blocking call. */
  predicate SandboxPolicy(p: LaunchParams)
  {
    p.image == ExecutorImage && p.remove && p.networkDisabled &&
    p.memLimit == "128m" && p.cpuPeriod == 100_000 && 2 * p.cpuQuota == p.cpuPeriod &&
    p.stderr && p.stdout && !p.detach
  }

  /** The parameters of the one `containers.run` call. */
  function Launch(command: string, timeout: int): (p: LaunchParams)
    ensures SandboxPolicy(p)
    ensures p.command == command && p.timeout == timeout
  {
    LaunchParams(
      image := ExecutorImage,
      command := command,
      remove := true,
      networkDisabled := true,
      memLimit := "128m",
      cpuPeriod := 100_000,
      cpuQuota := 50_000,
      stderr := true,
      stdout := true,
      detach := false,
      timeout := timeout)
  }

  /** Only the command and the timeout vary from one launch to another. */
  lemma LaunchPolicyIsFixed(c1: string, t1: int, c2: string, t2: int)
    ensures Launch(c1, t1).(command := c2, timeout := t2) == Launch(c2, t2)
  {
  }

  /** The exceptions the Docker call can raise. `ImageNotFound` is a
      subclass of `APIError` in the Docker library; `APIError` here stands
      for every other `APIError`; `Unhandled` for any exception no clause
      names (a client-side read timeout, for one). `stderr` is `None` or the
      decoded bytes; `text` is `str(e)`. */
  datatype Failure =
    | ContainerError(exitStatus: int, stderr: Option<string>, text: string)
    | ImageNotFound(explanation: Option<string>)
    | APIError(explanation: Option<string>)
    | Unhandled(text: string)

  /** What the Docker call did: it returned the decoded output, after the
      given number of milliseconds (already rounded), or it raised. */
  datatype Outcome = Completed(output: string, elapsedMs: real) | Raised(failure: Failure)

  /** The `except` clauses of the runner. */
  datatype Clause = CatchContainerError | CatchImageNotFound | CatchAPIError

  /** `isinstance(e, cls)` for the clause's class. */
  predicate IsInstance(f: Failure, c: Clause)
  {
    match c
    case CatchContainerError => f.ContainerError?
    case CatchImageNotFound => f.ImageNotFound?
    case CatchAPIError => f.ImageNotFound? || f.APIError?
  }

  /** The clauses in the order the source lists them. */
  const ExceptClauses: seq<Clause> := [CatchContainerError, CatchImageNotFound, CatchAPIError]

  /** The index of the clause Python picks: the first whose class matches. */
  function FirstMatch(f: Failure, clauses: seq<Clause>): (k: Option<nat>)
    ensures k.Some? ==> k.value < |clauses| && IsInstance(f, clauses[k.value])
    ensures k.Some? ==> forall j :: 0 <= j < k.value ==> !IsInstance(f, clauses[j])
    ensures k.None? ==> forall j :: 0 <= j < |clauses| ==> !IsInstance(f, clauses[j])
  {
    if clauses == [] then None
    else if IsInstance(f, clauses[0]) then Some(0)
    else match FirstMatch(f, clauses[1..])
      case None => None
      case Some(k) => Some(k + 1)
  }

  /** The runner's result dictionary. */
  datatype ExecResult = ExecResult(
    success: bool,
    stdout: string,
    stderr: Option<string>,
    exitCode: int,
    containerTimeMs: real)

  /** The runner either returns a result or lets an exception propagate. */
  datatype RunResult = Returned(result: ExecResult) | Propagated(failure: Failure)

  /** `f"{x}"` for an optional explanation. */
  function Format(x: Option<string>): string
  {
    match x
    case None => "None"
    case Some(s) => s
  }

  /** The remedy the image-missing message tells the operator to run. */
  const BuildRemedy: string := "docker compose build executor"

  const ImageMissingMessage: string :=
    "Executor image '" + ExecutorImage + ("' not found. " + "Run: ") + BuildRemedy

  /** The result built by one `except` clause. */
  function ClauseResult(c: Clause, f: Failure): ExecResult
    requires IsInstance(f, c)
  {
    match c
    case CatchContainerError =>
      var message := if f.stderr.Some? && f.stderr.value != "" then f.stderr.value else f.text;
      ExecResult(false, "", Some(message), f.exitStatus, 0.0)
    case CatchImageNotFound =>
      ExecResult(false, "", Some(ImageMissingMessage), 1, 0.0)
    case CatchAPIError =>
      ExecResult(false, "", Some("Docker API error: " + Format(f.explanation)), 1, 0.0)
  }

  /** A raised exception run through a chain of `except` clauses. */
  function Catch(clauses: seq<Clause>, f: Failure): (r: RunResult)
    ensures r.Propagated? <==> forall j :: 0 <= j < |clauses| ==> !IsInstance(f, clauses[j])
    ensures r.Propagated? ==> r.failure == f
    ensures r.Returned? ==> !r.result.success && r.result.stdout == "" && r.result.containerTimeMs == 0.0
  {
    match FirstMatch(f, clauses)
    case None => Propagated(f)
    case Some(k) => Returned(ClauseResult(clauses[k], f))
  }

  /** The clause the source's order picks for each kind of exception:
      `ContainerError` and `ImageNotFound` their own, any other `APIError`
      the last, anything else none. */
  lemma CatchInSourceOrder(f: Failure)
    ensures f.ContainerError? ==> Catch(ExceptClauses, f) == Returned(ClauseResult(CatchContainerError, f))
    ensures f.ImageNotFound? ==> Catch(ExceptClauses, f) == Returned(ClauseResult(CatchImageNotFound, f))
    ensures f.APIError? ==> Catch(ExceptClauses, f) == Returned(ClauseResult(CatchAPIError, f))
    ensures f.Unhandled? ==> Catch(ExceptClauses, f) == Propagated(f)
  {
    var cs := ExceptClauses;
    assert cs[0] == CatchContainerError && cs[1] == CatchImageNotFound && cs[2] == CatchAPIError;
    match f
    case ContainerError(_, _, _) =>
      assert FirstMatch(f, cs) == Some(0);
    case ImageNotFound(_) =>
      assert FirstMatch(f, cs) == Some(1);
    case APIError(_) =>
      assert FirstMatch(f, cs) == Some(2);
    case Unhandled(_) =>
      assert FirstMatch(f, cs) == None;
  }

  /** The outcome of the Docker call mapped to the runner's result. */
  function Normalise(o: Outcome): (r: RunResult)
    ensures r.Propagated? <==> o.Raised? && o.failure.Unhandled?
    ensures r.Propagated? ==> r.failure == o.failure
    ensures r.Returned? ==> (r.result.success <==> o.Completed?)
    ensures r.Returned? && !r.result.success ==>
      r.result.stdout == "" && r.result.containerTimeMs == 0.0 && r.result.stderr.Some?
    ensures o.Completed? ==>
      r.Returned? && r.result.stdout == o.output && r.result.stderr == None &&
      r.result.exitCode == 0 && r.result.containerTimeMs == o.elapsedMs
    ensures o.Raised? && o.failure.ContainerError? ==>
      r.Returned? && r.result.exitCode == o.failure.exitStatus &&
      r.result.stderr == Some(if o.failure.stderr.Some? && o.failure.stderr.value != ""
                              then o.failure.stderr.value else o.failure.text)
    ensures o.Raised? && o.failure.ImageNotFound? ==>
      r.Returned? && r.result.exitCode == 1 && r.result.stderr == Some(ImageMissingMessage)
    ensures o.Raised? && o.failure.APIError? ==>
      r.Returned? && r.result.exitCode == 1 &&
      r.result.stderr == Some("Docker API error: " + Format(o.failure.explanation))
  {
    match o
    case Completed(output, elapsedMs) => Returned(ExecResult(true, output, None, 0, elapsedMs))
    case Raised(f) =>
      CatchInSourceOrder(f);
      Catch(ExceptClauses, f)
  }

  /** `x` occurs in `a + x + b` right after `a`. */
  lemma OccursAfter(a: string, x: string, b: string)
    ensures PyText.OccursAt(a + x + b, x, |a|)
    ensures PyText.Contains(a + x + b, x)
  {
    assert (a + x + b)[|a|..|a| + |x|] == x;
    assert PyText.OccursAt(a + x + b, x, |a|);
    assert 0 <= |a| <= |a + x + b|;
    assert PyText.Contains(a + x + b, x);
  }

  /** The image-missing message names the image and how to build it. */
  lemma ImageMissingMessageNamesRemedy()
    ensures PyText.Contains(ImageMissingMessage, ExecutorImage)
    ensures PyText.Contains(ImageMissingMessage, BuildRemedy)
  {
    var head, middle := "Executor image '", "' not found. " + "Run: ";
    PyText.Regroup(head, ExecutorImage, middle, BuildRemedy, "");
    OccursAfter(head, ExecutorImage, middle + BuildRemedy);
    OccursAfter(head + ExecutorImage + middle, BuildRemedy, "");
  }

  /** `ImageNotFound` is also an `APIError`: only because its clause comes
      first does it get the image-missing message. With the two clauses
      swapped it would be reported as a generic API error. */
  lemma ImageNotFoundClauseComesFirst(e: Option<string>)
    ensures IsInstance(ImageNotFound(e), CatchAPIError)
    ensures Catch(ExceptClauses, ImageNotFound(e)) == Returned(ClauseResult(CatchImageNotFound, ImageNotFound(e)))
    ensures Catch([CatchContainerError, CatchAPIError, CatchImageNotFound], ImageNotFound(e))
         == Returned(ClauseResult(CatchAPIError, ImageNotFound(e)))
    ensures ClauseResult(CatchImageNotFound, ImageNotFound(e)).stderr
         != ClauseResult(CatchAPIError, ImageNotFound(e)).stderr
  {
    CatchInSourceOrder(ImageNotFound(e));
    var swapped := [CatchContainerError, CatchAPIError, CatchImageNotFound];
    assert swapped[0] == CatchContainerError && swapped[1] == CatchAPIError;
    assert FirstMatch(ImageNotFound(e), swapped) == Some(1);
    assert ImageMissingMessage[0] == 'E';
    assert ("Docker API error: " + Format(e))[0] == 'D';
  }

  function UnsupportedResult(language: string): ExecResult
  {
    ExecResult(false, "", Some("Unsupported language: " + language), 1, 0.0)
  }

  /** One run of `run_code_in_container` as seen from outside: what it
      returns or raises, and the parameters of the container launch, if
      there was one. */
  datatype Run = Run(result: RunResult, launched: Option<LaunchParams>)

  /** The specification of one run: build the command; for an unsupported
      language answer at once without a launch; otherwise launch exactly
      once under the sandbox policy with the caller's timeout and map the
      outcome. */
  function Execute(code: string, language: string, timeout: int, substrate: LaunchParams -> Outcome): (run: Run)
    ensures run.launched.None? <==> !(language == "c" || language == "python")
    ensures run.launched.None? ==>
      run.result.Returned? && !run.result.result.success && run.result.result.stdout == "" &&
      run.result.result.stderr == Some("Unsupported language: " + language) &&
      run.result.result.exitCode == 1 && run.result.result.containerTimeMs == 0.0
    ensures run.launched.Some? ==>
      SandboxPolicy(run.launched.value) && run.launched.value.timeout == timeout &&
      Some(run.launched.value.command) == DockerCommand.BuildCommand(code, language) &&
      run.result == Normalise(substrate(run.launched.value))
  {
    match DockerCommand.BuildCommand(code, language)
    case None => Run(Returned(UnsupportedResult(language)), None)
    case Some(cmd) =>
      var p := Launch(cmd, timeout);
      Run(Normalise(substrate(p)), Some(p))
  }

  /** A handle on the Docker daemon, as `docker.from_env()` creates it. */
  class DockerClient {
    constructor FromEnv()
    {
    }
  }

  /** The arguments of one call of the runner. */
  datatype Call = Call(code: string, language: string, timeout: int)

  /** The state of the `docker_runner` module: the shared client, created
      on first use. `calls` is a ghost history of the runner's calls that
      exists only so that the handler's contract can say how often it calls
      the runner; the source records nothing. */
  class Runner {
    var client: Option<DockerClient>
    ghost var calls: seq<Call>

    /** The module as imported: no client yet. */
    constructor ()
      ensures client == None && calls == []
    {
      client := None;
      calls := [];
    }

    /** `_get_client`: create the client on the first call only; every later
        call returns that same handle and creates nothing. */
    method GetClient() returns (dk: DockerClient)
      modifies this`client
      ensures client == Some(dk)
      ensures old(client).Some? ==> dk == old(client).value
      ensures old(client).None? ==> fresh(dk)
    {
      if client.None? {
        var created := new DockerClient.FromEnv();
        client := Some(created);
      }
      dk := client.value;
    }

    /** `run_code_in_container`. The client is acquired before the language
        is looked at, so even an unsupported language leaves a client in
        place. Each call is appended once to the ghost history `calls`. */
    method RunCodeInContainer(substrate: LaunchParams -> Outcome, code: string, language: string := "c", timeout: int := 10)
      returns (result: RunResult, launched: Option<LaunchParams>)
      modifies this
      ensures Run(result, launched) == Execute(code, language, timeout, substrate)
      ensures client.Some? && (old(client).Some? ==> client == old(client))
      ensures calls == old(calls) + [Call(code, language, timeout)]
    {
      calls := calls + [Call(code, language, timeout)];
      var dk := GetClient();
      var cmd := DockerCommand.BuildCommand(code, language);
      if cmd.None? {
        return Returned(UnsupportedResult(language)), None;
      }
      var p := Launch(cmd.value, timeout);
      var outcome := substrate(p);
      result, launched := Normalise(outcome), Some(p);
    }
  }
}
