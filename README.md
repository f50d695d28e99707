# Sandboxed code runner: a Dafny model

This project models the code runner of a small web service. The service
takes untrusted C or Python source, runs it in a throw-away Docker container
with no network, 128 MiB of memory and half a CPU, and returns the captured
output. The model covers three parts:

- **Command builder** (`DockerCommand`). It escapes every single quote of
  the code as `'\''`. It then splices the escaped code into the fixed
  `sh -c "echo '…' > /tmp/main.c && gcc … && /tmp/main"` template, or the
  Python one. Python's `str.replace` is modelled in `PyText.Replace`.
- **Runner** (`DockerRunner`). It has these parts:
  - the launch parameters and the resource policy they must satisfy;
  - the exception types the Docker call can raise, with the library's
    subclass relation (`ImageNotFound` is an `APIError`);
  - the `except` chain, run as "first clause whose class matches";
  - the mapping of every outcome to one result record;
  - the lazily created client, which lives in the `Runner` class. That class
    stands for the module-level state of `docker_runner.py`.
- **Boundary** (`Schemas` and `Executor`). `Schemas` holds the request
  schema: its defaults and the `1 ≤ timeout ≤ 30` bound. `Executor` holds the
  `POST /execute` handler: it refuses blank code, calls the runner once, and
  copies the result into the response.

The escaping is checked against `ShellWords`. That module is a small
reference model of how a POSIX shell reads one word under two sections of
the POSIX.1-2017 Shell Command Language: section 2.2.1, "Escape Character
(Backslash)", and section 2.2.2, "Single-Quotes". The central results are:

- `DockerCommand.EscapeRoundTrip` and `DockerCommand.EchoArgumentRoundTrip`:
  reading `'` + escape(code) + `'` gives back exactly `code`, for every code.
  The quoted region closes where the template closes it, so no code can end
  it early.
- `DockerCommand.ScriptRoundTrip`: in both templates, the word after `echo`
  is the code, and what follows it is the template's fixed tail.

The Docker call is not modelled. Its outcome comes from `substrate`, an
arbitrary function from launch parameters to an `Outcome`. The clock is a
parameter too: the elapsed milliseconds arrive on a `Completed` outcome, and
the handler gets its wall time passed in.

The model of `docker_runner.py` and the handler follows the form of the code:

- Pure code is written as functions and lemmas: command building, outcome
  mapping, validation, and the handler's logic.
- The module-global client is a class with an `Option` field. `GetClient`
  and `RunCodeInContainer` are methods that update it.
- The handler is a method, because it calls the runner method.

`RunCodeInContainer` is proved against `Execute`, and `ExecuteCode` against
`Respond`.

Three behaviours of the code are easy to miss, and the model keeps them:

- **Client first.** The client is acquired before the language is checked.
  An unsupported language therefore skips the launch but still creates the
  client (`Runner.RunCodeInContainer` ensures `client.Some?`).
- **No timeout branch.** There is no timeout-specific branch and no
  catch-all. An exception that none of the three clauses names propagates
  (`RunResult.Propagated`), and the handler lets it through.
- **Any language string.** `language` is an unconstrained string. Every
  value other than `"c"` and `"python"` gets the "Unsupported language"
  result.

## Model

| member | source | states |
|---|---|---|
| PyText.Replace | backend/app/docker_runner.py:42-43 | `str.replace` for a non-empty pattern: text without the pattern's first character comes back unchanged |
| PyText.Strip | backend/app/routes/executor.py:20 | `str.strip()`: the result is the slice of the input left between a whitespace prefix and a whitespace suffix, and it neither starts nor ends with whitespace |
| PyText.StripEmptyIffAllSpace | backend/app/routes/executor.py:20 | `code.strip()` is empty exactly when the code is empty or all whitespace (both directions) |
| DockerCommand.EscapeCons | backend/app/docker_runner.py:42 | escaping maps a leading `'` to `'\''`, keeps any other leading character, and escapes the rest independently |
| DockerCommand.EscapeConcat | backend/app/docker_runner.py:42 | escaping a concatenation is the concatenation of the escaped parts, so each quote is replaced on its own and nothing else moves |
| DockerCommand.EscapeLength | backend/app/docker_runner.py:42 | the escaped length is the code's length plus three per single quote |
| DockerCommand.EscapeQuoteFree | backend/app/docker_runner.py:42 | code without a single quote is spliced in unchanged |
| DockerCommand.EscapeRoundTrip | backend/app/docker_runner.py:41-42 | inside single quotes the escaped code reads back as exactly the code, and the region closes at the template's quote, whatever follows |
| DockerCommand.EchoArgumentRoundTrip | backend/app/docker_runner.py:41-46 | `'` + escaped code + `'` is one shell word whose value is exactly the code, for every code (empty, one quote, many quotes) |
| DockerCommand.UnescapedCodeLeavesQuotes | backend/app/docker_runner.py:41-42 | without escaping, the code `';r;'` ends the quoted word early and starts a second command; with escaping, the same code is one word |
| DockerCommand.SubstituteOnce | backend/app/docker_runner.py:35-43 | substituting into the C template places the inserted text between the fixed prefix and suffix once; a `$CODE` inside it is not substituted again |
| DockerCommand.BuildCommand | backend/app/docker_runner.py:33-54 | a command exists exactly for "c" and "python"; each is `sh -c "` + the inner script + `"`, with the code quoted as the `echo` argument and followed by the language's fixed tail |
| DockerCommand.ScriptRoundTrip | backend/app/docker_runner.py:33-46 | in either template's inner script, the word after `echo` is exactly the code, and what follows it is the fixed compile-and-run or interpret tail |
| DockerRunner.Launch | backend/app/docker_runner.py:58-70 | every launch uses the executor image, removal, no network, 128m memory and a 50 000/100 000 CPU quota, passes the command, and passes exactly the caller's timeout |
| DockerRunner.LaunchPolicyIsFixed | backend/app/docker_runner.py:58-70 | two launches differ only in command and timeout |
| DockerRunner.FirstMatch | backend/app/docker_runner.py:82-101 | picks the first `except` clause whose class the exception is an instance of, or none |
| DockerRunner.Catch | backend/app/docker_runner.py:82-108 | an exception propagates exactly when no clause matches; a caught one yields `success=false`, empty stdout and container time 0 |
| DockerRunner.CatchInSourceOrder | backend/app/docker_runner.py:82-108 | with the source's clause order, `ContainerError`, `ImageNotFound` and other `APIError`s each get their own clause, and anything else propagates |
| DockerRunner.Normalise | backend/app/docker_runner.py:71-108 | clean run: success, captured stdout, no stderr, exit 0 and the elapsed time. `ContainerError`: its exit status, and its decoded stderr if non-empty, else `str(e)`. Image missing: exit 1 and the image message. Other API error: exit 1 and "Docker API error: " + explanation. Every failure has empty stdout and time 0 |
| DockerRunner.ImageMissingMessageNamesRemedy | backend/app/docker_runner.py:94-97 | the image-missing message names `sdtime-executor:latest` and "docker compose build executor" |
| DockerRunner.ImageNotFoundClauseComesFirst | backend/app/docker_runner.py:90-108 | `ImageNotFound` is also an `APIError`; it gets the image message only because its clause comes first, and with the clauses swapped it would get a different message |
| DockerRunner.Execute | backend/app/docker_runner.py:31-108 | there is no launch exactly for an unsupported language, which gets `success=false`, empty stdout, "Unsupported language: " + language, exit 1 and time 0; otherwise there is one launch under the sandbox policy with the built command and the caller's timeout, and its outcome is normalised |
| DockerRunner.Runner.constructor | backend/app/docker_runner.py:12 | the module starts with no client |
| DockerRunner.Runner.GetClient | backend/app/docker_runner.py:15-19 | afterwards the client is set; an existing client is returned unchanged, and one is created only when there was none |
| DockerRunner.Runner.RunCodeInContainer | backend/app/docker_runner.py:22-108 | returns what `Execute` specifies; the client is acquired even for an unsupported language and is never replaced; the call is appended once, with its arguments, to the ghost history `calls` |
| Schemas.Validate | backend/app/schemas.py:5-8 | a body is accepted exactly when `code` is present and any given timeout is in [1,30]; defaults are "c" and 10; the accepted timeout is always in range; each bad field is reported |
| Schemas.TimeoutBoundaries | backend/app/schemas.py:6-8 | timeouts 1 and 30 are accepted and 0 and 31 rejected; a body with only `code` gets language "c" and timeout 10, which is in range |
| Executor.ResponseFor | backend/app/routes/executor.py:27-36 | the response copies `success`, `stdout` as `output`, `stderr` as `error`, `exit_code` and the container time, and carries the measured wall time |
| Executor.Respond | backend/app/routes/executor.py:20-36 | blank code (both directions) yields a 400 with "Code cannot be empty"; other code yields the run's response or its exception; a response's `error` is `None` exactly when it succeeded, a success has exit code 0, and a failure has empty output and container time 0 |
| Executor.ExecuteCode | backend/app/routes/executor.py:14-36 | replies as `Respond` specifies; blank code leaves the runner untouched, and other code calls it exactly once with `req.code`, `req.language` and `req.timeout` |

## Left out

- The outer `sh -c "…"` layer is not modelled. This covers how the
  Docker library splits the command string, the double-quoted region, and
  what `echo` does with backslashes. Code containing `"`, `\`, `$` or a
  backtick is seen by that layer before the inner shell reads the
  single-quoted word. The round trip is therefore proved for the
  single-quote layer only, not for the whole command. It also holds for
  code containing NUL (`'\0'`), which cannot reach `sh -c` through a
  process's arguments, so NUL is outside what it covers.
- `ShellWords` covers only blanks, operator characters, backslash and
  single quotes. An unquoted double quote, `$`, backtick, `*`, `?`, `[`,
  `#` or `~` makes it give up (`None`). A trailing lone backslash is an
  error there. None of these occur outside the quotes of the built command.
- The Docker library is not modelled: `docker.from_env`, `containers.run`,
  image pulling, and the text of `str(e)` for a `ContainerError`. The
  outcome of the call is the `substrate` parameter. Creating the client
  always succeeds in the model.
- Timing is not modelled: `time.perf_counter`, the elapsed-millisecond
  arithmetic and `round(…, 2)`. The elapsed time arrives on the `Completed`
  outcome, and the wall time is a parameter of the handler.
- Byte handling is not modelled: UTF-8 decoding and the
  `isinstance(container, bytes)` / `str(container)` choice. Captured output
  and `ContainerError` stderr are already-decoded strings.
- PyText.Replace: `str.replace` with an empty pattern is not modelled. The
  runner only replaces the non-empty literals `'` and `$CODE`.
- Schemas.Validate: pydantic's lax coercion is not modelled (for example,
  the string "5" accepted as a timeout), nor its error texts. FastAPI's
  422 status for a refused body is not modelled either.
- Executor.ExecuteCode: how FastAPI turns a propagated exception into a
  500 response is not modelled. The handler's reply carries the exception
  as `Raised`.
- Concurrency is not modelled: FastAPI's async dispatch and concurrent use
  of the shared client. The model is single-threaded.
- `backend/app/main.py` (application setup, CORS, router registration) is
  not part of this model.
