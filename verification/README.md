# tss2_verifyquote: a Dafny model of the quote-verification tool's orchestration

`tss2_verifyquote` is the tpm2-tools front end for checking a TPM2 attestation
quote. Its logic is small. It records five command-line options, checks that
they are all present and that at most one of them reads standard input, and
then loads the qualifying data, the signature and the quote info. It hands
them to `Fapi_VerifyQuote` and, when verification succeeds, frees them. The
exit code is 0, 1 or -1.

This project models that orchestration as pure functions:

- `wrappers.dfy` (`Wrappers`): `Option` and `Result`.
- `options.dfy` (`Options`): the configuration record that replaces the
  global `ctx`, the `on_option` callback (`OnOption`), and the callback
  applied over a whole command line (`ApplyAll`).
- `precondition.dfy` (`Precondition`): the presence checks in their fixed
  order, and the rule that at most one of signature, qualifying data, quote
  info and PCR log may be `-` (`Validate`).
- `verifyquote.dfy` (`VerifyQuote`): `tss2_tool_onrun` as written (`Run`).
  The checks and the three loads (`LoadArtifacts`) come first. They are
  shared with the corrected run.
  The file system and the verification library are oracles: an `Env` holds
  one load reply per artifact and the verifier's result code. A run returns
  an exit code and a trace of `Load`, `Verify` and `Free` events.
  Ownership is read off the trace. `Safe` replays the trace and rejects a
  double free, a free of an unowned buffer, or an unowned buffer passed to
  the verifier. `Live` gives the buffers still owned at exit. `Acquired`
  and `Freed` count buffers with multiplicity.
- `intended.dfy` (`Intended`): the same run with the two defects listed
  under Findings corrected (`RunIntended`).
- `example.dfy` (`Example`): the invocation
  `-q q.bin -i info.txt -p pub.pem -s sig.bin -l pcr.log` followed from
  option recording to exit code.

The main model is the code as written. The source itself shows that two of
its behaviours are unintended:

- The comment at tools/fapi/tss2_verifyquote.c:91 says the PCR event log is
  read along with the other three artifacts, and line 78 makes `--pcrLog`
  mandatory. But the guard at line 116 tests a pointer that line 108 sets to
  null. So the log is never loaded, and the verifier always gets a null log.
- Every other exit frees what it acquired (lines 105, 112-113, 120-122 and
  136-139). A failed verification returns 1 at line 133 without freeing the
  three buffers.

Both behaviours are proved as lemmas of `VerifyQuote`. The corrected
behaviour is proved of `Intended.RunIntended`.

## Model

| member | source | states |
|---|---|---|
| `Options.OnOption` | tools/fapi/tss2_verifyquote.c:21-40 | The callback stores the value only in the field whose letter is the key (`q`, `l`, `i`, `p`, `s`). Every other field keeps its value. An unrecognised letter leaves the configuration unchanged. The callback always returns true. |
| `Options.LastOccurrenceWins` | tools/fapi/tss2_verifyquote.c:21-40 | After the callback has run over a command line, each field holds the value of the last option with its letter. A field whose letter never occurs keeps its initial value. |
| `Options.UnknownKeysIgnored` | tools/fapi/tss2_verifyquote.c:21-40 | A command line made only of unrecognised letters leaves the configuration unchanged. |
| `Precondition.Validate` | tools/fapi/tss2_verifyquote.c:57-89 | A `Missing` error happens exactly when some option is absent, and the field it names is absent. `MultipleStdin` happens exactly when all options are present and two or more of the four stdin-capable artifacts are `-`. Success happens exactly when all are present and at most one is `-`. On success every path is carried unchanged. |
| `Precondition.ReportsFirstMissing` | tools/fapi/tss2_verifyquote.c:58-82 | The option reported missing is the first absent one in the order qualifying data, quote info, public key path, signature, PCR log. The property holds in both directions. |
| `Precondition.StdinCountIsCardinality` | tools/fapi/tss2_verifyquote.c:83-84 | The source's sum of four `strcmp` tests equals the number of artifacts that name standard input. The public key path is never among them. |
| `Precondition.PublicKeyPathNotCounted` | tools/fapi/tss2_verifyquote.c:83-89 | Changing the public key path, to `-` or to anything else, changes neither the validation verdict nor any other path. The new value is passed on literally. |
| `VerifyQuote.LoadArtifacts` | tools/fapi/tss2_verifyquote.c:57-115 | The checks and loads reach the verifier exactly when validation passes and all three loads succeed. Every other way out of them ends the run with -1. |
| `VerifyQuote.Run` | tools/fapi/tss2_verifyquote.c:56-142 | The exit code is always -1, 0 or 1. The lemmas below state the rest of the run's behaviour. |
| `VerifyQuote.UsageErrorDoesNothing` | tools/fapi/tss2_verifyquote.c:57-89 | A rejected configuration exits with -1. No load is attempted and the verifier is not called. |
| `VerifyQuote.LoadsFollowSourceOrder` | tools/fapi/tss2_verifyquote.c:91-115 | The attempted loads are a prefix of qualifying data, signature, quote info. Each load reads the path configured for its artifact. Each load is attempted only after the earlier ones succeeded. The first failing load is the last one attempted. No load happens when validation fails, and all three happen when validation passes and the loads succeed. |
| `VerifyQuote.LoadsReadConfiguredPaths` | tools/fapi/tss2_verifyquote.c:83-115 | Every load reads the path configured for the artifact it loads (lines 94, 102, 109). No run has more than one load that reads standard input (`-`), which is what the rule at lines 83-89 is for. |
| `VerifyQuote.LoadFailureReleasesEarlierBuffers` | tools/fapi/tss2_verifyquote.c:91-115 | When load k is the first to fail, the exit code is -1. Exactly loads 0..k were attempted and the verifier is not called. The buffers freed are exactly those of loads before k, each once. Replaying the trace shows no misuse and nothing left owned. |
| `VerifyQuote.VerifyCalledOnlyAfterAllLoads` | tools/fapi/tss2_verifyquote.c:91-130 | The verifier is called at most once. It is called exactly when validation passes and all three loads succeed, and the call comes right after the three loads. It receives the configured public key path unchanged. It receives the qualifying data and signature buffers with their sizes, and the quote info buffer. Its PCR log argument is null. |
| `VerifyQuote.PcrLogNeverLoaded` | tools/fapi/tss2_verifyquote.c:108-130 | The PCR log is never loaded, and every verification call gets a null log. The run is the same whatever loading the log would have returned. |
| `VerifyQuote.VerifyFailureLeaks` | tools/fapi/tss2_verifyquote.c:127-134 | A failed verification exits with 1 and frees nothing. All three loaded buffers, three distinct ones, are still owned at exit. |
| `VerifyQuote.SuccessReleasesEverything` | tools/fapi/tss2_verifyquote.c:127-141 | A successful verification exits with 0. Each of the three loaded buffers is freed exactly once and nothing is left owned. The last call frees the null PCR log pointer. |
| `VerifyQuote.ExitCodes` | tools/fapi/tss2_verifyquote.c:56-142 | The exit code is 0 exactly when the verifier is reached and succeeds. It is 1 exactly when the verifier is reached and fails. It is -1 exactly when the verifier is not reached. |
| `VerifyQuote.OwnershipRespected` | tools/fapi/tss2_verifyquote.c:91-141 | No run double-frees, frees an unowned buffer, or passes an unowned buffer to the verifier. A run ends owning nothing exactly when its exit code is not 1. |
| `Intended.RunIntended` | tools/fapi/tss2_verifyquote.c:108-141 | The corrected run's exit code is always -1, 0 or 1. |
| `Intended.AgreesBeforePcrLoad` | tools/fapi/tss2_verifyquote.c:56-115 | Until all three loads have succeeded, the corrected run is identical to the source's run. |
| `Intended.ForwardsPcrLog` | tools/fapi/tss2_verifyquote.c:116-130 | The corrected run loads the PCR log after the quote info. When that load succeeds, it passes the loaded log to the verifier. |
| `Intended.ReleasesOnEveryExit` | tools/fapi/tss2_verifyquote.c:131-141 | Every exit of the corrected run, a failed verification included, frees each acquired buffer exactly once and ends owning nothing. Its exit code differs from the source's only when the PCR log load fails. |
| `Example.ExampleConfig` | tools/fapi/tss2_verifyquote.c:21-89 | The example command line fills all five fields, and validation accepts them. |
| `Example.ExampleInvocation` | tools/fapi/tss2_verifyquote.c:56-142 | With every file present, the example loads three files, not four. It exits 0 owning nothing when the verifier succeeds. When the verifier fails it exits 1 still owning three buffers, while the corrected run exits 1 owning nothing. |

## Left out

- `open_read_and_close` (file and standard-input reading) is an oracle. Each load returns either bytes or a non-zero `TSS2_RC`. Its internals, and the difference between reading a file and reading stdin, are not modelled.
- `Fapi_VerifyQuote` is an oracle that returns only a result code. Quote parsing, PCR digest computation, signature checking and the FAPI context argument are not modelled.
- `tss2_tool_onstart` and the `tpm2_options_new` option framework are not modelled: long option names, getopt parsing, and rejection of unknown options. The framework's only visible effect is the series of `on_option` calls, modelled by `ApplyAll`. A `--pcrLog` given without a value reaches the callback as `None`.
- Diagnostics are not modelled: the `fprintf` messages, `LOG_PERR`, and the `output_enabled` global. They affect nothing but output text.
- The quote info buffer's NUL termination is not modelled (the source requests no size for it). Neither are pointer values: a buffer is identified by the artifact that filled it, which keeps buffers from different loads distinct.
- The conversion of `tss2_tool_onrun`'s return value into the process exit status happens in the shared tool template. That template is not part of this model.

## Findings

| source | as written | input that shows it | evidently intended | confidence | as-written member | corrected member |
|---|---|---|---|---|---|---|
| tools/fapi/tss2_verifyquote.c:108-125 | The guard before the PCR log load tests the local pointer, which is set to NULL at line 108. The log is never loaded and the verifier always gets a null log. | Any invocation whose three loads succeed, e.g. `-q q.bin -i info.txt -p pub.pem -s sig.bin -l pcr.log` with every file present | Test the configured path, then load the log and forward it | high; not executed | `VerifyQuote.PcrLogNeverLoaded` | `Intended.ForwardsPcrLog` |
| tools/fapi/tss2_verifyquote.c:131-134 | A failed verification returns 1 without freeing the three loaded buffers. | The same invocation with a verifier that returns a non-zero code | Free the buffers before returning 1, as every other exit does | medium (the process exits right after, so the leak is short-lived); not executed | `VerifyQuote.VerifyFailureLeaks` | `Intended.ReleasesOnEveryExit` |
