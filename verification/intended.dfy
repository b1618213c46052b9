/**
 * `tss2_tool_onrun` with its two evident defects corrected: the guard
 * before the PCR log load tests the configured path (always present once
 * validation has passed) instead of the local pointer initialised to null,
 * and a failed verification frees the buffers before returning 1.
 * Everything else is as in `VerifyQuote.Run`.
 */
module Intended {
  import opened Wrappers
  import opened Options
  import opened Precondition
  import opened VerifyQuote

  function RunIntended(cfg: Config, env: Env): (o: Outcome)
    ensures o.exit in {-1, 0, 1}
  {
    match LoadArtifacts(cfg, env)
    case Stopped(o) => o
    case AllLoaded(p, qd, sig, qi) =>
      // The configured PCR log path is present here, so the log is always loaded.
      match env.pcrEventLog
      case LoadFailed(_) =>
        Outcome(-1, LoadTrace(p, qd, sig, qi) + PcrFailure(p, qd, sig, qi))
      case Loaded(pcrData) =>
        var pcr := Buffer(PcrEventLog, pcrData);
        Outcome(if env.verifyRc != RcSuccess then 1 else 0,
                FullTrace(p, qd, sig, qi, pcr) + FreeAll(qd, sig, qi, pcr))
  }

  /** The buffer the PCR log load yields when it succeeds. */
  function PcrBuffer(env: Env): Buffer {
    Acquire(env, PcrEventLog)
  }

  /** The PCR log load and the verification call that follow the three loads. */
  function PcrAndVerify(p: Paths, qd: Buffer, sig: Buffer, qi: Buffer, pcr: Buffer): seq<Event> {
    [Load(PcrEventLog, p.pcrEventLog, Ref(pcr)),
     Verify(VerifyArgs(p.publicKeyPath, qd, |qd.data|, qi, sig, |sig.data|, Ref(pcr)))]
  }

  /** The trace of a corrected run up to and including the verification call. */
  function FullTrace(p: Paths, qd: Buffer, sig: Buffer, qi: Buffer, pcr: Buffer): seq<Event> {
    LoadTrace(p, qd, sig, qi) + PcrAndVerify(p, qd, sig, qi, pcr)
  }

  /** The four `free` calls that end a corrected run that reached the verifier. */
  function FreeAll(qd: Buffer, sig: Buffer, qi: Buffer, pcr: Buffer): seq<Event> {
    [Free(Ref(qd)), Free(Ref(sig)), Free(Ref(qi)), Free(Ref(pcr))]
  }

  /** The failed PCR log load and the cleanup after it. */
  function PcrFailure(p: Paths, qd: Buffer, sig: Buffer, qi: Buffer): seq<Event> {
    [Load(PcrEventLog, p.pcrEventLog, Null), Free(Ref(qd)), Free(Ref(sig)), Free(Ref(qi))]
  }

  lemma RunIntendedReached(cfg: Config, env: Env)
    requires ReachesVerify(cfg, env) && env.pcrEventLog.Loaded?
    ensures RunIntended(cfg, env) ==
      Outcome(if env.verifyRc != RcSuccess then 1 else 0,
              FullTrace(Validate(cfg).value, Acquire(env, QualifyingData), Acquire(env, Signature),
                        Acquire(env, QuoteInfo), PcrBuffer(env))
              + FreeAll(Acquire(env, QualifyingData), Acquire(env, Signature),
                        Acquire(env, QuoteInfo), PcrBuffer(env)))
  {
  }

  lemma RunIntendedPcrFails(cfg: Config, env: Env)
    requires ReachesVerify(cfg, env) && env.pcrEventLog.LoadFailed?
    ensures var qd, sig, qi := Acquire(env, QualifyingData), Acquire(env, Signature), Acquire(env, QuoteInfo);
      RunIntended(cfg, env) ==
        Outcome(-1, LoadTrace(Validate(cfg).value, qd, sig, qi) + PcrFailure(Validate(cfg).value, qd, sig, qi))
  {
  }

  lemma PcrAndVerifyReadings(p: Paths, qd: Buffer, sig: Buffer, qi: Buffer, pcr: Buffer)
    ensures var t := PcrAndVerify(p, qd, sig, qi, pcr);
      && Loads(t) == [PcrEventLog]
      && Verifies(t) == [VerifyArgs(p.publicKeyPath, qd, |qd.data|, qi, sig, |sig.data|, Ref(pcr))]
      && Acquired(t) == multiset{pcr}
      && Freed(t) == multiset{}
  {
    var t := PcrAndVerify(p, qd, sig, qi, pcr);
    assert t == [t[0]] + [t[1]];
    CollectOne(t[1], LoadOf);
    CollectOne(t[1], AcquiredBy);
    CollectOne(t[1], FreedBy);
    CollectOne(t[1], VerifyOf);
    CollectCons(t[0], [t[1]], LoadOf);
    CollectCons(t[0], [t[1]], AcquiredBy);
    CollectCons(t[0], [t[1]], FreedBy);
    CollectCons(t[0], [t[1]], VerifyOf);
  }

  lemma VerifiedPrefixReadings(p: Paths, qd: Buffer, sig: Buffer, qi: Buffer, pcr: Buffer)
    ensures var t := FullTrace(p, qd, sig, qi, pcr);
      && Loads(t) == LoadOrder + [PcrEventLog]
      && Verifies(t) == [VerifyArgs(p.publicKeyPath, qd, |qd.data|, qi, sig, |sig.data|, Ref(pcr))]
      && Acquired(t) == multiset{qd, sig, qi, pcr}
      && Freed(t) == multiset{}
  {
    LoadTraceReadings(p, qd, sig, qi);
    PcrAndVerifyReadings(p, qd, sig, qi, pcr);
    Summarise(LoadTrace(p, qd, sig, qi), PcrAndVerify(p, qd, sig, qi, pcr));
  }

  lemma FreeAllReadings(qd: Buffer, sig: Buffer, qi: Buffer, pcr: Buffer)
    ensures var t := FreeAll(qd, sig, qi, pcr);
      && Loads(t) == []
      && Verifies(t) == []
      && Acquired(t) == multiset{}
      && Freed(t) == multiset{qd, sig, qi, pcr}
  {
    var t := FreeAll(qd, sig, qi, pcr);
    assert t == [t[0], t[1], t[2], t[3]];
    Collect4(t[0], t[1], t[2], t[3], LoadOf);
    Collect4(t[0], t[1], t[2], t[3], AcquiredBy);
    Collect4(t[0], t[1], t[2], t[3], VerifyOf);
    Collect4(t[0], t[1], t[2], t[3], FreedBy);
    assert Collect(t, FreedBy) == [qd, sig, qi, pcr];
  }

  lemma FullTraceReadings(p: Paths, qd: Buffer, sig: Buffer, qi: Buffer, pcr: Buffer)
    ensures var t := FullTrace(p, qd, sig, qi, pcr) + FreeAll(qd, sig, qi, pcr);
      && Loads(t) == LoadOrder + [PcrEventLog]
      && Verifies(t) == [VerifyArgs(p.publicKeyPath, qd, |qd.data|, qi, sig, |sig.data|, Ref(pcr))]
      && Acquired(t) == multiset{qd, sig, qi, pcr}
      && Freed(t) == multiset{qd, sig, qi, pcr}
  {
    VerifiedPrefixReadings(p, qd, sig, qi, pcr);
    FreeAllReadings(qd, sig, qi, pcr);
    Summarise(FullTrace(p, qd, sig, qi, pcr), FreeAll(qd, sig, qi, pcr));
  }

  lemma VerifiedPrefixOwnership(p: Paths, qd: Buffer, sig: Buffer, qi: Buffer, pcr: Buffer)
    requires Distinct3(qd, sig, qi) && pcr.artifact == PcrEventLog
    ensures var t := FullTrace(p, qd, sig, qi, pcr);
      Safe({}, t) && Live({}, t) == {qd, sig, qi, pcr}
  {
    var t1, t2 := LoadTrace(p, qd, sig, qi), PcrAndVerify(p, qd, sig, qi, pcr);
    LoadTraceOwnership(p, qd, sig, qi);
    ReplayExtend({qd, sig, qi}, [], t2[0]);
    ReplayExtend({qd, sig, qi}, [t2[0]], t2[1]);
    assert [] + [t2[0]] == [t2[0]];
    assert [t2[0]] + [t2[1]] == t2;
    ReplayAppend({}, t1, t2);
  }

  lemma FreeAllOwnership(qd: Buffer, sig: Buffer, qi: Buffer, pcr: Buffer)
    requires Distinct3(qd, sig, qi) && pcr.artifact == PcrEventLog
    ensures var t := FreeAll(qd, sig, qi, pcr);
      Safe({qd, sig, qi, pcr}, t) && Live({qd, sig, qi, pcr}, t) == {}
  {
    var t := FreeAll(qd, sig, qi, pcr);
    var live := {qd, sig, qi, pcr};
    ReplayExtend(live, [], t[0]);
    ReplayExtend(live, t[..1], t[1]);
    ReplayExtend(live, t[..2], t[2]);
    ReplayExtend(live, t[..3], t[3]);
    assert [] + [t[0]] == t[..1];
    assert t[..1] + [t[1]] == t[..2];
    assert t[..2] + [t[2]] == t[..3];
    assert t[..3] + [t[3]] == t;
    assert live - {qd} - {sig} - {qi} - {pcr} == {};
  }

  lemma FullTraceOwnership(p: Paths, qd: Buffer, sig: Buffer, qi: Buffer, pcr: Buffer)
    requires Distinct3(qd, sig, qi) && pcr.artifact == PcrEventLog
    ensures var t := FullTrace(p, qd, sig, qi, pcr) + FreeAll(qd, sig, qi, pcr);
      Safe({}, t) && Live({}, t) == {}
  {
    VerifiedPrefixOwnership(p, qd, sig, qi, pcr);
    FreeAllOwnership(qd, sig, qi, pcr);
    ReplayAppend({}, FullTrace(p, qd, sig, qi, pcr), FreeAll(qd, sig, qi, pcr));
  }

  lemma PcrCleanupReadings(p: Paths, qd: Buffer, sig: Buffer, qi: Buffer)
    ensures var t := PcrFailure(p, qd, sig, qi);
      && Loads(t) == [PcrEventLog]
      && Verifies(t) == []
      && Acquired(t) == multiset{}
      && Freed(t) == multiset{qd, sig, qi}
  {
    var t := PcrFailure(p, qd, sig, qi);
    Collect4(t[0], t[1], t[2], t[3], LoadOf);
    Collect4(t[0], t[1], t[2], t[3], AcquiredBy);
    Collect4(t[0], t[1], t[2], t[3], FreedBy);
    Collect4(t[0], t[1], t[2], t[3], VerifyOf);
    assert t == [t[0], t[1], t[2], t[3]];
  }

  lemma PcrFailureReadings(p: Paths, qd: Buffer, sig: Buffer, qi: Buffer)
    ensures var t := LoadTrace(p, qd, sig, qi) + PcrFailure(p, qd, sig, qi);
      && Loads(t) == LoadOrder + [PcrEventLog]
      && Verifies(t) == []
      && Acquired(t) == multiset{qd, sig, qi}
      && Freed(t) == multiset{qd, sig, qi}
  {
    LoadTraceReadings(p, qd, sig, qi);
    PcrCleanupReadings(p, qd, sig, qi);
    Summarise(LoadTrace(p, qd, sig, qi), PcrFailure(p, qd, sig, qi));
  }

  lemma PcrCleanupOwnership(p: Paths, qd: Buffer, sig: Buffer, qi: Buffer)
    requires Distinct3(qd, sig, qi)
    ensures var t := PcrFailure(p, qd, sig, qi);
      Safe({qd, sig, qi}, t) && Live({qd, sig, qi}, t) == {}
  {
    var t := PcrFailure(p, qd, sig, qi);
    var live := {qd, sig, qi};
    ReplayExtend(live, [], t[0]);
    ReplayExtend(live, t[..1], t[1]);
    ReplayExtend(live, t[..2], t[2]);
    ReplayExtend(live, t[..3], t[3]);
    assert [] + [t[0]] == t[..1];
    assert t[..1] + [t[1]] == t[..2];
    assert t[..2] + [t[2]] == t[..3];
    assert t[..3] + [t[3]] == t;
    assert live - {qd} - {sig} - {qi} == {};
  }

  lemma PcrFailureOwnership(p: Paths, qd: Buffer, sig: Buffer, qi: Buffer)
    requires Distinct3(qd, sig, qi)
    ensures var t := LoadTrace(p, qd, sig, qi) + PcrFailure(p, qd, sig, qi);
      Safe({}, t) && Live({}, t) == {}
  {
    LoadTraceOwnership(p, qd, sig, qi);
    PcrCleanupOwnership(p, qd, sig, qi);
    ReplayAppend({}, LoadTrace(p, qd, sig, qi), PcrFailure(p, qd, sig, qi));
  }

  /**
   * Until the quote info has been loaded the corrected run behaves exactly
   * like the source.
   */
  lemma AgreesBeforePcrLoad(cfg: Config, env: Env)
    requires !ReachesVerify(cfg, env)
    ensures RunIntended(cfg, env) == Run(cfg, env)
  {
  }

  /**
   * Once the three loads succeed, the corrected run loads the PCR log and,
   * when that succeeds, hands the verifier the loaded log.
   */
  lemma ForwardsPcrLog(cfg: Config, env: Env)
    requires ReachesVerify(cfg, env)
    requires env.pcrEventLog.Loaded?
    ensures var t := RunIntended(cfg, env).trace;
      && Loads(t) == [QualifyingData, Signature, QuoteInfo, PcrEventLog]
      && |Verifies(t)| == 1
      && Verifies(t)[0].pcrEventLog == Ref(Buffer(PcrEventLog, env.pcrEventLog.data))
  {
    RunIntendedReached(cfg, env);
    FullTraceReadings(Validate(cfg).value, Acquire(env, QualifyingData), Acquire(env, Signature),
                      Acquire(env, QuoteInfo), PcrBuffer(env));
  }

  /**
   * Every exit of the corrected run, a failed verification included, frees
   * each acquired buffer exactly once and ends owning nothing. The exit code
   * differs from the source's only when the PCR log load, which the source
   * never makes, fails.
   */
  lemma ReleasesOnEveryExit(cfg: Config, env: Env)
    ensures var o := RunIntended(cfg, env);
      && Safe({}, o.trace)
      && Live({}, o.trace) == {}
      && Freed(o.trace) == Acquired(o.trace)
      && o.exit == (if ReachesVerify(cfg, env) && env.pcrEventLog.LoadFailed? then -1
                    else Run(cfg, env).exit)
  {
    if !ReachesVerify(cfg, env) {
      AgreesBeforePcrLoad(cfg, env);
      OwnershipRespected(cfg, env);
      ExitCodes(cfg, env);
      if Validate(cfg).Failure? {
        UsageErrorDoesNothing(cfg, env);
      } else if env.qualifyingData.LoadFailed? {
        LoadFailureReleasesEarlierBuffers(cfg, env, 0);
      } else if env.signature.LoadFailed? {
        LoadFailureReleasesEarlierBuffers(cfg, env, 1);
      } else {
        LoadFailureReleasesEarlierBuffers(cfg, env, 2);
      }
    } else {
      var p, qd, sig, qi := Validate(cfg).value, Acquire(env, QualifyingData),
                            Acquire(env, Signature), Acquire(env, QuoteInfo);
      ExitCodes(cfg, env);
      if env.pcrEventLog.LoadFailed? {
        RunIntendedPcrFails(cfg, env);
        PcrFailureReadings(p, qd, sig, qi);
        PcrFailureOwnership(p, qd, sig, qi);
      } else {
        RunIntendedReached(cfg, env);
        FullTraceReadings(p, qd, sig, qi, PcrBuffer(env));
        FullTraceOwnership(p, qd, sig, qi, PcrBuffer(env));
      }
    }
  }
}
