/**
 * `tss2_tool_onrun` of tools/fapi/tss2_verifyquote.c as written: validate
 * the configuration, load qualifying data, signature and quote info in that
 * order, call `Fapi_VerifyQuote`, and free what was loaded.
 *
 * The file system (`open_read_and_close`) and the verification library
 * (`Fapi_VerifyQuote`) are oracles: an `Env` fixes what each load returns and
 * the result code of the verification. A run yields an exit code and a trace
 * of the calls it makes.
 */
module VerifyQuote {
  import opened Wrappers
  import opened Options
  import opened Precondition

  newtype byte = x: int | 0 <= x < 256

  /** `TSS2_RC`, a 32-bit unsigned result code; zero means success. */
  type RC = x: int | 0 <= x < 0x1_0000_0000

  const RcSuccess: RC := 0

  /** A result code the source's `if (r)` treats as failure. */
  type ErrorRC = r: RC | r != 0 witness 1

  /** What one call of `open_read_and_close` returns. */
  datatype LoadReply = Loaded(data: seq<byte>) | LoadFailed(rc: ErrorRC)

  /** The outside world of one invocation. */
  datatype Env = Env(
    qualifyingData: LoadReply,
    signature: LoadReply,
    quoteInfo: LoadReply,
    pcrEventLog: LoadReply,
    verifyRc: RC)
  {
    /** The reply a load of artifact `f` receives. */
    function Reply(f: Field): LoadReply
      requires f != PublicKeyPath
    {
      match f
      case QualifyingData => qualifyingData
      case Signature => signature
      case QuoteInfo => quoteInfo
      case PcrEventLog => pcrEventLog
    }
  }

  /** A heap buffer returned by a load; it remembers which artifact filled it. */
  datatype Buffer = Buffer(artifact: Field, data: seq<byte>)

  /** A C pointer to a buffer, possibly `NULL`. */
  datatype Ptr = Null | Ref(buf: Buffer)

  /** The arguments passed to `Fapi_VerifyQuote` (the context argument aside). */
  datatype VerifyArgs = VerifyArgs(
    publicKeyPath: string,
    qualifyingData: Buffer,
    qualifyingDataSize: nat,
    quoteInfo: Buffer,
    signature: Buffer,
    signatureSize: nat,
    pcrEventLog: Ptr)

  /** The externally visible steps of a run. */
  datatype Event =
    | Load(artifact: Field, path: string, got: Ptr)   // got is Null when the load failed
    | Verify(args: VerifyArgs)
    | Free(ptr: Ptr)

  datatype Outcome = Outcome(exit: int, trace: seq<Event>)

  /** The order in which the source loads the artifacts. */
  const LoadOrder: seq<Field> := [QualifyingData, Signature, QuoteInfo]

  /** The buffer a successful load of `f` yields. */
  function Acquire(env: Env, f: Field): Buffer
    requires f != PublicKeyPath
  {
    Buffer(f, match env.Reply(f) case Loaded(d) => d case LoadFailed(_) => [])
  }

  // ---------------------------------------------------------------------
  // Reading a trace

  /** Concatenation of `f(e)` over the events of `t`, in order. */
  ghost function Collect<T>(t: seq<Event>, f: Event -> seq<T>): seq<T>
    decreases |t|
  {
    if t == [] then [] else f(t[0]) + Collect(t[1..], f)
  }

  lemma {:induction false} CollectAppend<T>(t1: seq<Event>, t2: seq<Event>, f: Event -> seq<T>)
    ensures Collect(t1 + t2, f) == Collect(t1, f) + Collect(t2, f)
    decreases |t1|
  {
    if t1 == [] {
      assert t1 + t2 == t2;
    } else {
      assert (t1 + t2)[1..] == t1[1..] + t2;
      CollectAppend(t1[1..], t2, f);
    }
  }

  lemma CollectOne<T>(e: Event, f: Event -> seq<T>)
    ensures Collect([e], f) == f(e)
  {
    assert [e][1..] == [];
    assert f(e) + [] == f(e);
  }

  lemma CollectCons<T>(e: Event, t: seq<Event>, f: Event -> seq<T>)
    ensures Collect([e] + t, f) == f(e) + Collect(t, f)
  {
    assert ([e] + t)[1..] == t;
  }

  lemma Collect3<T>(e0: Event, e1: Event, e2: Event, f: Event -> seq<T>)
    ensures Collect([e0, e1, e2], f) == f(e0) + f(e1) + f(e2)
  {
    CollectOne(e2, f);
    CollectCons(e1, [e2], f);
    assert [e1] + [e2] == [e1, e2];
    CollectCons(e0, [e1, e2], f);
    assert [e0] + [e1, e2] == [e0, e1, e2];
  }

  lemma Collect4<T>(e0: Event, e1: Event, e2: Event, e3: Event, f: Event -> seq<T>)
    ensures Collect([e0, e1, e2, e3], f) == f(e0) + f(e1) + f(e2) + f(e3)
  {
    Collect3(e1, e2, e3, f);
    CollectCons(e0, [e1, e2, e3], f);
    assert [e0] + [e1, e2, e3] == [e0, e1, e2, e3];
  }

  lemma Collect5<T>(e0: Event, e1: Event, e2: Event, e3: Event, e4: Event, f: Event -> seq<T>)
    ensures Collect([e0, e1, e2, e3, e4], f) == f(e0) + f(e1) + f(e2) + f(e3) + f(e4)
  {
    Collect4(e1, e2, e3, e4, f);
    CollectCons(e0, [e1, e2, e3, e4], f);
    assert [e0] + [e1, e2, e3, e4] == [e0, e1, e2, e3, e4];
  }

  function LoadOf(e: Event): seq<Field> { if e.Load? then [e.artifact] else [] }
  function AcquiredBy(e: Event): seq<Buffer> { if e.Load? && e.got.Ref? then [e.got.buf] else [] }
  function FreedBy(e: Event): seq<Buffer> { if e.Free? && e.ptr.Ref? then [e.ptr.buf] else [] }
  function VerifyOf(e: Event): seq<VerifyArgs> { if e.Verify? then [e.args] else [] }

  /** The artifacts whose load was attempted, in order. */
  ghost function Loads(t: seq<Event>): seq<Field> { Collect(t, LoadOf) }

  /** Every buffer a load returned, with multiplicity. */
  ghost function Acquired(t: seq<Event>): multiset<Buffer> { multiset(Collect(t, AcquiredBy)) }

  /** Every non-null buffer passed to `free`, with multiplicity. */
  ghost function Freed(t: seq<Event>): multiset<Buffer> { multiset(Collect(t, FreedBy)) }

  /** The argument lists of every verification call. */
  ghost function Verifies(t: seq<Event>): seq<VerifyArgs> { Collect(t, VerifyOf) }

  /**
   * Whether event `e` respects ownership when the buffers in `live` are the
   * ones currently owned: a load must not return a buffer already owned,
   * the verifier may only be handed owned buffers, and only owned buffers
   * may be freed. `free(NULL)` is always allowed.
   */
  ghost predicate Permitted(live: set<Buffer>, e: Event) {
    match e
    case Load(_, _, got) => got.Ref? ==> got.buf !in live
    case Verify(a) =>
      && a.qualifyingData in live
      && a.signature in live
      && a.quoteInfo in live
      && (a.pcrEventLog.Ref? ==> a.pcrEventLog.buf in live)
    case Free(ptr) => ptr.Ref? ==> ptr.buf in live
  }

  /** The buffers owned after event `e`. */
  ghost function After(live: set<Buffer>, e: Event): set<Buffer> {
    match e
    case Load(_, _, got) => if got.Ref? then live + {got.buf} else live
    case Verify(_) => live
    case Free(ptr) => if ptr.Ref? then live - {ptr.buf} else live
  }

  /** Every event of `t`, replayed from the owned buffers `live`, respects ownership. */
  ghost predicate Safe(live: set<Buffer>, t: seq<Event>)
    decreases |t|
  {
    t == [] || (Permitted(live, t[0]) && Safe(After(live, t[0]), t[1..]))
  }

  /** The buffers owned after replaying `t` from `live`. */
  ghost function Live(live: set<Buffer>, t: seq<Event>): set<Buffer>
    decreases |t|
  {
    if t == [] then live else Live(After(live, t[0]), t[1..])
  }

  lemma {:induction false} ReplayExtend(live: set<Buffer>, t: seq<Event>, e: Event)
    ensures Safe(live, t + [e]) <==> Safe(live, t) && Permitted(Live(live, t), e)
    ensures Live(live, t + [e]) == After(Live(live, t), e)
    decreases |t|
  {
    if t == [] {
      assert t + [e] == [e];
      assert [e][1..] == [];
    } else {
      assert (t + [e])[1..] == t[1..] + [e];
      ReplayExtend(After(live, t[0]), t[1..], e);
    }
  }

  // ---------------------------------------------------------------------
  // The run

  /** The three successful loads of lines 94, 102 and 109, in order. */
  function LoadTrace(p: Paths, qd: Buffer, sig: Buffer, qi: Buffer): seq<Event> {
    [Load(QualifyingData, p.qualifyingData, Ref(qd)), Load(Signature, p.signature, Ref(sig)),
     Load(QuoteInfo, p.quoteInfo, Ref(qi))]
  }

  /** The trace of a run whose signature load fails (lines 102-107). */
  function SignatureFailureTrace(p: Paths, qd: Buffer): seq<Event> {
    [Load(QualifyingData, p.qualifyingData, Ref(qd)), Load(Signature, p.signature, Null), Free(Ref(qd))]
  }

  /** The trace of a run whose quote info load fails (lines 109-115). */
  function QuoteInfoFailureTrace(p: Paths, qd: Buffer, sig: Buffer): seq<Event> {
    [Load(QualifyingData, p.qualifyingData, Ref(qd)), Load(Signature, p.signature, Ref(sig)),
     Load(QuoteInfo, p.quoteInfo, Null), Free(Ref(qd)), Free(Ref(sig))]
  }

  /** Validation passes and the three loads the source performs succeed. */
  predicate ReachesVerify(cfg: Config, env: Env) {
    && Validate(cfg).Success?
    && env.qualifyingData.Loaded?
    && env.signature.Loaded?
    && env.quoteInfo.Loaded?
  }

  /** How far the checks and loads of lines 57-115 get. */
  datatype Stage =
    | Stopped(outcome: Outcome)   // a usage error or a failed load ended the run
    | AllLoaded(paths: Paths, qd: Buffer, sig: Buffer, qi: Buffer)

  /**
   * Lines 57-115: validate the configuration, then load qualifying data,
   * signature and quote info, freeing what was loaded when a later load
   * fails. A run stops here with -1 unless all of this succeeds.
   */
  function LoadArtifacts(cfg: Config, env: Env): (s: Stage)
    ensures s.AllLoaded? <==> ReachesVerify(cfg, env)
    ensures s.Stopped? ==> s.outcome.exit == -1
  {
    match Validate(cfg)
    case Failure(_) => Stopped(Outcome(-1, []))
    case Success(p) =>
      match env.qualifyingData
      case LoadFailed(_) => Stopped(Outcome(-1, [Load(QualifyingData, p.qualifyingData, Null)]))
      case Loaded(qdData) =>
        var qd := Buffer(QualifyingData, qdData);
        match env.signature
        case LoadFailed(_) => Stopped(Outcome(-1, SignatureFailureTrace(p, qd)))
        case Loaded(sigData) =>
          var sig := Buffer(Signature, sigData);
          match env.quoteInfo
          case LoadFailed(_) => Stopped(Outcome(-1, QuoteInfoFailureTrace(p, qd, sig)))
          case Loaded(qiData) => AllLoaded(p, qd, sig, Buffer(QuoteInfo, qiData))
  }

  /**
   * `tss2_tool_onrun` (tools/fapi/tss2_verifyquote.c:56-142). Exit code -1
   * for a usage error or a failed load, 1 for a failed verification, 0 on
   * success.
   */
  function Run(cfg: Config, env: Env): (o: Outcome)
    ensures o.exit in {-1, 0, 1}
  {
    match LoadArtifacts(cfg, env)
    case Stopped(o) => o
    case AllLoaded(p, qd, sig, qi) =>
      var t3 := LoadTrace(p, qd, sig, qi);
      // The local PCR log pointer starts out null (line 108) and nothing sets it.
      var pcrEventLog: Ptr := Null;
      // The guard tests that local pointer, not the configured path, so this
      // branch is never taken.
      if pcrEventLog.Ref? then
        match env.pcrEventLog
        case LoadFailed(_) =>
          Outcome(-1, t3 + [Load(PcrEventLog, p.pcrEventLog, Null),
                            Free(Ref(qd)), Free(Ref(sig)), Free(Ref(qi))])
        case Loaded(pcrData) =>
          var pcr := Ref(Buffer(PcrEventLog, pcrData));
          Dispatch(p, env.verifyRc, t3 + [Load(PcrEventLog, p.pcrEventLog, pcr)], qd, sig, qi, pcr)
      else
        Dispatch(p, env.verifyRc, t3, qd, sig, qi, pcrEventLog)
  }

  /** The call of `Fapi_VerifyQuote` and what follows it (lines 127-141). */
  function Dispatch(p: Paths, rc: RC, t: seq<Event>, qd: Buffer, sig: Buffer, qi: Buffer, pcr: Ptr): (o: Outcome)
  {
    var args := VerifyArgs(p.publicKeyPath, qd, |qd.data|, qi, sig, |sig.data|, pcr);
    var t' := t + [Verify(args)];
    if rc != RcSuccess then Outcome(1, t')
    else Outcome(0, t' + [Free(Ref(qd)), Free(Ref(sig)), Free(Ref(qi)), Free(pcr)])
  }

  // ---------------------------------------------------------------------
  // Traces of the individual exit paths

  lemma Summarise(t1: seq<Event>, t2: seq<Event>)
    ensures Loads(t1 + t2) == Loads(t1) + Loads(t2)
    ensures Acquired(t1 + t2) == Acquired(t1) + Acquired(t2)
    ensures Freed(t1 + t2) == Freed(t1) + Freed(t2)
    ensures Verifies(t1 + t2) == Verifies(t1) + Verifies(t2)
  {
    CollectAppend(t1, t2, LoadOf);
    CollectAppend(t1, t2, AcquiredBy);
    CollectAppend(t1, t2, FreedBy);
    CollectAppend(t1, t2, VerifyOf);
  }

  lemma {:induction false} ReplayAppend(live: set<Buffer>, t1: seq<Event>, t2: seq<Event>)
    ensures Safe(live, t1 + t2) <==> Safe(live, t1) && Safe(Live(live, t1), t2)
    ensures Live(live, t1 + t2) == Live(Live(live, t1), t2)
    decreases |t1|
  {
    if t1 == [] {
      assert t1 + t2 == t2;
    } else {
      assert (t1 + t2)[1..] == t1[1..] + t2;
      ReplayAppend(After(live, t1[0]), t1[1..], t2);
    }
  }

  /** The verification call the source makes with the three loaded buffers. */
  function VerifyEvent(p: Paths, qd: Buffer, sig: Buffer, qi: Buffer): Event {
    Verify(VerifyArgs(p.publicKeyPath, qd, |qd.data|, qi, sig, |sig.data|, Null))
  }

  /** The trace up to and including the verification call. */
  function ReachedTrace(p: Paths, qd: Buffer, sig: Buffer, qi: Buffer): seq<Event> {
    LoadTrace(p, qd, sig, qi) + [VerifyEvent(p, qd, sig, qi)]
  }

  /** The four `free` calls after a successful verification. */
  function ReleaseTrace(qd: Buffer, sig: Buffer, qi: Buffer): seq<Event> {
    [Free(Ref(qd)), Free(Ref(sig)), Free(Ref(qi)), Free(Null)]
  }

  /** Buffers filled by qualifying data, signature and quote info loads are distinct. */
  predicate Distinct3(qd: Buffer, sig: Buffer, qi: Buffer) {
    qd.artifact == QualifyingData && sig.artifact == Signature && qi.artifact == QuoteInfo
  }

  lemma DistinctCount(qd: Buffer, sig: Buffer, qi: Buffer)
    requires Distinct3(qd, sig, qi)
    ensures |{qd, sig, qi}| == 3
  {
    assert {qd, sig, qi} == {qd} + {sig} + {qi};
    assert |{qd} + {sig}| == 2;
  }

  lemma LoadTraceReadings(p: Paths, qd: Buffer, sig: Buffer, qi: Buffer)
    ensures var t := LoadTrace(p, qd, sig, qi);
      && Loads(t) == LoadOrder
      && Verifies(t) == []
      && Acquired(t) == multiset{qd, sig, qi}
      && Freed(t) == multiset{}
  {
    var t := LoadTrace(p, qd, sig, qi);
    Collect3(t[0], t[1], t[2], LoadOf);
    Collect3(t[0], t[1], t[2], AcquiredBy);
    Collect3(t[0], t[1], t[2], FreedBy);
    Collect3(t[0], t[1], t[2], VerifyOf);
    assert t == [t[0], t[1], t[2]];
  }

  lemma LoadTraceOwnership(p: Paths, qd: Buffer, sig: Buffer, qi: Buffer)
    requires Distinct3(qd, sig, qi)
    ensures var t := LoadTrace(p, qd, sig, qi);
      Safe({}, t) && Live({}, t) == {qd, sig, qi}
  {
    var t := LoadTrace(p, qd, sig, qi);
    ReplayExtend({}, [], t[0]);
    ReplayExtend({}, t[..1], t[1]);
    ReplayExtend({}, t[..2], t[2]);
    assert [] + [t[0]] == t[..1];
    assert t[..1] + [t[1]] == t[..2];
    assert t[..2] + [t[2]] == t;
  }

  lemma ReachedReadings(p: Paths, qd: Buffer, sig: Buffer, qi: Buffer)
    ensures var t := ReachedTrace(p, qd, sig, qi);
      && Loads(t) == LoadOrder
      && Verifies(t) == [VerifyEvent(p, qd, sig, qi).args]
      && Acquired(t) == multiset{qd, sig, qi}
      && Freed(t) == multiset{}
  {
    var v := VerifyEvent(p, qd, sig, qi);
    LoadTraceReadings(p, qd, sig, qi);
    CollectOne(v, LoadOf);
    CollectOne(v, AcquiredBy);
    CollectOne(v, FreedBy);
    CollectOne(v, VerifyOf);
    Summarise(LoadTrace(p, qd, sig, qi), [v]);
  }

  lemma ReachedOwnership(p: Paths, qd: Buffer, sig: Buffer, qi: Buffer)
    requires Distinct3(qd, sig, qi)
    ensures var t := ReachedTrace(p, qd, sig, qi);
      Safe({}, t) && Live({}, t) == {qd, sig, qi}
  {
    LoadTraceOwnership(p, qd, sig, qi);
    ReplayExtend({}, LoadTrace(p, qd, sig, qi), VerifyEvent(p, qd, sig, qi));
  }

  lemma ReleaseReadings(qd: Buffer, sig: Buffer, qi: Buffer)
    ensures var t := ReleaseTrace(qd, sig, qi);
      && Loads(t) == []
      && Verifies(t) == []
      && Acquired(t) == multiset{}
      && Freed(t) == multiset{qd, sig, qi}
  {
    var t := ReleaseTrace(qd, sig, qi);
    Collect4(t[0], t[1], t[2], t[3], LoadOf);
    Collect4(t[0], t[1], t[2], t[3], AcquiredBy);
    Collect4(t[0], t[1], t[2], t[3], FreedBy);
    Collect4(t[0], t[1], t[2], t[3], VerifyOf);
    assert t == [t[0], t[1], t[2], t[3]];
  }

  lemma ReleaseOwnership(qd: Buffer, sig: Buffer, qi: Buffer)
    requires Distinct3(qd, sig, qi)
    ensures var t := ReleaseTrace(qd, sig, qi);
      Safe({qd, sig, qi}, t) && Live({qd, sig, qi}, t) == {}
  {
    var t := ReleaseTrace(qd, sig, qi);
    var live := {qd, sig, qi};
    ReplayExtend(live, [], t[0]);
    ReplayExtend(live, t[..1], t[1]);
    ReplayExtend(live, t[..2], t[2]);
    ReplayExtend(live, t[..3], t[3]);
    assert [] + [t[0]] == t[..1];
    assert t[..1] + [t[1]] == t[..2];
    assert t[..2] + [t[2]] == t[..3];
    assert t[..3] + [t[3]] == t;
    assert live - {qd} - {sig} - {qi} == {};
  }

  lemma SignatureFailureReadings(p: Paths, qd: Buffer)
    ensures var t := SignatureFailureTrace(p, qd);
      && Loads(t) == [QualifyingData, Signature]
      && Verifies(t) == []
      && Acquired(t) == multiset{qd}
      && Freed(t) == multiset{qd}
  {
    var t := SignatureFailureTrace(p, qd);
    Collect3(t[0], t[1], t[2], LoadOf);
    Collect3(t[0], t[1], t[2], AcquiredBy);
    Collect3(t[0], t[1], t[2], FreedBy);
    Collect3(t[0], t[1], t[2], VerifyOf);
    assert t == [t[0], t[1], t[2]];
  }

  lemma SignatureFailureOwnership(p: Paths, qd: Buffer)
    ensures var t := SignatureFailureTrace(p, qd);
      Safe({}, t) && Live({}, t) == {}
  {
    var t := SignatureFailureTrace(p, qd);
    ReplayExtend({}, [], t[0]);
    ReplayExtend({}, t[..1], t[1]);
    ReplayExtend({}, t[..2], t[2]);
    assert [] + [t[0]] == t[..1];
    assert t[..1] + [t[1]] == t[..2];
    assert t[..2] + [t[2]] == t;
  }

  lemma QuoteInfoFailureReadings(p: Paths, qd: Buffer, sig: Buffer)
    ensures var t := QuoteInfoFailureTrace(p, qd, sig);
      && Loads(t) == LoadOrder
      && Verifies(t) == []
      && Acquired(t) == multiset{qd, sig}
      && Freed(t) == multiset{qd, sig}
  {
    var t := QuoteInfoFailureTrace(p, qd, sig);
    Collect5(t[0], t[1], t[2], t[3], t[4], LoadOf);
    Collect5(t[0], t[1], t[2], t[3], t[4], AcquiredBy);
    Collect5(t[0], t[1], t[2], t[3], t[4], FreedBy);
    Collect5(t[0], t[1], t[2], t[3], t[4], VerifyOf);
    assert t == [t[0], t[1], t[2], t[3], t[4]];
  }

  lemma QuoteInfoFailureOwnership(p: Paths, qd: Buffer, sig: Buffer)
    requires qd.artifact == QualifyingData && sig.artifact == Signature
    ensures var t := QuoteInfoFailureTrace(p, qd, sig);
      Safe({}, t) && Live({}, t) == {}
  {
    var t := QuoteInfoFailureTrace(p, qd, sig);
    ReplayExtend({}, [], t[0]);
    ReplayExtend({}, t[..1], t[1]);
    ReplayExtend({}, t[..2], t[2]);
    ReplayExtend({}, t[..3], t[3]);
    ReplayExtend({}, t[..4], t[4]);
    assert [] + [t[0]] == t[..1];
    assert t[..1] + [t[1]] == t[..2];
    assert t[..2] + [t[2]] == t[..3];
    assert t[..3] + [t[3]] == t[..4];
    assert t[..4] + [t[4]] == t;
    assert {qd, sig} - {qd} - {sig} == {};
  }

  // ---------------------------------------------------------------------
  // Which path a run takes

  /** A run that gets past the three loads calls the verifier and frees only on success. */
  lemma RunReached(cfg: Config, env: Env)
    requires ReachesVerify(cfg, env)
    ensures var p, qd, sig, qi := Validate(cfg).value, Acquire(env, QualifyingData),
                                  Acquire(env, Signature), Acquire(env, QuoteInfo);
      Run(cfg, env) ==
        if env.verifyRc != RcSuccess then Outcome(1, ReachedTrace(p, qd, sig, qi))
        else Outcome(0, ReachedTrace(p, qd, sig, qi) + ReleaseTrace(qd, sig, qi))
  {
    var p, qd, sig, qi := Validate(cfg).value, Acquire(env, QualifyingData),
                          Acquire(env, Signature), Acquire(env, QuoteInfo);
    var t1 := [Load(QualifyingData, p.qualifyingData, Ref(qd))];
    var t2 := t1 + [Load(Signature, p.signature, Ref(sig))];
    var t3 := t2 + [Load(QuoteInfo, p.quoteInfo, Ref(qi))];
    assert t3 + [VerifyEvent(p, qd, sig, qi)] == ReachedTrace(p, qd, sig, qi);
  }

  /** The buffers the loads return, in source order, when they succeed. */
  function LoadedBuffers(env: Env): seq<Buffer> {
    [Acquire(env, QualifyingData), Acquire(env, Signature), Acquire(env, QuoteInfo)]
  }

  /** The buffers the first `k` loads in source order return. */
  function AcquiredBefore(env: Env, k: nat): multiset<Buffer>
    requires k <= |LoadOrder|
  {
    multiset(LoadedBuffers(env)[..k])
  }

  /** A run whose qualifying data load fails. */
  lemma RunFailsAtQualifyingData(cfg: Config, env: Env)
    requires Validate(cfg).Success? && env.qualifyingData.LoadFailed?
    ensures Run(cfg, env) == Outcome(-1, [Load(QualifyingData, Validate(cfg).value.qualifyingData, Null)])
  {
  }

  /** A run whose signature load is the first to fail. */
  lemma RunFailsAtSignature(cfg: Config, env: Env)
    requires Validate(cfg).Success? && env.qualifyingData.Loaded? && env.signature.LoadFailed?
    ensures Run(cfg, env) ==
      Outcome(-1, SignatureFailureTrace(Validate(cfg).value, Acquire(env, QualifyingData)))
  {
  }

  /** A run whose quote info load is the first to fail. */
  lemma RunFailsAtQuoteInfo(cfg: Config, env: Env)
    requires Validate(cfg).Success? && env.qualifyingData.Loaded? && env.signature.Loaded?
    requires env.quoteInfo.LoadFailed?
    ensures Run(cfg, env) ==
      Outcome(-1, QuoteInfoFailureTrace(Validate(cfg).value, Acquire(env, QualifyingData), Acquire(env, Signature)))
  {
  }

  // ---------------------------------------------------------------------
  // Properties of a run

  /** A rejected configuration ends the run with -1 before any load or verification. */
  lemma UsageErrorDoesNothing(cfg: Config, env: Env)
    requires Validate(cfg).Failure?
    ensures Run(cfg, env) == Outcome(-1, [])
  {
  }

  /** What a run stopped by a failure of the load at position `k` leaves behind. */
  ghost predicate ReleasedEarlier(o: Outcome, env: Env, k: nat)
    requires k < |LoadOrder|
  {
    && o.exit == -1
    && Loads(o.trace) == LoadOrder[..k + 1]
    && Verifies(o.trace) == []
    && Acquired(o.trace) == AcquiredBefore(env, k)
    && Freed(o.trace) == AcquiredBefore(env, k)
    && Safe({}, o.trace) && Live({}, o.trace) == {}
  }

  lemma QualifyingDataLoadFails(cfg: Config, env: Env)
    requires Validate(cfg).Success? && env.qualifyingData.LoadFailed?
    ensures ReleasedEarlier(Run(cfg, env), env, 0)
  {
    var e := Load(QualifyingData, Validate(cfg).value.qualifyingData, Null);
    RunFailsAtQualifyingData(cfg, env);
    assert LoadedBuffers(env)[..0] == [];
    assert LoadOrder[..1] == [QualifyingData];
    CollectOne(e, LoadOf);
    CollectOne(e, AcquiredBy);
    CollectOne(e, FreedBy);
    CollectOne(e, VerifyOf);
    assert [e][1..] == [];
  }

  lemma SignatureLoadFails(cfg: Config, env: Env)
    requires Validate(cfg).Success? && env.qualifyingData.Loaded? && env.signature.LoadFailed?
    ensures ReleasedEarlier(Run(cfg, env), env, 1)
  {
    var p, qd := Validate(cfg).value, Acquire(env, QualifyingData);
    RunFailsAtSignature(cfg, env);
    assert LoadedBuffers(env)[..1] == [qd];
    assert LoadOrder[..2] == [QualifyingData, Signature];
    SignatureFailureReadings(p, qd);
    SignatureFailureOwnership(p, qd);
  }

  lemma QuoteInfoLoadFails(cfg: Config, env: Env)
    requires Validate(cfg).Success? && env.qualifyingData.Loaded? && env.signature.Loaded?
    requires env.quoteInfo.LoadFailed?
    ensures ReleasedEarlier(Run(cfg, env), env, 2)
  {
    var p, qd, sig := Validate(cfg).value, Acquire(env, QualifyingData), Acquire(env, Signature);
    RunFailsAtQuoteInfo(cfg, env);
    assert LoadedBuffers(env)[..2] == [qd, sig];
    assert LoadOrder[..3] == LoadOrder;
    QuoteInfoFailureReadings(p, qd, sig);
    QuoteInfoFailureOwnership(p, qd, sig);
  }

  /**
   * When the load at position `k` of the load order is the first to fail,
   * the run exits with -1 after attempting exactly the loads up to `k`,
   * never calls the verifier, and frees every buffer acquired before `k`
   * exactly once, each after it was acquired.
   */
  lemma LoadFailureReleasesEarlierBuffers(cfg: Config, env: Env, k: nat)
    requires Validate(cfg).Success?
    requires k < |LoadOrder|
    requires env.Reply(LoadOrder[k]).LoadFailed?
    requires forall j :: 0 <= j < k ==> env.Reply(LoadOrder[j]).Loaded?
    ensures var o := Run(cfg, env);
      && o.exit == -1
      && Loads(o.trace) == LoadOrder[..k + 1]
      && Verifies(o.trace) == []
      && Acquired(o.trace) == AcquiredBefore(env, k)
      && Freed(o.trace) == AcquiredBefore(env, k)
      && Safe({}, o.trace) && Live({}, o.trace) == {}
  {
    assert LoadOrder[0] == QualifyingData && LoadOrder[1] == Signature && LoadOrder[2] == QuoteInfo;
    if k == 0 {
      QualifyingDataLoadFails(cfg, env);
    } else if k == 1 {
      SignatureLoadFails(cfg, env);
    } else {
      QuoteInfoLoadFails(cfg, env);
    }
  }

  /**
   * A failed verification exits with 1 and frees nothing: the three loaded
   * buffers are still owned when the run ends.
   */
  lemma VerifyFailureLeaks(cfg: Config, env: Env)
    requires ReachesVerify(cfg, env)
    requires env.verifyRc != RcSuccess
    ensures var o := Run(cfg, env);
      && o.exit == 1
      && Acquired(o.trace) == AcquiredBefore(env, 3)
      && Freed(o.trace) == multiset{}
      && Safe({}, o.trace)
      && Live({}, o.trace) == {Acquire(env, QualifyingData), Acquire(env, Signature), Acquire(env, QuoteInfo)}
      && |Live({}, o.trace)| == 3
  {
    var p, qd, sig, qi := Validate(cfg).value, Acquire(env, QualifyingData),
                          Acquire(env, Signature), Acquire(env, QuoteInfo);
    RunReached(cfg, env);
    ReachedReadings(p, qd, sig, qi);
    ReachedOwnership(p, qd, sig, qi);
    DistinctCount(qd, sig, qi);
    assert LoadedBuffers(env)[..3] == [qd, sig, qi];
  }

  /**
   * A successful verification exits with 0 after freeing each of the three
   * loaded buffers exactly once; the final `free` is of the null PCR log
   * pointer and releases nothing.
   */
  lemma SuccessReleasesEverything(cfg: Config, env: Env)
    requires ReachesVerify(cfg, env)
    requires env.verifyRc == RcSuccess
    ensures var o := Run(cfg, env);
      && o.exit == 0
      && Acquired(o.trace) == AcquiredBefore(env, 3)
      && Freed(o.trace) == AcquiredBefore(env, 3)
      && Safe({}, o.trace) && Live({}, o.trace) == {}
      && o.trace[|o.trace| - 1] == Free(Null)
  {
    var p, qd, sig, qi := Validate(cfg).value, Acquire(env, QualifyingData),
                          Acquire(env, Signature), Acquire(env, QuoteInfo);
    RunReached(cfg, env);
    var t1, t2 := ReachedTrace(p, qd, sig, qi), ReleaseTrace(qd, sig, qi);
    ReachedReadings(p, qd, sig, qi);
    ReachedOwnership(p, qd, sig, qi);
    ReleaseReadings(qd, sig, qi);
    ReleaseOwnership(qd, sig, qi);
    Summarise(t1, t2);
    ReplayAppend({}, t1, t2);
    assert LoadedBuffers(env)[..3] == [qd, sig, qi];
  }

  /** The loads and the verification call of a run that gets past the three loads. */
  lemma ReachedRunReadings(cfg: Config, env: Env)
    requires ReachesVerify(cfg, env)
    ensures var p, qd, sig, qi := Validate(cfg).value, Acquire(env, QualifyingData),
                                  Acquire(env, Signature), Acquire(env, QuoteInfo);
      var t := Run(cfg, env).trace;
      && |t| >= 4
      && t[..4] == ReachedTrace(p, qd, sig, qi)
      && Loads(t) == LoadOrder
      && Verifies(t) == [VerifyEvent(p, qd, sig, qi).args]
  {
    var p, qd, sig, qi := Validate(cfg).value, Acquire(env, QualifyingData),
                          Acquire(env, Signature), Acquire(env, QuoteInfo);
    RunReached(cfg, env);
    var t1, t2 := ReachedTrace(p, qd, sig, qi), ReleaseTrace(qd, sig, qi);
    ReachedReadings(p, qd, sig, qi);
    ReleaseReadings(qd, sig, qi);
    Summarise(t1, t2);
    assert (t1 + t2)[..4] == t1;
  }

  /** Which loads a run attempts, by artifact. */
  lemma LoadOrderPrefix(cfg: Config, env: Env)
    ensures var ls := Loads(Run(cfg, env).trace);
      && |ls| <= |LoadOrder|
      && ls == LoadOrder[..|ls|]
      && (|ls| == 0 <==> Validate(cfg).Failure?)
      && (forall i :: 0 <= i < |ls| - 1 ==> env.Reply(LoadOrder[i]).Loaded?)
      && (0 < |ls| && !ReachesVerify(cfg, env) ==> env.Reply(LoadOrder[|ls| - 1]).LoadFailed?)
      && (ReachesVerify(cfg, env) ==> ls == LoadOrder)
  {
    assert LoadOrder[..3] == LoadOrder;
    if Validate(cfg).Failure? {
      UsageErrorDoesNothing(cfg, env);
    } else if env.qualifyingData.LoadFailed? {
      LoadFailureReleasesEarlierBuffers(cfg, env, 0);
    } else if env.signature.LoadFailed? {
      LoadFailureReleasesEarlierBuffers(cfg, env, 1);
    } else if env.quoteInfo.LoadFailed? {
      LoadFailureReleasesEarlierBuffers(cfg, env, 2);
    } else {
      ReachedRunReadings(cfg, env);
    }
  }

  /**
   * The verifier is called at most once, and exactly when validation passes
   * and all three loads succeed. It then comes right after the three loads
   * and receives the configured public key path unchanged, the qualifying
   * data and signature buffers with their sizes, the quote info buffer and
   * a null PCR log.
   */
  lemma VerifyCalledOnlyAfterAllLoads(cfg: Config, env: Env)
    ensures var t := Run(cfg, env).trace;
      && |Verifies(t)| <= 1
      && (|Verifies(t)| == 1 <==> ReachesVerify(cfg, env))
      && (ReachesVerify(cfg, env) ==>
            && |t| >= 4
            && Loads(t[..3]) == LoadOrder
            && t[3] == Verify(Verifies(t)[0])
            && var a := Verifies(t)[0];
               && Some(a.publicKeyPath) == cfg.publicKeyPath
               && a.qualifyingData == Buffer(QualifyingData, env.qualifyingData.data)
               && a.qualifyingDataSize == |env.qualifyingData.data|
               && a.signature == Buffer(Signature, env.signature.data)
               && a.signatureSize == |env.signature.data|
               && a.quoteInfo == Buffer(QuoteInfo, env.quoteInfo.data)
               && a.pcrEventLog == Null)
  {
    if Validate(cfg).Failure? {
      UsageErrorDoesNothing(cfg, env);
    } else if env.qualifyingData.LoadFailed? {
      LoadFailureReleasesEarlierBuffers(cfg, env, 0);
    } else if env.signature.LoadFailed? {
      LoadFailureReleasesEarlierBuffers(cfg, env, 1);
    } else if env.quoteInfo.LoadFailed? {
      LoadFailureReleasesEarlierBuffers(cfg, env, 2);
    } else {
      ReachedRunReadings(cfg, env);
      var t := Run(cfg, env).trace;
      var p, qd, sig, qi := Validate(cfg).value, Acquire(env, QualifyingData),
                            Acquire(env, Signature), Acquire(env, QuoteInfo);
      assert t[..3] == ReachedTrace(p, qd, sig, qi)[..3];
      Collect3(t[0], t[1], t[2], LoadOf);
      assert t[..3] == [t[0], t[1], t[2]];
    }
  }

  /**
   * The PCR event log is never loaded and the verifier always receives a
   * null log: the guard before its load tests a local pointer that is
   * always null. Consequently the run does not depend on what loading the
   * log would have returned.
   */
  lemma PcrLogNeverLoaded(cfg: Config, env: Env, pcr: LoadReply)
    ensures var t := Run(cfg, env).trace;
      && PcrEventLog !in Loads(t)
      && (forall a :: a in Verifies(t) ==> a.pcrEventLog == Null)
      && Run(cfg, env.(pcrEventLog := pcr)) == Run(cfg, env)
  {
    LoadsFollowSourceOrder(cfg, env);
    VerifyCalledOnlyAfterAllLoads(cfg, env);
  }

  /** Every load of `t` reads the path `p` holds for its artifact. */
  ghost predicate ReadsPaths(p: Paths, t: seq<Event>) {
    forall e | e in t && e.Load? :: e.path == p.Get(e.artifact)
  }

  function StdinLoadOf(e: Event): seq<Field> {
    if e.Load? && e.path == StdinPath then [e.artifact] else []
  }

  /** The artifacts of the loads in `t` that read standard input, in order. */
  ghost function StdinLoads(t: seq<Event>): seq<Field> { Collect(t, StdinLoadOf) }

  lemma ReachedPaths(p: Paths, qd: Buffer, sig: Buffer, qi: Buffer)
    ensures var t := ReachedTrace(p, qd, sig, qi) + ReleaseTrace(qd, sig, qi);
      && ReadsPaths(p, t)
      && |StdinLoads(t)| == IsDash(p.qualifyingData) + IsDash(p.signature) + IsDash(p.quoteInfo)
  {
    var t1, t2 := ReachedTrace(p, qd, sig, qi), ReleaseTrace(qd, sig, qi);
    ReachedPrefixPaths(p, qd, sig, qi);
    ReleasePaths(p, qd, sig, qi);
    CollectAppend(t1, t2, StdinLoadOf);
    assert forall e :: e in t1 + t2 <==> e in t1 || e in t2;
  }

  lemma ReleasePaths(p: Paths, qd: Buffer, sig: Buffer, qi: Buffer)
    ensures var t := ReleaseTrace(qd, sig, qi);
      ReadsPaths(p, t) && StdinLoads(t) == []
  {
    var t := ReleaseTrace(qd, sig, qi);
    Collect4(t[0], t[1], t[2], t[3], StdinLoadOf);
    assert t == [t[0], t[1], t[2], t[3]];
  }

  lemma ReachedPrefixPaths(p: Paths, qd: Buffer, sig: Buffer, qi: Buffer)
    ensures var t := ReachedTrace(p, qd, sig, qi);
      && ReadsPaths(p, t)
      && |StdinLoads(t)| == IsDash(p.qualifyingData) + IsDash(p.signature) + IsDash(p.quoteInfo)
  {
    var t := ReachedTrace(p, qd, sig, qi);
    Collect4(t[0], t[1], t[2], t[3], StdinLoadOf);
    assert t == [t[0], t[1], t[2], t[3]];
  }

  lemma QualifyingDataFailurePaths(p: Paths)
    ensures var t := [Load(QualifyingData, p.qualifyingData, Null)];
      && ReadsPaths(p, t)
      && |StdinLoads(t)| == IsDash(p.qualifyingData)
  {
    CollectOne(Load(QualifyingData, p.qualifyingData, Null), StdinLoadOf);
  }

  lemma SignatureFailurePaths(p: Paths, qd: Buffer)
    ensures var t := SignatureFailureTrace(p, qd);
      && ReadsPaths(p, t)
      && |StdinLoads(t)| == IsDash(p.qualifyingData) + IsDash(p.signature)
  {
    var t := SignatureFailureTrace(p, qd);
    Collect3(t[0], t[1], t[2], StdinLoadOf);
    assert t == [t[0], t[1], t[2]];
  }

  lemma QuoteInfoFailurePaths(p: Paths, qd: Buffer, sig: Buffer)
    ensures var t := QuoteInfoFailureTrace(p, qd, sig);
      && ReadsPaths(p, t)
      && |StdinLoads(t)| == IsDash(p.qualifyingData) + IsDash(p.signature) + IsDash(p.quoteInfo)
  {
    var t := QuoteInfoFailureTrace(p, qd, sig);
    Collect5(t[0], t[1], t[2], t[3], t[4], StdinLoadOf);
    assert t == [t[0], t[1], t[2], t[3], t[4]];
  }

  /** The trace of a run that passed validation reads the validated paths. */
  lemma ValidatedRunPaths(cfg: Config, env: Env)
    requires Validate(cfg).Success?
    ensures var p, t := Validate(cfg).value, Run(cfg, env).trace;
      && ReadsPaths(p, t)
      && |StdinLoads(t)| <= IsDash(p.qualifyingData) + IsDash(p.signature) + IsDash(p.quoteInfo)
  {
    var p, qd, sig, qi := Validate(cfg).value, Acquire(env, QualifyingData),
                          Acquire(env, Signature), Acquire(env, QuoteInfo);
    if ReachesVerify(cfg, env) {
      RunReached(cfg, env);
      ReachedPaths(p, qd, sig, qi);
      ReachedPrefixPaths(p, qd, sig, qi);
    } else if env.qualifyingData.LoadFailed? {
      RunFailsAtQualifyingData(cfg, env);
      QualifyingDataFailurePaths(p);
    } else if env.signature.LoadFailed? {
      RunFailsAtSignature(cfg, env);
      SignatureFailurePaths(p, qd);
    } else {
      RunFailsAtQuoteInfo(cfg, env);
      QuoteInfoFailurePaths(p, qd, sig);
    }
  }

  /**
   * Each load reads the path configured for the artifact it loads (lines
   * 94, 102, 109), and, as the stdin rule of lines 83-89 intends, at most
   * one load of a run reads standard input.
   */
  lemma LoadsReadConfiguredPaths(cfg: Config, env: Env)
    ensures var t := Run(cfg, env).trace;
      && (forall e | e in t && e.Load? :: Some(e.path) == cfg.Get(e.artifact))
      && |StdinLoads(t)| <= 1
  {
    if Validate(cfg).Success? {
      var p := Validate(cfg).value;
      assert p == PathsOf(cfg);
      StdinCountIsCardinality(p);
      ValidatedRunPaths(cfg, env);
    } else {
      UsageErrorDoesNothing(cfg, env);
    }
  }

  /**
   * Loads are attempted in the order qualifying data, signature, quote
   * info, each from its configured path; a load is attempted only after
   * every earlier one succeeded, the first failing load is the last one
   * attempted, and none at all is attempted when validation fails.
   */
  lemma LoadsFollowSourceOrder(cfg: Config, env: Env)
    ensures var t := Run(cfg, env).trace;
      var ls := Loads(t);
      && |ls| <= |LoadOrder|
      && ls == LoadOrder[..|ls|]
      && (|ls| == 0 <==> Validate(cfg).Failure?)
      && (forall i :: 0 <= i < |ls| - 1 ==> env.Reply(LoadOrder[i]).Loaded?)
      && (0 < |ls| && !ReachesVerify(cfg, env) ==> env.Reply(LoadOrder[|ls| - 1]).LoadFailed?)
      && (ReachesVerify(cfg, env) ==> ls == LoadOrder)
      && (forall e | e in t && e.Load? :: Some(e.path) == cfg.Get(e.artifact))
  {
    LoadOrderPrefix(cfg, env);
    LoadsReadConfiguredPaths(cfg, env);
  }

  /** The exit code: 0 or 1 exactly when the verifier was called, by its result; -1 otherwise. */
  lemma ExitCodes(cfg: Config, env: Env)
    ensures var o := Run(cfg, env);
      && (o.exit == 0 <==> ReachesVerify(cfg, env) && env.verifyRc == RcSuccess)
      && (o.exit == 1 <==> ReachesVerify(cfg, env) && env.verifyRc != RcSuccess)
      && (o.exit == -1 <==> !ReachesVerify(cfg, env))
  {
    if ReachesVerify(cfg, env) {
      RunReached(cfg, env);
    } else if Validate(cfg).Success? {
      if env.qualifyingData.LoadFailed? {
        RunFailsAtQualifyingData(cfg, env);
      } else if env.signature.LoadFailed? {
        RunFailsAtSignature(cfg, env);
      } else {
        RunFailsAtQuoteInfo(cfg, env);
      }
    }
  }

  /**
   * No run frees a buffer it does not own, frees one twice, or hands the
   * verifier a buffer it does not own; every path except a failed
   * verification ends owning nothing.
   */
  lemma OwnershipRespected(cfg: Config, env: Env)
    ensures var o := Run(cfg, env);
      && Safe({}, o.trace)
      && (Live({}, o.trace) == {} <==> o.exit != 1)
  {
    if Validate(cfg).Failure? {
      UsageErrorDoesNothing(cfg, env);
    } else if env.qualifyingData.LoadFailed? {
      LoadFailureReleasesEarlierBuffers(cfg, env, 0);
    } else if env.signature.LoadFailed? {
      LoadFailureReleasesEarlierBuffers(cfg, env, 1);
    } else if env.quoteInfo.LoadFailed? {
      LoadFailureReleasesEarlierBuffers(cfg, env, 2);
    } else if env.verifyRc != RcSuccess {
      VerifyFailureLeaks(cfg, env);
    } else {
      SuccessReleasesEverything(cfg, env);
    }
  }
}
