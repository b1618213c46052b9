/**
 * The precondition checks at the start of `tss2_tool_onrun`
 * (tools/fapi/tss2_verifyquote.c:57-89): every artifact must be given, and
 * at most one of the four loadable artifacts may be read from standard input.
 */
module Precondition {
  import opened Wrappers
  import opened Options

  /** Why an invocation is rejected before any file is touched. */
  datatype UsageError =
    | Missing(field: Field)   // the named option was not given
    | MultipleStdin           // two or more artifacts name standard input

  /** A configuration whose five paths are all present. */
  datatype Paths = Paths(
    publicKeyPath: string,
    qualifyingData: string,
    quoteInfo: string,
    signature: string,
    pcrEventLog: string)
  {
    function Get(f: Field): string {
      match f
      case PublicKeyPath => publicKeyPath
      case QualifyingData => qualifyingData
      case QuoteInfo => quoteInfo
      case Signature => signature
      case PcrEventLog => pcrEventLog
    }
  }

  /** The order in which absent options are reported; the first absent one wins. */
  const CheckOrder: seq<Field> := [QualifyingData, QuoteInfo, PublicKeyPath, Signature, PcrEventLog]

  /** The path that stands for standard input. */
  const StdinPath: string := "-"

  /** The artifacts that may be read from standard input; the public key path is not one. */
  const StdinCapable: set<Field> := {Signature, QualifyingData, QuoteInfo, PcrEventLog}

  predicate AllPresent(cfg: Config) {
    && cfg.publicKeyPath.Some?
    && cfg.qualifyingData.Some?
    && cfg.quoteInfo.Some?
    && cfg.signature.Some?
    && cfg.pcrEventLog.Some?
  }

  function PathsOf(cfg: Config): Paths
    requires AllPresent(cfg)
  {
    Paths(cfg.publicKeyPath.value, cfg.qualifyingData.value, cfg.quoteInfo.value,
          cfg.signature.value, cfg.pcrEventLog.value)
  }

  /** `!strcmp(s, "-")`: 1 when `s` names standard input, else 0. */
  function IsDash(s: string): nat {
    if s == StdinPath then 1 else 0
  }

  /** The sum the source compares against 1. */
  function StdinCount(p: Paths): nat {
    IsDash(p.signature) + IsDash(p.qualifyingData) + IsDash(p.quoteInfo) + IsDash(p.pcrEventLog)
  }

  /** The artifacts that would be read from standard input. */
  function StdinSources(p: Paths): set<Field> {
    set f | f in StdinCapable && p.Get(f) == StdinPath
  }

  function When(f: Field, b: bool): set<Field> {
    if b then {f} else {}
  }

  lemma AddWhen(s: set<Field>, f: Field, b: bool)
    requires f !in s
    ensures |s + When(f, b)| == |s| + (if b then 1 else 0)
  {
    if b {
      assert s + When(f, b) == s + {f};
    } else {
      assert s + When(f, b) == s;
    }
  }

  /** Four singleton-or-empty sets of distinct fields have as many elements as there are true flags. */
  lemma CountWhens(x: bool, y: bool, z: bool, w: bool)
    ensures |When(Signature, x) + When(QualifyingData, y) + When(QuoteInfo, z) + When(PcrEventLog, w)|
         == (if x then 1 else 0) + (if y then 1 else 0) + (if z then 1 else 0) + (if w then 1 else 0)
  {
    var a := When(Signature, x);
    var b := When(QualifyingData, y);
    var c := When(QuoteInfo, z);
    assert |a| == (if x then 1 else 0);
    AddWhen(a, QualifyingData, y);
    assert |a + b| == |a| + (if y then 1 else 0);
    AddWhen(a + b, QuoteInfo, z);
    assert |a + b + c| == |a + b| + (if z then 1 else 0);
    AddWhen(a + b + c, PcrEventLog, w);
  }

  lemma StdinSourcesAsWhens(p: Paths)
    ensures StdinSources(p) ==
      When(Signature, p.signature == StdinPath) + When(QualifyingData, p.qualifyingData == StdinPath)
      + When(QuoteInfo, p.quoteInfo == StdinPath) + When(PcrEventLog, p.pcrEventLog == StdinPath)
  {
    var u := When(Signature, p.signature == StdinPath) + When(QualifyingData, p.qualifyingData == StdinPath)
      + When(QuoteInfo, p.quoteInfo == StdinPath) + When(PcrEventLog, p.pcrEventLog == StdinPath);
    forall f
      ensures f in StdinSources(p) <==> f in u
    {
      match f
      case PublicKeyPath =>
      case QualifyingData =>
      case QuoteInfo =>
      case Signature =>
      case PcrEventLog =>
    }
  }

  /** The source's sum of four `strcmp` tests counts exactly the stdin-reading artifacts. */
  lemma StdinCountIsCardinality(p: Paths)
    ensures StdinCount(p) == |StdinSources(p)|
    ensures PublicKeyPath !in StdinSources(p)
  {
    StdinSourcesAsWhens(p);
    CountWhens(p.signature == StdinPath, p.qualifyingData == StdinPath,
               p.quoteInfo == StdinPath, p.pcrEventLog == StdinPath);
  }

  /**
   * The checks of tools/fapi/tss2_verifyquote.c:58-89 in source order:
   * the first absent option is reported, then the stdin rule is applied.
   */
  function Validate(cfg: Config): (r: Result<Paths, UsageError>)
    ensures r.Failure? && r.error.Missing? <==> !AllPresent(cfg)
    ensures r.Failure? && r.error.Missing? ==> cfg.Get(r.error.field).None?
    ensures r == Failure(MultipleStdin) <==> AllPresent(cfg) && |StdinSources(PathsOf(cfg))| > 1
    ensures r.Success? <==> AllPresent(cfg) && |StdinSources(PathsOf(cfg))| <= 1
    ensures r.Success? ==> forall f :: Some(r.value.Get(f)) == cfg.Get(f)
  {
    if cfg.qualifyingData.None? then Failure(Missing(QualifyingData))
    else if cfg.quoteInfo.None? then Failure(Missing(QuoteInfo))
    else if cfg.publicKeyPath.None? then Failure(Missing(PublicKeyPath))
    else if cfg.signature.None? then Failure(Missing(Signature))
    else if cfg.pcrEventLog.None? then Failure(Missing(PcrEventLog))
    else
      var p := PathsOf(cfg);
      StdinCountIsCardinality(p);
      if StdinCount(p) > 1 then Failure(MultipleStdin) else Success(p)
  }

  /**
   * The option at position `i` of the check order is the one reported
   * missing exactly when it is absent and every option before it is present.
   */
  lemma ReportsFirstMissing(cfg: Config, i: nat)
    requires i < |CheckOrder|
    ensures Validate(cfg) == Failure(Missing(CheckOrder[i])) <==>
      cfg.Get(CheckOrder[i]).None? && forall j :: 0 <= j < i ==> cfg.Get(CheckOrder[j]).Some?
  {
    assert CheckOrder[0] == QualifyingData && CheckOrder[1] == QuoteInfo && CheckOrder[2] == PublicKeyPath
        && CheckOrder[3] == Signature && CheckOrder[4] == PcrEventLog;
  }

  /**
   * The public key path takes no part in the stdin rule: replacing it by
   * `"-"` (or anything else) neither changes whether validation passes nor
   * any other path, and the new value is carried through literally.
   */
  lemma PublicKeyPathNotCounted(cfg: Config, s: string)
    requires cfg.publicKeyPath.Some?
    ensures var cfg' := cfg.(publicKeyPath := Some(s));
      && Validate(cfg').Success? == Validate(cfg).Success?
      && (Validate(cfg').Success? ==>
            Validate(cfg').value == Validate(cfg).value.(publicKeyPath := s))
  {
    var cfg' := cfg.(publicKeyPath := Some(s));
    assert AllPresent(cfg') <==> AllPresent(cfg) by {
      assert forall f :: f != PublicKeyPath ==> cfg'.Get(f) == cfg.Get(f);
    }
    if AllPresent(cfg) {
      assert StdinSources(PathsOf(cfg')) == StdinSources(PathsOf(cfg));
    }
  }
}
