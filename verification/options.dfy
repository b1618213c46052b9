/**
 * The invocation configuration of `tss2_verifyquote` and the option
 * callback `on_option` that fills it in (tools/fapi/tss2_verifyquote.c:11-40).
 *
 * The source keeps the configuration in a zero-initialised static struct
 * `ctx`; here it is an immutable record that every callback returns anew.
 */
module Options {
  import opened Wrappers

  /** The five command-line artifacts. */
  datatype Field = PublicKeyPath | QualifyingData | QuoteInfo | Signature | PcrEventLog

  /** The short option letter `on_option` dispatches on for each artifact. */
  function Key(f: Field): char {
    match f
    case QualifyingData => 'q'
    case PcrEventLog => 'l'
    case QuoteInfo => 'i'
    case PublicKeyPath => 'p'
    case Signature => 's'
  }

  /** The option letters `on_option` recognises. */
  const Keys: set<char> := {'q', 'l', 'i', 'p', 's'}

  /** One field per artifact; `None` is a pointer still `NULL`. */
  datatype Config = Config(
    publicKeyPath: Option<string>,
    qualifyingData: Option<string>,
    quoteInfo: Option<string>,
    signature: Option<string>,
    pcrEventLog: Option<string>)
  {
    function Get(f: Field): Option<string> {
      match f
      case PublicKeyPath => publicKeyPath
      case QualifyingData => qualifyingData
      case QuoteInfo => quoteInfo
      case Signature => signature
      case PcrEventLog => pcrEventLog
    }
  }

  /** The static context before any option is seen: every field `NULL`. */
  const Initial: Config := Config(None, None, None, None, None)

  /**
   * `on_option(key, value)`: store `value` into the field whose letter is
   * `key`; any other letter is ignored. The callback always accepts.
   * `value` is optional because the option framework passes `NULL` for a
   * `--pcrLog` given without a value.
   */
  function OnOption(cfg: Config, key: char, value: Option<string>): (r: (Config, bool))
    ensures r.1
    ensures forall f :: r.0.Get(f) == (if key == Key(f) then value else cfg.Get(f))
    ensures key !in Keys ==> r.0 == cfg
  {
    var cfg' :=
      match key
      case 'q' => cfg.(qualifyingData := value)
      case 'l' => cfg.(pcrEventLog := value)
      case 'i' => cfg.(quoteInfo := value)
      case 'p' => cfg.(publicKeyPath := value)
      case 's' => cfg.(signature := value)
      case _ => cfg;
    (cfg', true)
  }

  /** The callback applied to each (key, value) pair in command-line order. */
  function ApplyAll(cfg: Config, opts: seq<(char, Option<string>)>): Config
    decreases |opts|
  {
    if opts == [] then cfg
    else ApplyAll(OnOption(cfg, opts[0].0, opts[0].1).0, opts[1..])
  }

  /** The value of the last pair in `opts` carrying `key`, or `default` if none does. */
  function LastValue(opts: seq<(char, Option<string>)>, key: char, default: Option<string>): Option<string>
    decreases |opts|
  {
    if opts == [] then default
    else if opts[|opts| - 1].0 == key then opts[|opts| - 1].1
    else LastValue(opts[..|opts| - 1], key, default)
  }

  lemma {:induction false} LastValueAppend(a: seq<(char, Option<string>)>, b: seq<(char, Option<string>)>,
                                           key: char, default: Option<string>)
    ensures LastValue(a + b, key, default) == LastValue(b, key, LastValue(a, key, default))
    decreases |b|
  {
    if b == [] {
      assert a + b == a;
    } else {
      var n := |b| - 1;
      assert (a + b)[..|a + b| - 1] == a + b[..n];
      assert (a + b)[|a + b| - 1] == b[n];
      LastValueAppend(a, b[..n], key, default);
    }
  }

  /**
   * Each option letter's field ends up holding the value of the LAST
   * occurrence of that letter; a letter never given leaves the field as it was.
   */
  lemma {:induction false} LastOccurrenceWins(cfg: Config, opts: seq<(char, Option<string>)>, f: Field)
    ensures ApplyAll(cfg, opts).Get(f) == LastValue(opts, Key(f), cfg.Get(f))
    decreases |opts|
  {
    if opts != [] {
      var cfg' := OnOption(cfg, opts[0].0, opts[0].1).0;
      LastOccurrenceWins(cfg', opts[1..], f);
      assert cfg'.Get(f) == LastValue([opts[0]], Key(f), cfg.Get(f));
      LastValueAppend([opts[0]], opts[1..], Key(f), cfg.Get(f));
      assert [opts[0]] + opts[1..] == opts;
    }
  }

  /** Options whose letter `on_option` does not recognise change nothing. */
  lemma {:induction false} UnknownKeysIgnored(cfg: Config, opts: seq<(char, Option<string>)>)
    requires forall i :: 0 <= i < |opts| ==> opts[i].0 !in Keys
    ensures ApplyAll(cfg, opts) == cfg
    decreases |opts|
  {
    if opts != [] {
      UnknownKeysIgnored(cfg, opts[1..]);
    }
  }
}
