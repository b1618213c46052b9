/**
 * One concrete invocation, `-q q.bin -i info.txt -p pub.pem -s sig.bin
 * -l pcr.log`, against a file system where every file exists, followed
 * from option recording to exit code under both verifier answers.
 */
module Example {
  import opened Wrappers
  import opened Options
  import opened Precondition
  import opened VerifyQuote
  import opened Intended

  /** The (key, value) pairs the option framework reports for the invocation. */
  const Argv: seq<(char, Option<string>)> :=
    [('q', Some("q.bin")), ('i', Some("info.txt")), ('p', Some("pub.pem")),
     ('s', Some("sig.bin")), ('l', Some("pcr.log"))]

  /** Every load succeeds; the verifier answers `rc`. */
  function AllFilesExist(rc: RC): Env {
    Env(Loaded([1]), Loaded([2, 2]), Loaded([3]), Loaded([4]), rc)
  }

  /** The options fill in all five fields, and validation accepts them. */
  lemma ExampleConfig()
    ensures ApplyAll(Initial, Argv) ==
      Config(Some("pub.pem"), Some("q.bin"), Some("info.txt"), Some("sig.bin"), Some("pcr.log"))
    ensures Validate(ApplyAll(Initial, Argv)).Success?
  {
    var c1 := OnOption(Initial, 'q', Some("q.bin")).0;
    var c2 := OnOption(c1, 'i', Some("info.txt")).0;
    var c3 := OnOption(c2, 'p', Some("pub.pem")).0;
    var c4 := OnOption(c3, 's', Some("sig.bin")).0;
    var c5 := OnOption(c4, 'l', Some("pcr.log")).0;
    assert ApplyAll(c5, []) == c5;
    assert ApplyAll(c4, Argv[4..]) == c5 by { assert Argv[4..][1..] == []; }
    assert ApplyAll(c3, Argv[3..]) == c5 by { assert Argv[3..][1..] == Argv[4..]; }
    assert ApplyAll(c2, Argv[2..]) == c5 by { assert Argv[2..][1..] == Argv[3..]; }
    assert ApplyAll(c1, Argv[1..]) == c5 by { assert Argv[1..][1..] == Argv[2..]; }
    assert ApplyAll(Initial, Argv) == c5;
    assert StdinCount(PathsOf(c5)) == 0;
  }

  /**
   * The invocation passes validation and the source loads three files, not
   * four. On success it exits 0 owning nothing; when the verifier rejects
   * the quote it exits 1 still owning all three buffers, where the corrected
   * run exits 1 owning nothing.
   */
  lemma ExampleInvocation(rc: RC)
    ensures var cfg := ApplyAll(Initial, Argv);
      var o := Run(cfg, AllFilesExist(rc));
      && Loads(o.trace) == [QualifyingData, Signature, QuoteInfo]
      && (rc == RcSuccess ==> o.exit == 0 && Live({}, o.trace) == {})
      && (rc != RcSuccess ==> o.exit == 1 && |Live({}, o.trace)| == 3)
      && RunIntended(cfg, AllFilesExist(rc)).exit == o.exit
      && Live({}, RunIntended(cfg, AllFilesExist(rc)).trace) == {}
  {
    var cfg := ApplyAll(Initial, Argv);
    var env := AllFilesExist(rc);
    ExampleConfig();
    assert ReachesVerify(cfg, env);
    LoadsFollowSourceOrder(cfg, env);
    ExitCodes(cfg, env);
    OwnershipRespected(cfg, env);
    ReleasesOnEveryExit(cfg, env);
    if rc != RcSuccess {
      VerifyFailureLeaks(cfg, env);
    }
  }
}
