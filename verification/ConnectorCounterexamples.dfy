/** Inputs on which the Excel connector and the capability engine do not keep what their names promise. */
module ConnectorCounterexamples {
  import opened Wrappers
  import opened Lexicons
  import opened Workbooks
  import opened RowMatching
  import opened FileWrites
  import opened RoadmapConnector
  import opened SampleRoadmap
  import Capabilities
  import LateWrites

  /** Whenever a write goes well up to its replacement and the preview after it raises, the call answers
      with a failure, and the workbook has changed. */
  lemma FailureChanges(env: Env, files: Files, p: Proposal, io: Io)
    requires Unicode(env.lex) && Grounded(env.lex, p)
    requires p.path in files && FreshTemp(files, p, io) && SavesFaithfully(io, files[p.path], p)
    requires Unwritten(env, files, p).None? && io.fault == Raises(5, false)
    ensures var (after, answer) := Applied(env, files, p, io);
            && answer == Some(Failure(Unknown))
            && p.path in after && after[p.path] == NewContent(files[p.path], p.change) != files[p.path]
  {
    NewContentFacts(env.lex, p);
    PathsApart(p.path, io.tmp, env.prefix8(files[p.path]));
  }

  /** A process that dies once the working copy has been made leaves it behind, as a workbook that discovery
      did not find before. */
  lemma DeathLeavesCopy(env: Env, files: Files, p: Proposal, io: Io)
    requires p.path in Discover(env, files) && FreshTemp(files, p, io)
    requires p.fingerprint == Sha256(files[p.path]) && !p.alreadyApplied && io.fault == Dies(1)
    ensures var after := Applied(env, files, p, io).0;
            TempOf(p.path, io.tmp) in Discover(env, after) && TempOf(p.path, io.tmp) !in Discover(env, files)
  {
    PathsApart(p.path, io.tmp, env.prefix8(files[p.path]));
    var w := WriteOf(env, files[p.path], p, io);
    WriteFiles(files, w);
    assert Discoverable(env, w.temp);
  }

  // ------------------------------------------------------------------ on a roadmap of one row

  function SampleEnv(): Env {
    Env(PlainLexicon(), [], (w: Workbook) => "00000000")
  }

  function SampleFiles(): Files {
    map[Path([], "r.xlsx") := [Grid()]]
  }

  function SampleIo(fault: Fault): Io {
    Io("t", (w: Workbook) => w, fault)
  }

  /** The row is proposed as done, and nothing but a fault keeps the change from being written. */
  lemma SampleProposed(fault: Fault) returns (p: Proposal)
    ensures Propose(SampleEnv(), SampleFiles(), Path([], "r.xlsx"), Ask(Query("plan", "", ""), Done, "")) == Ok(p)
    ensures p.path == Path([], "r.xlsx") && p.path in SampleFiles() && p.fingerprint == Sha256(SampleFiles()[p.path])
    ensures Unicode(SampleEnv().lex) && Grounded(SampleEnv().lex, p) && Allowed(SampleEnv(), p.path)
            && !p.alreadyApplied
    ensures FreshTemp(SampleFiles(), p, SampleIo(fault)) && SavesFaithfully(SampleIo(fault), SampleFiles()[p.path], p)
    ensures p.path in Discover(SampleEnv(), SampleFiles())
  {
    PlainUnicode();
    var path := Path([], "r.xlsx");
    p := Proposable(PlainLexicon(), path);
    ProposalGrounded(PlainLexicon(), path, [Grid()], Ask(Query("plan", "", ""), Done, ""), p);
    SampleOpens();
  }

  lemma SampleOpens()
    ensures var path := Path([], "r.xlsx"); Openable(path) && Discoverable(SampleEnv(), path)
  {
    var name := "r.xlsx";
    assert name[|name| - 5..] == ".xlsx";
    assert LowerAscii("") == "";
    assert ".xlsx"[1..] == "xlsx" && "xlsx"[1..] == "lsx" && "lsx"[1..] == "sx" && "sx"[1..] == "x" && "x"[1..] == "";
    assert LowerAscii("x") == "x";
    assert LowerAscii("sx") == "sx";
    assert LowerAscii("lsx") == "lsx";
    assert LowerAscii("xlsx") == "xlsx";
    assert LowerAscii(".xlsx") == ".xlsx";
  }

  /** A failure that has changed the workbook. */
  lemma FailureHappens() returns (p: Proposal)
    ensures var (after, answer) := Applied(SampleEnv(), SampleFiles(), p, SampleIo(Raises(5, false)));
            && answer == Some(Failure(Unknown)) && p.path in SampleFiles() && p.path in after
            && after[p.path] != SampleFiles()[p.path]
  {
    p := SampleProposed(Raises(5, false));
    FailureChanges(SampleEnv(), SampleFiles(), p, SampleIo(Raises(5, false)));
  }

  /** A death that leaves a second workbook. */
  lemma DeathHappens() returns (p: Proposal)
    ensures var after := Applied(SampleEnv(), SampleFiles(), p, SampleIo(Dies(1))).0;
            Discover(SampleEnv(), after) != Discover(SampleEnv(), SampleFiles())
  {
    p := SampleProposed(Dies(1));
    DeathLeavesCopy(SampleEnv(), SampleFiles(), p, SampleIo(Dies(1)));
  }

  /** A run in which an approval is carried out, and changes the workbook, while its capability is disabled. */
  lemma DisabledHappens() returns (ops: seq<Capabilities.Op>, s: Capabilities.Sys)
    ensures s == Capabilities.Run(SampleEnv(), SampleFiles(), 0, ops)
    ensures s.policy == Some(Capabilities.Policy(Capabilities.Disabled, None))
    ensures var path := Path([], "r.xlsx"); path in s.files && s.files[path] != SampleFiles()[path]
  {
    var p := SampleProposed(NoFault);
    ops, s := LateWrites.DisabledWrites(SampleEnv(), SampleFiles(), 0, p.path, Ask(Query("plan", "", ""), Done, ""), p,
                                        Capabilities.Luck(SampleIo(NoFault), ""));
  }
}
