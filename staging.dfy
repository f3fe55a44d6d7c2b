/** Staging the decoded contract into the challenge's workspace, running the
    challenge's tests against it, and removing it afterwards. */
module Staging {
  import opened Wrappers
  import opened Text
  import opened SourceDecoding

  /** The fields of a challenge record that the pipeline reads. */
  datatype Challenge = Challenge(name: string, contractName: string)

  /** `SubmissionConfig`: which challenge, which network, which deployed contract. */
  datatype SubmissionConfig = SubmissionConfig(challenge: Challenge, network: string, contractAddress: string)

  /** What the shell command gives back: its captured streams, or the error it threw. */
  datatype CommandOutcome = Returned(stdout: string, stderr: string) | Threw(error: string)

  /** The value testChallengeSubmission returns. */
  datatype TestReport = TestReport(stdout: string, stderr: string)

  /** Which of the two steps of a submission threw. */
  datatype SubmissionError = DownloadFailed(reason: DownloadError) | TestFailed(error: string)

  /** `${__dirname}/../challenges/${challenge.name}` */
  function ChallengeDir(root: string, name: string): (r: string)
    ensures |r| == |root| + 15 + |name|
    ensures r[..|root|] == root && r[|root|..|root| + 15] == "/../challenges/" && r[|root| + 15..] == name
  {
    root + "/../challenges/" + name
  }

  /** The directory the contract is written into. */
  function ContractsDir(root: string, name: string): (r: string)
    ensures var dir := ChallengeDir(root, name);
      |r| == |dir| + 27 && r[..|dir|] == dir && r[|dir|..] == "/packages/foundry/contracts"
  {
    ChallengeDir(root, name) + "/packages/foundry/contracts"
  }

  /** `download-${contractAddress}.sol` */
  function StagedFileName(address: string): (r: string)
    ensures |r| == |address| + 13 && r[..9] == "download-" && r[9..|r| - 4] == address && r[|r| - 4..] == ".sol"
    ensures '/' !in address ==> '/' !in r
    ensures ':' !in address ==> ':' !in r
  {
    "download-" + address + ".sol"
  }

  /** The staged path, which depends on the challenge's name and the address only. */
  function StagedPath(root: string, config: SubmissionConfig): (r: string)
    ensures var dir := ContractsDir(root, config.challenge.name);
      && |r| > |dir| && r[..|dir|] == dir && r[|dir|] == '/'
      && r[|dir| + 1..] == StagedFileName(config.contractAddress)
  {
    ContractsDir(root, config.challenge.name) + "/" + StagedFileName(config.contractAddress)
  }

  /** `download-${contractAddress}.sol:${contractName}` with the first ".sol"
      of the contract name removed. */
  function TestTarget(config: SubmissionConfig): (r: string)
    ensures var file := StagedFileName(config.contractAddress);
      && |r| > |file| && r[..|file|] == file && r[|file|] == ':'
      && r[|file| + 1..] == RemoveFirst(config.challenge.contractName, ".sol")
  {
    StagedFileName(config.contractAddress) + ":" + RemoveFirst(config.challenge.contractName, ".sol")
  }

  /** The test command, run from the challenge's directory. */
  function TestCommand(root: string, config: SubmissionConfig): (r: string)
    ensures var head := "cd " + ChallengeDir(root, config.challenge.name) + " && CONTRACT_PATH=\"";
      var target := TestTarget(config);
      && |r| > |head| + |target| && r[..|head|] == head
      && r[|head|..|head| + |target|] == target
      && r[|head| + |target|..] == "\" yarn foundry:test --gas-report"
  {
    "cd " + ChallengeDir(root, config.challenge.name)
      + " && CONTRACT_PATH=\"" + TestTarget(config) + "\" yarn foundry:test --gas-report"
  }

  /** The cleanup command; it removes the very path the download wrote. */
  function RemoveCommand(root: string, config: SubmissionConfig): (r: string)
    ensures r == "rm -f " + StagedPath(root, config)
  {
    "rm -f " + ChallengeDir(root, config.challenge.name)
      + "/packages/foundry/contracts/download-" + config.contractAddress + ".sol"
  }

  /** Two submissions to one challenge from different addresses never share
      a staged file. */
  lemma StagedPathsDistinct(root: string, c1: SubmissionConfig, c2: SubmissionConfig)
    requires c1.challenge.name == c2.challenge.name
    requires c1.contractAddress != c2.contractAddress
    ensures StagedPath(root, c1) != StagedPath(root, c2)
  {
  }

  /** For an address without ':' the target's first ':' separates the staged
      file's name from the contract's symbol. */
  lemma {:induction false} TargetSplitsAtColon(config: SubmissionConfig)
    requires ':' !in config.contractAddress
    ensures var t, k := TestTarget(config), |StagedFileName(config.contractAddress)|;
      && IndexOf(t, ":") == k
      && t[..k] == StagedFileName(config.contractAddress)
      && t[k + 1..] == RemoveFirst(config.challenge.contractName, ".sol")
  {
    var file := StagedFileName(config.contractAddress);
    var t := TestTarget(config);
    var k := |file|;
    assert t[k..k + 1] == ":";
    forall j | 0 <= j < k ensures !OccursAt(t, ":", j) {
      assert t[j..j + 1] == [file[j]];
      assert file[j] in file;
      assert file == "download-" + config.contractAddress + ".sol";
    }
    IndexOfFirst(t, ":", k);
  }

  /** Writing the staged file and then removing it leaves every other path as
      it was; a file that was already at the staged path is gone. */
  lemma StageThenRemove(files: map<string, string>, path: string, body: string)
    ensures files[path := body] - {path} == files - {path}
    ensures path !in files ==> files[path := body] - {path} == files
  {
  }

  /** The challenges' workspaces: files by path, and the shell commands the
      pipeline has issued. */
  class Workspace {
    /** The server's utilities directory (`__dirname`). */
    const root: string
    /** The directories that exist; the pipeline creates none. */
    const dirs: set<string>
    var files: map<string, string>
    var commands: seq<string>

    constructor (root: string, dirs: set<string>, files: map<string, string>)
      ensures this.root == root && this.dirs == dirs && this.files == files && commands == []
    {
      this.root := root;
      this.dirs := dirs;
      this.files := files;
      commands := [];
    }

    /** downloadContract: check the reply, decode it, and write the result to
        the staged path. On any failure no file changes. */
    method Download(config: SubmissionConfig, reply: ExplorerReply, parse: Parser)
      returns (r: Result<(), DownloadError>)
      modifies this`files
      ensures var fetched := Fetch(reply, config.challenge.contractName, parse);
        && (r.Success? <==> fetched.Success? && ContractsDir(root, config.challenge.name) in dirs)
        && (r.Success? ==> files == old(files)[StagedPath(root, config) := fetched.value])
        && (r.Failure? ==> files == old(files))
        && (r.Failure? ==> r.error == if fetched.Failure? then fetched.error else DirectoryMissing)
    {
      var fetched := Fetch(reply, config.challenge.contractName, parse);
      match fetched {
        case Failure(e) =>
          r := Failure(e);
        case Success(body) =>
          if ContractsDir(root, config.challenge.name) in dirs {
            files := files[StagedPath(root, config) := body];
            r := Success(());
          } else {
            r := Failure(DirectoryMissing);
          }
      }
    }

    /** testChallengeSubmission: run the challenge's tests against the staged
        file; only when the command returns is the file removed. A thrown
        error is passed on and the file stays. */
    method TestAndCleanup(config: SubmissionConfig, harness: string -> CommandOutcome)
      returns (r: Result<TestReport, string>)
      modifies this`files, this`commands
      ensures var test := TestCommand(root, config);
        match harness(test)
        case Returned(out, err) =>
          && r == Success(TestReport(out, err))
          && files == old(files) - {StagedPath(root, config)}
          && commands == old(commands) + [test, RemoveCommand(root, config)]
        case Threw(e) =>
          && r == Failure(e)
          && files == old(files)
          && commands == old(commands) + [test]
    {
      var test := TestCommand(root, config);
      commands := commands + [test];
      var outcome := harness(test);
      match outcome {
        case Threw(e) =>
          r := Failure(e);
        case Returned(out, err) =>
          commands := commands + [RemoveCommand(root, config)];
          files := files - {StagedPath(root, config)};
          r := Success(TestReport(out, err));
      }
    }

    /** A submission as the route handler runs it: the download, and only
        after it succeeds, the test run with its cleanup. */
    method Submit(config: SubmissionConfig, reply: ExplorerReply, parse: Parser, harness: string -> CommandOutcome)
      returns (r: Result<TestReport, SubmissionError>)
      modifies this`files, this`commands
      ensures var fetched := Fetch(reply, config.challenge.contractName, parse);
        var staged := fetched.Success? && ContractsDir(root, config.challenge.name) in dirs;
        var test := TestCommand(root, config);
        var path := StagedPath(root, config);
        && (!staged ==>
              && r == Failure(DownloadFailed(if fetched.Failure? then fetched.error else DirectoryMissing))
              && files == old(files) && commands == old(commands))
        && (staged && harness(test).Returned? ==>
              && r == Success(TestReport(harness(test).stdout, harness(test).stderr))
              && files == old(files) - {path}
              && commands == old(commands) + [test, RemoveCommand(root, config)])
        && (staged && harness(test).Threw? ==>
              && r == Failure(TestFailed(harness(test).error))
              && files == old(files)[path := fetched.value]
              && commands == old(commands) + [test])
    {
      var downloaded := Download(config, reply, parse);
      match downloaded {
        case Failure(e) =>
          r := Failure(DownloadFailed(e));
        case Success(_) =>
          ghost var written := files;
          var tested := TestAndCleanup(config, harness);
          match tested {
            case Success(report) =>
              StageThenRemove(old(files), StagedPath(root, config), written[StagedPath(root, config)]);
              r := Success(report);
            case Failure(e) =>
              r := Failure(TestFailed(e));
          }
      }
    }
  }
}
