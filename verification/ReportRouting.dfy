/**
 * From a worker's file to the evidence a repair needs: the declared output path
 * (backend/app/workers/worker_input_builder.py), the path a write is mapped to (backend/app/mcp/adapter.py),
 * the role the result handler files it under (backend/app/workers/worker_result_handler.py), and what the
 * guard asks for (backend/app/services/scheduler_guard.py).
 */
module ReportRouting {
  import opened Options
  import opened TextTools
  import opened RouterSchema
  import opened SchedulerGuard
  import opened WorkerResults
  import opened WorkerAdapter
  import opened WorkerInputs
  import opened ResultEffects

  /** The kind of file that has a role, for the roles a worker can write. */
  function KindOf(role: FileRole): Option<ArtifactType> {
    match role
    case Requirements => Some(RequirementsIr)
    case IoContract => Some(IoContractFile)
    case TestReport => Some(TestReportFile)
    case FailingTrace => Some(FailingTraceFile)
    case FormalReport => Some(FormalReportFile)
    case Counterexample => Some(CounterexampleFile)
    case Patch => Some(PatchFile)
    case RepairSummary => Some(RepairSummaryFile)
    case _ => None
  }

  /** Adapter and result handler read names alike: a path filed under a role matches the kind of that role. */
  lemma {:induction false} RolesAgreeWithKinds(path: string)
    ensures RoleForPath(path).Some? && KindOf(RoleForPath(path).value).Some? ==>
              PathMatches(path, KindOf(RoleForPath(path).value).value)
  {
  }

  /** A path that matches program code is filed as the current code; the reverse fails only for a contract's name. */
  lemma {:induction false} CodeIsFiledAsCode(path: string)
    ensures PathMatches(path, PlcCode) ==> RoleForPath(path) == Some(CurrentCode)
    ensures RoleForPath(path) == Some(CurrentCode) ==>
              PathMatches(path, PlcCode) || Contains(Lower(path), "io_contract")
  {
  }

  lemma {:induction false} DigitsOnly(n: nat)
    ensures forall k :: 0 <= k < |Digits(n)| ==> '0' <= Digits(n)[k] <= '9'
  {
    if n >= 10 { DigitsOnly(n / 10); }
  }

  /** The path of a report folder has none of the words that give a file its role. */
  lemma {:induction false} FolderHasNone(jobId: nat, word: string, letter: char)
    requires '/' !in word && letter in word && 'a' <= letter <= 'z'
    requires |word| > 7 || letter == 'a'
    ensures !Contains(ReportFolder(jobId), word)
  {
    DigitsOnly(jobId);
    var digits := Digits(jobId);
    assert letter !in digits;
    LacksCharacter(digits, word, letter);
    if |word| > 7 {
      TooShort(".router", word);
      TooShort("reports", word);
    } else {
      LacksCharacter(".router", word, 'a');
      LacksCharacter("reports", word, 'a');
    }
    NotAcrossASlash("reports", word, digits);
    NotAcrossASlash(".router", word, "reports" + "/" + digits);
    assert ".router/reports/" == ".router" + "/" + "reports" + "/";
    assert ReportFolder(jobId) == ".router" + "/" + ("reports" + "/" + digits);
  }

  /** A file of the report folder. */
  function InFolder(jobId: nat, name: string): string { ReportFolder(jobId) + "/" + name }

  lemma {:induction false} OnlyTheNameCounts(jobId: nat, name: string, word: string, letter: char)
    requires '/' !in word && letter in word && 'a' <= letter <= 'z'
    requires |word| > 7 || letter == 'a'
    ensures Contains(InFolder(jobId, name), word) <==> Contains(name, word)
  {
    FolderHasNone(jobId, word, letter);
    NotAcrossASlash(ReportFolder(jobId), word, name);
  }

  lemma {:induction false} FolderIsLower(jobId: nat, name: string)
    requires Lower(name) == name
    ensures Lower(InFolder(jobId, name)) == InFolder(jobId, name)
  {
    DigitsOnly(jobId);
    var path := InFolder(jobId, name);
    assert path == ".router/reports/" + Digits(jobId) + "/" + name;
    forall k | 0 <= k < |path| ensures LowerChar(path[k]) == path[k] {
      var n := |path| - |name|;
      if k >= n { assert path[k] == name[k - n] == Lower(name)[k - n]; }
    }
  }

  /** None of the four endings of a program. */
  predicate NoProgram(path: string) {
    !EndsWith(path, ".st") && !EndsWith(path, ".scl") && !EndsWith(path, ".fbd") && !EndsWith(path, ".xml")
  }

  lemma {:induction false} JsonIsNoProgram(path: string)
    requires path != "" && (path[|path| - 1] == 'n' || path[|path| - 1] == 'f')
    ensures NoProgram(path)
  {
  }

  lemma {:induction false} LacksWord(jobId: nat, name: string, word: string, letter: char)
    requires '/' !in word && letter in word && 'a' <= letter <= 'z' && letter !in name && |word| > 7
    ensures !Contains(InFolder(jobId, name), word)
  {
    OnlyTheNameCounts(jobId, name, word, letter);
    LacksCharacter(name, word, letter);
  }

  lemma {:induction false} FiledAsTestReport(path: string)
    requires Lower(path) == path && NoProgram(path)
    requires !Contains(path, "requirements") && !Contains(path, "io_contract") && !Contains(path, "test_cases")
    requires Contains(path, "test_report")
    ensures RoleForPath(path) == Some(TestReport)
  {
  }

  lemma {:induction false} FiledAsFormalReport(path: string)
    requires Lower(path) == path && NoProgram(path)
    requires !Contains(path, "requirements") && !Contains(path, "io_contract") && !Contains(path, "test_cases")
    requires !Contains(path, "test_report") && !Contains(path, "failing_trace") && !Contains(path, "formal_properties")
    requires Contains(path, "formal_report")
    ensures RoleForPath(path) == Some(FormalReport)
  {
  }

  /** A lower-case name that ends like no program. */
  ghost predicate PlainName(name: string) {
    Lower(name) == name && name != "" && (name[|name| - 1] == 'n' || name[|name| - 1] == 'f')
  }

  lemma {:induction false} PlainInFolder(jobId: nat, name: string)
    requires PlainName(name)
    ensures Lower(InFolder(jobId, name)) == InFolder(jobId, name) && NoProgram(InFolder(jobId, name))
    ensures InFolder(jobId, name) != "" && InFolder(jobId, name)[|InFolder(jobId, name)| - 1] == name[|name| - 1]
  {
    FolderIsLower(jobId, name);
    JsonIsNoProgram(InFolder(jobId, name));
  }

  lemma {:induction false} FiledAsRequirements(path: string)
    requires Lower(path) == path && NoProgram(path) && Contains(path, "requirements")
    ensures RoleForPath(path) == Some(Requirements) && PathMatches(path, RequirementsIr)
  {
  }

  lemma {:induction false} FiledAsContract(path: string)
    requires Lower(path) == path && NoProgram(path)
    requires !Contains(path, "requirements") && Contains(path, "io_contract")
    ensures RoleForPath(path) == Some(IoContract) && PathMatches(path, IoContractFile)
  {
  }

  lemma {:induction false} RequirementsAreFiled(jobId: nat, name: string)
    requires PlainName(name) && Contains(name, "requirements")
    ensures var path := InFolder(jobId, name);
            RoleForPath(path) == Some(Requirements) && PathMatches(path, RequirementsIr)
  {
    PlainInFolder(jobId, name);
    OnlyTheNameCounts(jobId, name, "requirements", 'q');
    FiledAsRequirements(InFolder(jobId, name));
  }

  lemma {:induction false} OnlyAContract(jobId: nat, name: string)
    requires Contains(name, "io_contract") && 'q' !in name
    ensures !Contains(InFolder(jobId, name), "requirements") && Contains(InFolder(jobId, name), "io_contract")
  {
    LacksWord(jobId, name, "requirements", 'q');
    OnlyTheNameCounts(jobId, name, "io_contract", 'o');
  }

  lemma {:induction false} ContractIsFiled(jobId: nat, name: string)
    requires PlainName(name) && Contains(name, "io_contract") && 'q' !in name
    ensures var path := InFolder(jobId, name);
            RoleForPath(path) == Some(IoContract) && PathMatches(path, IoContractFile)
  {
    PlainInFolder(jobId, name);
    OnlyAContract(jobId, name);
    FiledAsContract(InFolder(jobId, name));
  }

  /** None of the words that would make a file something else than a patch or a repair summary. */
  ghost predicate NoOtherWord(path: string) {
    && !Contains(path, "requirements") && !Contains(path, "io_contract") && !Contains(path, "test_cases")
    && !Contains(path, "test_report") && !Contains(path, "failing_trace") && !Contains(path, "formal_properties")
    && !Contains(path, "formal_report") && !Contains(path, "counterexample")
  }

  lemma {:induction false} FiledAsPatch(path: string)
    requires Lower(path) == path && NoProgram(path) && NoOtherWord(path) && EndsWith(path, ".diff")
    ensures RoleForPath(path) == Some(Patch) && PathMatches(path, PatchFile)
  {
  }

  lemma {:induction false} FiledAsRepairSummary(path: string)
    requires Lower(path) == path && NoProgram(path) && NoOtherWord(path)
    requires path != "" && path[|path| - 1] == 'n' && !Contains(path, "patch") && Contains(path, "repair_summary")
    ensures RoleForPath(path) == Some(RepairSummary) && PathMatches(path, RepairSummaryFile)
  {
  }

  lemma {:induction false} NoLongWord(jobId: nat, name: string, letter: char)
    requires 'q' !in name && letter !in name
    requires letter == 's' || letter == 't' || letter == 'o'
    ensures var path := InFolder(jobId, name);
            && !Contains(path, "requirements")
            && (letter != 'o' ==> !Contains(path, "test_cases") && !Contains(path, "test_report"))
            && (letter == 't' ==> !Contains(path, "failing_trace"))
            && (letter != 's' ==> !Contains(path, "io_contract") && !Contains(path, "formal_properties"))
            && (letter != 's' ==> !Contains(path, "formal_report") && !Contains(path, "counterexample"))
  {
    LacksWord(jobId, name, "requirements", 'q');
    if letter != 'o' {
      LacksWord(jobId, name, "test_cases", letter);
      LacksWord(jobId, name, "test_report", letter);
    }
    if letter == 't' { LacksWord(jobId, name, "failing_trace", 't'); }
    if letter != 's' { NoLongerWord(jobId, name, letter); }
  }

  lemma {:induction false} NoLongerWord(jobId: nat, name: string, letter: char)
    requires (letter == 't' || letter == 'o') && letter !in name
    ensures var path := InFolder(jobId, name);
            && !Contains(path, "io_contract") && !Contains(path, "formal_properties")
            && !Contains(path, "formal_report") && !Contains(path, "counterexample")
  {
    LacksWord(jobId, name, "io_contract", letter);
    LacksWord(jobId, name, "formal_properties", letter);
    LacksWord(jobId, name, "formal_report", letter);
    LacksWord(jobId, name, "counterexample", letter);
  }

  lemma {:induction false} PatchIsFiled(jobId: nat, name: string)
    requires PlainName(name) && 'q' !in name && 's' !in name && 'o' !in name && 'l' !in name
    requires EndsWith(name, ".diff")
    ensures var path := InFolder(jobId, name); RoleForPath(path) == Some(Patch) && PathMatches(path, PatchFile)
  {
    var path := InFolder(jobId, name);
    PlainInFolder(jobId, name);
    NoLongWord(jobId, name, 's');
    NoLongWord(jobId, name, 'o');
    LacksWord(jobId, name, "failing_trace", 'l');
    assert path[|path| - 5..] == name[|name| - 5..];
    FiledAsPatch(path);
  }

  lemma {:induction false} RepairSummaryIsFiled(jobId: nat, name: string)
    requires PlainName(name) && name[|name| - 1] == 'n' && 'q' !in name && 't' !in name
    requires Contains(name, "repair_summary")
    ensures var path := InFolder(jobId, name);
            RoleForPath(path) == Some(RepairSummary) && PathMatches(path, RepairSummaryFile)
  {
    PlainInFolder(jobId, name);
    NoOtherWordIn(jobId, name);
    NoPatchIn(jobId, name);
    OnlyTheNameCounts(jobId, name, "repair_summary", 'y');
    FiledAsRepairSummary(InFolder(jobId, name));
  }

  lemma {:induction false} NoOtherWordIn(jobId: nat, name: string)
    requires 'q' !in name && 't' !in name
    ensures NoOtherWord(InFolder(jobId, name))
  {
    NoLongWord(jobId, name, 't');
  }

  lemma {:induction false} NoPatchIn(jobId: nat, name: string)
    requires 't' !in name
    ensures !Contains(InFolder(jobId, name), "patch")
  {
    OnlyTheNameCounts(jobId, name, "patch", 'a');
    LacksCharacter(name, "patch", 't');
  }

  // What a development or a repair writes to its declared report paths gets the role of its kind.

  lemma {:induction false} PlainRequirements()
    ensures PlainName("requirements.json") && Contains("requirements.json", "requirements")
  {
    assert "" + "requirements" + ".json" == "requirements.json";
    ContainsWhole("", "requirements", ".json");
  }

  lemma {:induction false} PlainContract()
    ensures PlainName("io_contract.json") && Contains("io_contract.json", "io_contract")
    ensures 'q' !in "io_contract.json"
  {
    assert "" + "io_contract" + ".json" == "io_contract.json";
    ContainsWhole("", "io_contract", ".json");
  }

  lemma {:induction false} PlainSummary()
    ensures PlainName("repair_summary.json") && 'q' !in "repair_summary.json" && 't' !in "repair_summary.json"
  {
  }

  lemma {:induction false} SummarySaysSo()
    ensures Contains("repair_summary.json", "repair_summary")
  {
    assert "" + "repair_summary" + ".json" == "repair_summary.json";
    ContainsWhole("", "repair_summary", ".json");
  }

  lemma {:induction false} PlainPatch()
    ensures PlainName("patch.diff") && EndsWith("patch.diff", ".diff")
    ensures 'q' !in "patch.diff" && 's' !in "patch.diff" && 'o' !in "patch.diff" && 'l' !in "patch.diff"
  {
  }

  lemma {:induction false} DevelopmentFilesGetTheirRoles(jobId: nat)
    ensures RoleForPath(InFolder(jobId, "requirements.json")) == Some(Requirements)
    ensures RoleForPath(InFolder(jobId, "io_contract.json")) == Some(IoContract)
  {
    PlainRequirements();
    RequirementsAreFiled(jobId, "requirements.json");
    PlainContract();
    ContractIsFiled(jobId, "io_contract.json");
  }

  lemma {:induction false} RepairFilesGetTheirRoles(jobId: nat)
    ensures RoleForPath(InFolder(jobId, "patch.diff")) == Some(Patch)
    ensures RoleForPath(InFolder(jobId, "repair_summary.json")) == Some(RepairSummary)
  {
    PlainPatch();
    PatchIsFiled(jobId, "patch.diff");
    PlainSummary();
    SummarySaysSo();
    RepairSummaryIsFiled(jobId, "repair_summary.json");
  }

  /** A report whose name lacks the letters q and c is no requirements, contract or test case file. */
  lemma {:induction false} NoneOfTheFirst(jobId: nat, name: string)
    requires 'q' !in name && 'c' !in name
    ensures var path := InFolder(jobId, name);
            !Contains(path, "requirements") && !Contains(path, "io_contract") && !Contains(path, "test_cases")
  {
    OnlyTheNameCounts(jobId, name, "requirements", 'q');
    OnlyTheNameCounts(jobId, name, "io_contract", 'c');
    OnlyTheNameCounts(jobId, name, "test_cases", 'c');
    LacksCharacter(name, "requirements", 'q');
    LacksCharacter(name, "io_contract", 'c');
    LacksCharacter(name, "test_cases", 'c');
  }

  lemma {:induction false} StandsLetterByLetter(s: string, part: string, i: nat, k: nat)
    requires k < |part|
    ensures StandsAt(s, part, i) ==> i + k < |s| && s[i + k] == part[k]
  {
    if StandsAt(s, part, i) {
      assert s[i..i + |part|][k] == s[i + k];
    }
  }

  lemma {:induction false} NotTherein(name: string, i: nat)
    requires name == "formal_report.json"
    ensures !StandsAt(name, "test_report", i)
  {
    StandsLetterByLetter(name, "test_report", i, 3);
    StandsLetterByLetter(name, "test_report", i, 4);
  }

  lemma {:induction false} NoTestReport(name: string)
    requires name == "formal_report.json"
    ensures !Contains(name, "test_report")
  {
    ContainsIff(name, "test_report");
    forall i: nat ensures !StandsAt(name, "test_report", i) {
      NotTherein(name, i);
    }
  }

  /** What can be seen from the name of a report. */
  ghost predicate ReportName(name: string) {
    && Lower(name) == name && name != "" && name[|name| - 1] == 'n' && 'q' !in name && 'c' !in name
  }

  lemma {:induction false} ReportWords(jobId: nat, name: string)
    ensures Contains(InFolder(jobId, name), "test_report") <==> Contains(name, "test_report")
    ensures Contains(InFolder(jobId, name), "formal_report") <==> Contains(name, "formal_report")
  {
    OnlyTheNameCounts(jobId, name, "test_report", 't');
    OnlyTheNameCounts(jobId, name, "formal_report", 'o');
  }

  lemma {:induction false} NamedTestReport(jobId: nat, name: string)
    requires ReportName(name) && Contains(name, "test_report")
    ensures RoleForPath(InFolder(jobId, name)) == Some(TestReport)
    ensures PathMatches(InFolder(jobId, name), TestReportFile)
  {
    var path := InFolder(jobId, name);
    FolderIsLower(jobId, name);
    JsonIsNoProgram(path);
    NoneOfTheFirst(jobId, name);
    ReportWords(jobId, name);
    FiledAsTestReport(path);
  }

  lemma {:induction false} NoTraceNorProperties(jobId: nat, name: string)
    requires 'g' !in name && 'i' !in name
    ensures !Contains(InFolder(jobId, name), "failing_trace") && !Contains(InFolder(jobId, name), "formal_properties")
  {
    OnlyTheNameCounts(jobId, name, "failing_trace", 'g');
    OnlyTheNameCounts(jobId, name, "formal_properties", 'i');
    LacksCharacter(name, "failing_trace", 'g');
    LacksCharacter(name, "formal_properties", 'i');
  }

  lemma {:induction false} NamedFormalReport(jobId: nat, name: string)
    requires ReportName(name) && 'g' !in name && 'i' !in name
    requires Contains(name, "formal_report") && !Contains(name, "test_report")
    ensures RoleForPath(InFolder(jobId, name)) == Some(FormalReport)
    ensures PathMatches(InFolder(jobId, name), FormalReportFile)
  {
    var path := InFolder(jobId, name);
    FolderIsLower(jobId, name);
    JsonIsNoProgram(path);
    NoneOfTheFirst(jobId, name);
    NoTraceNorProperties(jobId, name);
    ReportWords(jobId, name);
    FiledAsFormalReport(path);
  }

  lemma {:induction false} TestName()
    ensures ReportName("test_report.json") && Contains("test_report.json", "test_report")
  {
    assert "" + "test_report" + ".json" == "test_report.json";
    ContainsWhole("", "test_report", ".json");
  }

  lemma {:induction false} FormalName()
    ensures ReportName("formal_report.json") && 'g' !in "formal_report.json" && 'i' !in "formal_report.json"
  {
  }

  lemma {:induction false} FormalNameSaysSo()
    ensures Contains("formal_report.json", "formal_report")
  {
    assert "" + "formal_report" + ".json" == "formal_report.json";
    ContainsWhole("", "formal_report", ".json");
  }

  /** The report a checking worker declares, and its kind. */
  function ReportOf(worker: WorkerType, jobId: nat): string {
    InFolder(jobId, if worker == PlcFormal then "formal_report.json" else "test_report.json")
  }

  lemma {:induction false} SlashJoins(folder: string, name: string)
    ensures folder + "/" + name == folder + ("/" + name)
  {
  }

  lemma {:induction false} DedupeOne(path: string)
    ensures Dedupe([path]) == [path]
  {
    assert [path][..0] == [];
  }

  lemma {:induction false} DeclaresItsReport(t: TaskState, worker: WorkerType, config: Config, jobId: nat)
    requires worker == PlcTest || worker == PlcFormal
    ensures BuildWorkerInput(t, worker, config, jobId).outputPaths == [ReportOf(worker, jobId)]
    ensures BuildWorkerInput(t, worker, config, jobId).jobId == jobId
  {
    var declared := DefaultOutputPaths(t, worker, jobId);
    assert "/" + "test_report.json" == "/test_report.json" && "/" + "formal_report.json" == "/formal_report.json";
    SlashJoins(ReportFolder(jobId), "test_report.json");
    SlashJoins(ReportFolder(jobId), "formal_report.json");
    DedupeOne(ReportOf(worker, jobId));
  }

  /** The paths a development and a repair declare. */
  lemma {:induction false} DeclaredPaths(t: TaskState, jobId: nat)
    ensures DefaultOutputPaths(t, PlcDev, jobId)
         == ["src/plc_code.st", InFolder(jobId, "requirements.json"), InFolder(jobId, "io_contract.json")]
    ensures DefaultOutputPaths(t, PlcRepair, jobId)
         == [if CurrentCode in t.files.roles then t.files.roles[CurrentCode] else "src/plc_code.st",
             InFolder(jobId, "patch.diff"), InFolder(jobId, "repair_summary.json")]
  {
    assert "/" + "requirements.json" == "/requirements.json" && "/" + "io_contract.json" == "/io_contract.json";
    assert "/" + "patch.diff" == "/patch.diff" && "/" + "repair_summary.json" == "/repair_summary.json";
    SlashJoins(ReportFolder(jobId), "requirements.json");
    SlashJoins(ReportFolder(jobId), "io_contract.json");
    SlashJoins(ReportFolder(jobId), "patch.diff");
    SlashJoins(ReportFolder(jobId), "repair_summary.json");
  }

  lemma {:induction false} MappedToTheOnlyMatch(input: WorkerInput, write: WriteIntent, path: string)
    requires input.outputPaths == [path] && PathMatches(path, write.kind)
    ensures FilePathForWrite(input, write) == path
  {
  }

  lemma {:induction false} ReportGoesToItsPath(
    t: TaskState, worker: WorkerType, config: Config, jobId: nat, write: WriteIntent)
    requires worker == PlcTest || worker == PlcFormal
    requires write.kind == if worker == PlcTest then TestReportFile else FormalReportFile
    ensures FilePathForWrite(BuildWorkerInput(t, worker, config, jobId), write) == ReportOf(worker, jobId)
    ensures RoleForPath(ReportOf(worker, jobId)) == Some(if worker == PlcTest then TestReport else FormalReport)
  {
    if worker == PlcTest {
      TestName();
      NamedTestReport(jobId, "test_report.json");
    } else {
      FormalName();
      FormalNameSaysSo();
      NoTestReport("formal_report.json");
      NamedFormalReport(jobId, "formal_report.json");
    }
    DeclaresItsReport(t, worker, config, jobId);
    MappedToTheOnlyMatch(BuildWorkerInput(t, worker, config, jobId), write, ReportOf(worker, jobId));
  }

  lemma {:induction false} AppliedFiles(before: TaskState, input: WorkerInput, r: WorkerResult, k: nat, role: FileRole)
    requires r.execution == ExecCompleted && k < |r.writtenPaths| && RoleForPath(r.writtenPaths[k]) == Some(role)
    ensures role in ApplyResult(before, input, r).files.roles
  {
    WrittenPathSetsItsRole(before.files, r.writtenPaths, r.writtenPaths[k]);
  }

  lemma {:induction false} CompletedAnswerWrote(route: string, input: WorkerInput, reply: WorkerReply, k: nat)
    requires Answer(route, input, reply).execution == ExecCompleted && reply.Replies? && k < |reply.draft.writes|
    ensures var written := Answer(route, input, reply).writtenPaths;
            |written| == |reply.draft.writes| && written[k] == FilePathForWrite(input, reply.draft.writes[k])
  {
  }

  /**
   * End to end: whatever a test or formal worker's outcome, if its answer is completed and it wrote its
   * report, then the task it is applied to has the evidence a repair needs.
   */
  lemma {:induction false} WrittenReportIsEvidence(
    t: TaskState, before: TaskState, worker: WorkerType, config: Config, jobId: nat, route: string, reply: WorkerReply,
    k: nat)
    requires worker == PlcTest || worker == PlcFormal
    requires var input := BuildWorkerInput(t, worker, config, jobId);
             && Answer(route, input, reply).execution == ExecCompleted
             && reply.Replies? && k < |reply.draft.writes|
             && reply.draft.writes[k].kind == if worker == PlcTest then TestReportFile else FormalReportFile
    ensures var input := BuildWorkerInput(t, worker, config, jobId);
            var after := ApplyResult(before, input, Answer(route, input, reply));
            && (if worker == PlcTest then TestReport else FormalReport) in after.files.roles
            && HasEvidence(after)
  {
    var input := BuildWorkerInput(t, worker, config, jobId);
    var r := Answer(route, input, reply);
    var role := if worker == PlcTest then TestReport else FormalReport;
    ReportGoesToItsPath(t, worker, config, jobId, reply.draft.writes[k]);
    CompletedAnswerWrote(route, input, reply, k);
    AppliedFiles(before, input, r, k, role);
  }

  /** A real or subagent worker that passes has written its report, so this holds of each of its passed checks. */
  lemma {:induction false} PassedCheckHasWrittenItsReport(input: WorkerInput, route: string, reply: WorkerReply)
    requires input.worker == PlcTest || input.worker == PlcFormal
    requires route == "real" || route == "subagent"
    requires Answer(route, input, reply).outcome == Passed
    ensures reply.Replies?
    ensures exists k :: 0 <= k < |reply.draft.writes| &&
              reply.draft.writes[k].kind == if input.worker == PlcTest then TestReportFile else FormalReportFile
  {
    var kind := if input.worker == PlcTest then TestReportFile else FormalReportFile;
    assert kind in RequiredKinds(input.worker);
    assert Produces(reply.draft, kind);
  }
}
