/**
 Job documents and their validation (apps/windows/JobDocument.cs).  A null string is blank to every
 check and is modelled as the empty text; paths, files and the endpoint rule belong to the platform.
 */
module Jobs {
  import opened Wrappers
  import opened Text
  import opened Splitting

  datatype Validation = Validation(program: Utf16, arguments: Option<seq<Utf16>>, timeoutSeconds: int)

  datatype Job = Job(
    repository: Utf16, specification: Utf16, allowedFiles: Option<seq<Utf16>>, validation: Option<Validation>,
    endpoint: Utf16, model: Utf16,
    orchestratorProvider: Utf16, orchestratorModel: Utf16, orchestratorEffort: Utf16,
    reviewerProvider: Utf16, reviewerModel: Utf16, effort: Utf16, reviewerEffort: Utf16, maxAttempts: int)

  /** `fold` is the folding of one unit under OrdinalIgnoreCase. */
  datatype Platform = Platform(
    isRooted: Utf16 -> bool, directoryExists: Utf16 -> bool, fileExists: Utf16 -> bool,
    isLoopbackEndpoint: Utf16 -> bool, fold: CodeUnit -> CodeUnit)

  datatype JobError =
    | Missing | NoRepository | RelativeRepository | RepositoryAbsent | NoSpecification | NoFiles
    | FileNotRelative | FileNotNormalized | GitFile | DuplicateFile
    | NoValidation | NoProgram | RelativeProgram | ProgramAbsent | BadTimeout | BadAttempts | NoModel | BadEffort
    | BadOrchestrator | BadOrchestratorModel | BadOrchestratorEffort
    | BadReviewer | NoReviewerModel | LongReviewerModel | BadReviewerEffort | BadEndpoint
    | EmptyArgument | ArgumentLineBreak

  predicate IsProvider(s: Utf16) {
    s == Ascii("local") || s == Ascii("chatgpt")
  }

  predicate IsEffort(s: Utf16) {
    IsBlank(s) || s in {Ascii("none"), Ascii("minimal"), Ascii("low"), Ascii("medium"), Ascii("high"), Ascii("xhigh"),
                        Ascii("max"), Ascii("ultra")}
  }

  predicate IsStep(part: Utf16) {
    part != [] && part != Ascii(".") && part != Ascii("..")
  }

  predicate Seen(h: Platform, seen: seq<Utf16>, item: Utf16) {
    exists i :: 0 <= i < |seen| && SameFold(h.fold, seen[i], item)
  }

  function FileError(h: Platform, item: Utf16, seen: seq<Utf16>): Option<JobError> {
    var parts := Split(item, SLASH);
    if item == [] || h.isRooted(item) || COLON in item || BACKSLASH in item then Some(FileNotRelative)
    else if exists i :: 0 <= i < |parts| && !IsStep(parts[i]) then Some(FileNotNormalized)
    else if SameFold(h.fold, parts[0], Ascii(".git")) then Some(GitFile)
    else if Seen(h, seen, item) then Some(DuplicateFile)
    else None
  }

  /** The first error among the files from `k` on, those before it having been seen. */
  function FilesError(h: Platform, files: seq<Utf16>, k: nat): Option<JobError>
    requires k <= |files|
    decreases |files| - k
  {
    if k == |files| then None
    else
      var e := FileError(h, files[k], files[..k]);
      if e.Some? then e else FilesError(h, files, k + 1)
  }

  function ProgramError(h: Platform, job: Job, requireExistingPaths: bool): Option<JobError> {
    if job.validation.None? then Some(NoValidation)
    else
      var v := job.validation.value;
      if IsBlank(v.program) then Some(NoProgram)
      else if !h.isRooted(v.program) then Some(RelativeProgram)
      else if requireExistingPaths && !h.fileExists(v.program) then Some(ProgramAbsent)
      else None
  }

  function LimitsError(job: Job): Option<JobError> {
    if job.validation.None? then None
    else
      var v := job.validation.value;
      if v.timeoutSeconds < 1 || v.timeoutSeconds > 3600 then Some(BadTimeout)
      else if job.maxAttempts < 1 || job.maxAttempts > 20 then Some(BadAttempts)
      else if IsBlank(job.model) then Some(NoModel)
      else if !IsEffort(job.effort) then Some(BadEffort)
      else None
  }

  function OrchestratorError(job: Job): Option<JobError> {
    if IsBlank(job.orchestratorProvider) then None
    else if !IsProvider(job.orchestratorProvider) then Some(BadOrchestrator)
    else if IsBlank(job.orchestratorModel) || |job.orchestratorModel| > 200 then Some(BadOrchestratorModel)
    else if !IsEffort(job.orchestratorEffort) || IsBlank(job.orchestratorEffort) then Some(BadOrchestratorEffort)
    else None
  }

  function ReviewerError(job: Job): Option<JobError> {
    if !IsBlank(job.reviewerProvider) && !IsProvider(job.reviewerProvider) then Some(BadReviewer)
    else if job.reviewerProvider == Ascii("chatgpt") && IsBlank(job.reviewerModel) then Some(NoReviewerModel)
    else if !IsBlank(job.reviewerModel) && |job.reviewerModel| > 200 then Some(LongReviewerModel)
    else None
  }

  function LastError(h: Platform, job: Job): Option<JobError> {
    if !IsEffort(job.reviewerEffort) then Some(BadReviewerEffort)
    else if !h.isLoopbackEndpoint(job.endpoint) then Some(BadEndpoint)
    else None
  }

  function SettingsError(h: Platform, job: Job, requireExistingPaths: bool): Option<JobError> {
    var program := ProgramError(h, job, requireExistingPaths);
    if program.Some? then program
    else if LimitsError(job).Some? then LimitsError(job)
    else if OrchestratorError(job).Some? then OrchestratorError(job)
    else if ReviewerError(job).Some? then ReviewerError(job)
    else LastError(h, job)
  }

  function HeadError(h: Platform, job: Job, requireExistingPaths: bool): Option<JobError> {
    if IsBlank(job.repository) then Some(NoRepository)
    else if !h.isRooted(job.repository) then Some(RelativeRepository)
    else if requireExistingPaths && !h.directoryExists(job.repository) then Some(RepositoryAbsent)
    else if IsBlank(job.specification) then Some(NoSpecification)
    else if job.allowedFiles.None? || job.allowedFiles.value == [] then Some(NoFiles)
    else None
  }

  /** The first error, in the order the checks are made. */
  function JobErrorOf(h: Platform, job: Job, requireExistingPaths: bool): Option<JobError> {
    var head := HeadError(h, job, requireExistingPaths);
    if head.Some? then head
    else
      var files := FilesError(h, job.allowedFiles.value, 0);
      if files.Some? then files else SettingsError(h, job, requireExistingPaths)
  }

  predicate IsArgument(a: Utf16) {
    a != [] && CARRIAGE_RETURN !in a && LINE_FEED !in a
  }

  function ArgumentError(a: Utf16): Option<JobError> {
    if a == [] then Some(EmptyArgument) else if !IsArgument(a) then Some(ArgumentLineBreak) else None
  }

  function ArgumentsError(arguments: seq<Utf16>): Option<JobError> {
    if arguments == [] then None
    else if ArgumentError(arguments[0]).Some? then ArgumentError(arguments[0])
    else ArgumentsError(arguments[1..])
  }

  function FormErrorOf(h: Platform, job: Option<Job>, requireExistingPaths: bool): Option<JobError> {
    if job.None? then Some(Missing)
    else
      var e := JobErrorOf(h, job.value, requireExistingPaths);
      if e.Some? || job.value.validation.value.arguments.None? then e
      else ArgumentsError(job.value.validation.value.arguments.value)
  }

  method Validate(h: Platform, job: Option<Job>, requireExistingPaths: bool) returns (error: Option<JobError>)
    ensures error == if job.None? then Some(Missing) else JobErrorOf(h, job.value, requireExistingPaths)
  {
    if job.None? {
      return Some(Missing);
    }
    error := HeadError(h, job.value, requireExistingPaths);
    if error.Some? {
      return;
    }
    var files := job.value.allowedFiles.value;
    var seen := [];
    for k := 0 to |files|
      invariant seen == files[..k]
      invariant FilesError(h, files, 0) == FilesError(h, files, k)
    {
      error := FileError(h, files[k], seen);
      if error.Some? {
        return;
      }
      seen := seen + [files[k]];
    }
    error := SettingsError(h, job.value, requireExistingPaths);
  }

  method ValidateForForm(h: Platform, job: Option<Job>, requireExistingPaths: bool) returns (error: Option<JobError>)
    ensures error == FormErrorOf(h, job, requireExistingPaths)
  {
    error := Validate(h, job, requireExistingPaths);
    if error.Some? || job.value.validation.value.arguments.None? {
      return;
    }
    var arguments := job.value.validation.value.arguments.value;
    for k := 0 to |arguments|
      invariant ArgumentsError(arguments) == ArgumentsError(arguments[k..])
    {
      assert arguments[k..][1..] == arguments[k + 1..];
      if ArgumentError(arguments[k]).Some? {
        return ArgumentError(arguments[k]);
      }
    }
  }

  /** The files are accepted exactly when each is a normalized relative path outside .git and no two
      are the same but for case. */
  lemma {:induction false} FilesAccepted(h: Platform, files: seq<Utf16>, k: nat)
    requires k <= |files|
    ensures FilesError(h, files, k).None? <==>
      && (forall i :: k <= i < |files| ==> FileError(h, files[i], []).None?)
      && (forall i, j :: 0 <= i < j < |files| && k <= j ==> !SameFold(h.fold, files[i], files[j]))
    decreases |files| - k
  {
    if k < |files| {
      FilesAccepted(h, files, k + 1);
      assert !Seen(h, [], files[k]);
      assert Seen(h, files[..k], files[k]) <==> exists i :: 0 <= i < k && SameFold(h.fold, files[i], files[k]) by {
        assert forall i :: 0 <= i < k ==> files[..k][i] == files[i];
      }
      assert FileError(h, files[k], files[..k]).None? <==> FileError(h, files[k], []).None? && !Seen(h, files[..k], files[k]);
    }
  }

  lemma {:induction false} ArgumentsAccepted(arguments: seq<Utf16>)
    ensures ArgumentsError(arguments).None? <==> forall i :: 0 <= i < |arguments| ==> IsArgument(arguments[i])
  {
    if arguments != [] {
      ArgumentsAccepted(arguments[1..]);
      assert forall i :: 1 <= i < |arguments| ==> arguments[i] == arguments[1..][i - 1];
    }
  }

  /** An allowed file on its own. */
  lemma FileAccepted(h: Platform, item: Utf16)
    ensures FileError(h, item, []).None? <==>
      && item != [] && !h.isRooted(item) && COLON !in item && BACKSLASH !in item
      && (forall part :: part in Split(item, SLASH) ==> part != [] && part != Ascii(".") && part != Ascii(".."))
      && !SameFold(h.fold, Split(item, SLASH)[0], Ascii(".git"))
  {
    var parts := Split(item, SLASH);
    assert !Seen(h, [], item);
    if forall part :: part in parts ==> IsStep(part) {
      assert forall i :: 0 <= i < |parts| ==> parts[i] in parts;
    }
    assert forall part :: part in parts ==> (IsStep(part) <==> part != [] && part != Ascii(".") && part != Ascii(".."));
  }

  predicate ListedEffort(s: Utf16) {
    s == Ascii("none") || s == Ascii("minimal") || s == Ascii("low") || s == Ascii("medium") || s == Ascii("high")
    || s == Ascii("xhigh") || s == Ascii("max") || s == Ascii("ultra")
  }

  /** What is wrong with a job, one fault at a time; files and arguments have their own lemmas. */
  predicate Fails(h: Platform, job: Job, requireExistingPaths: bool, error: JobError) {
    match error
    case NoRepository => IsBlank(job.repository)
    case RelativeRepository => !h.isRooted(job.repository)
    case RepositoryAbsent => requireExistingPaths && !h.directoryExists(job.repository)
    case NoSpecification => IsBlank(job.specification)
    case NoFiles => job.allowedFiles == None || job.allowedFiles == Some([])
    case NoValidation => job.validation.None?
    case NoProgram => job.validation.Some? && IsBlank(job.validation.value.program)
    case RelativeProgram => job.validation.Some? && !h.isRooted(job.validation.value.program)
    case ProgramAbsent => job.validation.Some? && requireExistingPaths && !h.fileExists(job.validation.value.program)
    case BadTimeout => job.validation.Some? && !(1 <= job.validation.value.timeoutSeconds <= 3600)
    case BadAttempts => !(1 <= job.maxAttempts <= 20)
    case NoModel => IsBlank(job.model)
    case BadEffort => !IsBlank(job.effort) && !ListedEffort(job.effort)
    case BadOrchestrator => !IsBlank(job.orchestratorProvider) && job.orchestratorProvider != Ascii("local") && job.orchestratorProvider != Ascii("chatgpt")
    case BadOrchestratorModel =>
      !IsBlank(job.orchestratorProvider) && (IsBlank(job.orchestratorModel) || |job.orchestratorModel| > 200)
    case BadOrchestratorEffort => !IsBlank(job.orchestratorProvider) && !ListedEffort(job.orchestratorEffort)
    case BadReviewer => !IsBlank(job.reviewerProvider) && job.reviewerProvider != Ascii("local") && job.reviewerProvider != Ascii("chatgpt")
    case NoReviewerModel => job.reviewerProvider == Ascii("chatgpt") && IsBlank(job.reviewerModel)
    case LongReviewerModel => !IsBlank(job.reviewerModel) && |job.reviewerModel| > 200
    case BadReviewerEffort => !IsBlank(job.reviewerEffort) && !ListedEffort(job.reviewerEffort)
    case BadEndpoint => !h.isLoopbackEndpoint(job.endpoint)
    case _ => false
  }

  /** The place of each fault in the order they are looked for; 0 for those of files and arguments. */
  function Rank(error: JobError): nat {
    match error
    case NoRepository => 1 case RelativeRepository => 2 case RepositoryAbsent => 3 case NoSpecification => 4
    case NoFiles => 5 case NoValidation => 11 case NoProgram => 12 case RelativeProgram => 13
    case ProgramAbsent => 14 case BadTimeout => 15 case BadAttempts => 16 case NoModel => 17 case BadEffort => 18
    case BadOrchestrator => 19 case BadOrchestratorModel => 20 case BadOrchestratorEffort => 21 case BadReviewer => 22
    case NoReviewerModel => 23 case LongReviewerModel => 24 case BadReviewerEffort => 25 case BadEndpoint => 26
    case _ => 0
  }

  /** The fault is there, and none that is looked for before it from `low` on. */
  ghost predicate IsFirst(h: Platform, job: Job, requireExistingPaths: bool, low: nat, error: JobError) {
    && low <= Rank(error) && Fails(h, job, requireExistingPaths, error)
    && forall e :: low <= Rank(e) < Rank(error) ==> !Fails(h, job, requireExistingPaths, e)
  }

  ghost predicate NoFault(h: Platform, job: Job, requireExistingPaths: bool, low: nat, high: nat) {
    forall e :: low <= Rank(e) <= high ==> !Fails(h, job, requireExistingPaths, e)
  }

  lemma WordIsNotBlank(word: string)
    requires word != [] && forall i :: 0 <= i < |word| ==> 'a' <= word[i] <= 'z'
    ensures !IsBlank(Ascii(word))
  {
    assert !IsWhite(Ascii(word)[0]);
  }

  lemma EffortIsListed(s: Utf16)
    ensures IsEffort(s) <==> IsBlank(s) || ListedEffort(s)
    ensures IsBlank(s) ==> !ListedEffort(s)
  {
    WordIsNotBlank("none");
    WordIsNotBlank("minimal");
    WordIsNotBlank("low");
    WordIsNotBlank("medium");
    WordIsNotBlank("high");
    WordIsNotBlank("xhigh");
    WordIsNotBlank("max");
    WordIsNotBlank("ultra");
  }

  /** Validation reports the first fault before the files are looked at, if there is one. */
  lemma HeadFaults(h: Platform, job: Job, requireExistingPaths: bool)
    ensures var error := HeadError(h, job, requireExistingPaths);
      if error.Some? then IsFirst(h, job, requireExistingPaths, 1, error.value) && Rank(error.value) <= 5
      else NoFault(h, job, requireExistingPaths, 1, 5)
  {
  }

  lemma ProgramFaults(h: Platform, job: Job, requireExistingPaths: bool)
    ensures var error := ProgramError(h, job, requireExistingPaths);
      if error.Some? then IsFirst(h, job, requireExistingPaths, 11, error.value)
      else NoFault(h, job, requireExistingPaths, 11, 14)
  {
  }

  lemma LimitsFaults(h: Platform, job: Job, requireExistingPaths: bool)
    requires job.validation.Some?
    ensures var error := LimitsError(job);
      if error.Some? then IsFirst(h, job, requireExistingPaths, 15, error.value)
      else NoFault(h, job, requireExistingPaths, 15, 18)
  {
    EffortIsListed(job.effort);
  }

  lemma OrchestratorFaults(h: Platform, job: Job, requireExistingPaths: bool)
    ensures var error := OrchestratorError(job);
      if error.Some? then IsFirst(h, job, requireExistingPaths, 19, error.value)
      else NoFault(h, job, requireExistingPaths, 19, 21)
  {
    EffortIsListed(job.orchestratorEffort);
    match OrchestratorError(job)
    case None =>
    case Some(error) => assert error == BadOrchestrator || error == BadOrchestratorModel || error == BadOrchestratorEffort;
  }

  lemma ReviewerFaults(h: Platform, job: Job, requireExistingPaths: bool)
    ensures var error := ReviewerError(job);
      if error.Some? then IsFirst(h, job, requireExistingPaths, 22, error.value)
      else NoFault(h, job, requireExistingPaths, 22, 24)
  {
  }

  lemma LastFaults(h: Platform, job: Job, requireExistingPaths: bool)
    ensures var error := LastError(h, job);
      if error.Some? then IsFirst(h, job, requireExistingPaths, 25, error.value)
      else NoFault(h, job, requireExistingPaths, 25, 26)
  {
    EffortIsListed(job.reviewerEffort);
  }

  lemma FirstAfter(h: Platform, job: Job, requireExistingPaths: bool, middle: nat, error: JobError)
    requires middle >= 11 && NoFault(h, job, requireExistingPaths, 11, middle - 1)
    requires IsFirst(h, job, requireExistingPaths, middle, error)
    ensures IsFirst(h, job, requireExistingPaths, 11, error)
  {
  }

  /** And the first after the files, if there is one. */
  lemma SettingsFaults(h: Platform, job: Job, requireExistingPaths: bool)
    ensures var error := SettingsError(h, job, requireExistingPaths);
      if error.Some? then IsFirst(h, job, requireExistingPaths, 11, error.value)
      else NoFault(h, job, requireExistingPaths, 11, 26)
  {
    ProgramFaults(h, job, requireExistingPaths);
    if ProgramError(h, job, requireExistingPaths).None? {
      LimitsFaults(h, job, requireExistingPaths);
      OrchestratorFaults(h, job, requireExistingPaths);
      ReviewerFaults(h, job, requireExistingPaths);
      LastFaults(h, job, requireExistingPaths);
      if LimitsError(job).Some? {
        FirstAfter(h, job, requireExistingPaths, 15, LimitsError(job).value);
      } else if OrchestratorError(job).Some? {
        FirstAfter(h, job, requireExistingPaths, 19, OrchestratorError(job).value);
      } else if ReviewerError(job).Some? {
        FirstAfter(h, job, requireExistingPaths, 22, ReviewerError(job).value);
      } else if LastError(h, job).Some? {
        FirstAfter(h, job, requireExistingPaths, 25, LastError(h, job).value);
      }
    }
  }

  function FilesOf(job: Job): seq<Utf16> {
    if job.allowedFiles.Some? then job.allowedFiles.value else []
  }

  function ArgumentsOf(job: Job): seq<Utf16> {
    if job.validation.Some? && job.validation.value.arguments.Some? then job.validation.value.arguments.value else []
  }

  /** A job is accepted exactly when it has no fault of this list, every file is a normalized relative path
      outside .git, no two are the same but for case, and no argument is empty or broken over lines. */
  lemma AcceptedExactly(h: Platform, job: Job, requireExistingPaths: bool)
    ensures FormErrorOf(h, Some(job), requireExistingPaths).None? <==>
      && NoFault(h, job, requireExistingPaths, 1, 26)
      && (forall i :: 0 <= i < |FilesOf(job)| ==> FileError(h, FilesOf(job)[i], []).None?)
      && (forall i, j :: 0 <= i < j < |FilesOf(job)| ==> !SameFold(h.fold, FilesOf(job)[i], FilesOf(job)[j]))
      && (forall i :: 0 <= i < |ArgumentsOf(job)| ==> IsArgument(ArgumentsOf(job)[i]))
  {
    HeadFaults(h, job, requireExistingPaths);
    SettingsFaults(h, job, requireExistingPaths);
    FilesAccepted(h, FilesOf(job), 0);
    ArgumentsAccepted(ArgumentsOf(job));
    RanksSplit(h, job, requireExistingPaths);
  }

  lemma RanksSplit(h: Platform, job: Job, requireExistingPaths: bool)
    ensures NoFault(h, job, requireExistingPaths, 1, 26)
       <==> NoFault(h, job, requireExistingPaths, 1, 5) && NoFault(h, job, requireExistingPaths, 11, 26)
  {
    if NoFault(h, job, requireExistingPaths, 1, 5) && NoFault(h, job, requireExistingPaths, 11, 26) {
      forall e | 1 <= Rank(e) <= 26
        ensures !Fails(h, job, requireExistingPaths, e)
      {
        assert Rank(e) <= 5 || Rank(e) >= 11;
      }
    }
  }

  /** A job accepted with its paths checked is accepted without, and the difference is exactly that its
      repository and program exist. */
  lemma CheckedExactly(h: Platform, job: Option<Job>)
    ensures FormErrorOf(h, job, true).None? <==>
      && FormErrorOf(h, job, false).None?
      && h.directoryExists(job.value.repository) && h.fileExists(job.value.validation.value.program)
  {
  }
}
