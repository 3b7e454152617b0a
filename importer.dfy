/**
 * The per-unit import handle of submission/automation.py (class Importer).
 *
 * An importer wraps one pipeline built by a registered builder. Every failure of
 * the builder, of the checksum comparison or of the run is absorbed into one of
 * four error slots; only an unregistered importer type is refused outright.
 *
 * The pipeline, its transferer and the exceptions they raise are outside the
 * model: what each of them did on one call is an outcome value handed to the
 * operation that made the call.
 */
module Importing {
  import opened Wrappers

  /** The registered importer types (automation.py:11-15). */
  datatype Kind = Montage | BuildEvents | BuildEphys | ConvertEvents | ConvertEphys

  /** The integer constant each kind is registered under. */
  function KindCode(k: Kind): int
  {
    match k
    case Montage => 1
    case BuildEvents => 2
    case BuildEphys => 3
    case ConvertEvents => 4
    case ConvertEphys => 5
  }

  /** Lookup of a type code in PIPELINE_BUILDERS: the registered kind, if any. */
  function KindOfCode(code: int): (k: Option<Kind>)
    ensures k.Some? <==> 1 <= code <= 5
    ensures k.Some? ==> KindCode(k.value) == code
  {
    if code == 1 then Some(Montage)
    else if code == 2 then Some(BuildEvents)
    else if code == 3 then Some(BuildEphys)
    else if code == 4 then Some(ConvertEvents)
    else if code == 5 then Some(ConvertEphys)
    else None
  }

  /** The display label of each kind (LABELS). */
  function Label(k: Kind): string
  {
    match k
    case Montage => "Montage Importer"
    case BuildEvents => "Events Builder"
    case BuildEphys => "Ephys Builder"
    case ConvertEvents => "Events Converter"
    case ConvertEphys => "Ephys Converter"
  }

  /**
   * An exception held in an error slot: one raised by a collaborator, the
   * AttributeError of calling into a pipeline or transferer that is None, or
   * the refusal of an unregistered type.
   */
  datatype Error =
    | Raised(message: string)
    | NoneAttribute(attribute: string)
    | UnknownType(code: int)

  /** The keys of the `errors` dictionary. */
  datatype Stage = Init | Check | Transfer | Processing

  /** The `errors` dictionary: always exactly the four stage slots. */
  datatype Errors = Errors(init: Option<Error>, check: Option<Error>,
                           transfer: Option<Error>, processing: Option<Error>)
  {
    function Get(stage: Stage): Option<Error>
    {
      match stage
      case Init => init
      case Check => check
      case Transfer => transfer
      case Processing => processing
    }

    /** `errors[stage] = e`: exactly that slot now holds `e`. */
    function Set(stage: Stage, e: Error): (r: Errors)
      ensures r.Get(stage) == Some(e)
      ensures forall other :: other != stage ==> r.Get(other) == Get(other)
    {
      match stage
      case Init => this.(init := Some(e))
      case Check => this.(check := Some(e))
      case Transfer => this.(transfer := Some(e))
      case Processing => this.(processing := Some(e))
    }

    predicate AnySet()
    {
      init.Some? || check.Some? || transfer.Some? || processing.Some?
    }
  }

  const NoErrors := Errors(None, None, None, None)

  /** What the registered builder did when asked for a pipeline. */
  datatype BuildOutcome = Built | BuildFailed(error: Error)

  /** What `transferer.check_checksums()` did on one call. */
  datatype ChecksumOutcome = Changed(changed: bool) | ChecksumFailed(error: Error)

  /** How `pipeline.run()` ended on one call. */
  datatype RunOutcome =
    | Completed
    | UnTransferrable(error: Error)
    | RunFailed(error: Error)

  /** The keyword arguments an importer is built with. */
  datatype Params =
    | MontageParams(subject: string, montage: string, protocol: string, code: string)
    | EventParams(subject: string, montage: string, experiment: string, session: int,
                  newExperiment: string, originalSession: int, doMath: bool,
                  protocol: string, code: string, doCompare: bool)

  /** Everything an importer holds, as a value. */
  datatype ImporterState = ImporterState(
    kind: Kind,
    params: Params,
    initialized: bool,
    errors: Errors,
    errored: bool,
    shouldTransfer: Option<bool>,
    processed: bool,
    transferred: bool)
  {
    /**
     * What every operation keeps: `errored` is set exactly when some slot is,
     * an importer whose builder failed holds an init error, and `processed`
     * and `transferred` are only ever set together.
     */
    predicate Valid()
    {
      && errored == errors.AnySet()
      && (!initialized ==> errors.init.Some?)
      && processed == transferred
    }

    /** set_error (automation.py:107-109). */
    function WithError(stage: Stage, e: Error): (t: ImporterState)
      ensures t.errors.Get(stage) == Some(e) && t.errored
      ensures forall other :: other != stage ==> t.errors.Get(other) == errors.Get(other)
      ensures t.shouldTransfer == shouldTransfer && t.processed == processed
      ensures t.transferred == transferred && t.initialized == initialized
      ensures Valid() ==> t.Valid()
    {
      this.(errors := errors.Set(stage, e), errored := true)
    }

    /**
     * check() (automation.py:117-123): the answer of the transferer is stored;
     * a failure, or a missing transferer, records a check error and stores False.
     */
    function Checked(answer: ChecksumOutcome): (t: ImporterState)
      ensures Valid() ==> t.Valid()
      ensures t.shouldTransfer.Some?
      ensures initialized && answer.Changed? ==>
                t == this.(shouldTransfer := Some(answer.changed))
      ensures !(initialized && answer.Changed?) ==>
                && t.shouldTransfer == Some(false)
                && t.errors.check == Some(if initialized then answer.error else NoneAttribute("check_checksums"))
                && t.errored
                && (forall other :: other != Check ==> t.errors.Get(other) == errors.Get(other))
      ensures t.kind == kind && t.params == params && t.initialized == initialized
      ensures t.processed == processed && t.transferred == transferred
    {
      if initialized && answer.Changed? then
        this.(shouldTransfer := Some(answer.changed))
      else
        var e := if initialized then answer.error else NoneAttribute("check_checksums");
        WithError(Check, e).(shouldTransfer := Some(false))
    }

    /**
     * The should_transfer property (automation.py:111-115): runs check() only
     * for an initialised importer that has not been checked yet.
     */
    function Accessed(answer: ChecksumOutcome): (t: ImporterState)
      ensures Valid() ==> t.Valid()
      ensures initialized ==> t.shouldTransfer.Some?
      ensures initialized && shouldTransfer.None? ==> t == Checked(answer)
      ensures shouldTransfer.Some? || !initialized ==> t == this
    {
      if initialized && shouldTransfer.None? then Checked(answer) else this
    }

    /**
     * run() (automation.py:125-133). Success sets both flags and no slot;
     * UnTransferrable fills only the transfer slot; any other failure, the
     * AttributeError of a missing pipeline included, only the processing slot.
     */
    function Ran(outcome: RunOutcome): (t: ImporterState)
      ensures Valid() ==> t.Valid()
      ensures t.kind == kind && t.params == params && t.initialized == initialized
      ensures t.shouldTransfer == shouldTransfer
      ensures initialized && outcome.Completed? ==>
                t.processed && t.transferred && t.errors == errors && t.errored == errored
      ensures initialized && outcome.UnTransferrable? ==>
                && t.errors.transfer == Some(outcome.error) && t.errored
                && (forall other :: other != Transfer ==> t.errors.Get(other) == errors.Get(other))
                && t.processed == processed && t.transferred == transferred
      ensures !initialized || outcome.RunFailed? ==>
                && t.errors.processing == Some(if !initialized then NoneAttribute("run") else outcome.error)
                && t.errored
                && (forall other :: other != Processing ==> t.errors.Get(other) == errors.Get(other))
                && t.processed == processed && t.transferred == transferred
    {
      if !initialized then WithError(Processing, NoneAttribute("run"))
      else
        match outcome
        case Completed => this.(processed := true, transferred := true)
        case UnTransferrable(e) => WithError(Transfer, e)
        case RunFailed(e) => WithError(Processing, e)
    }
  }

  /**
   * A freshly constructed importer (automation.py:35-52): no error, unknown
   * transfer decision, nothing run; a failing builder leaves it uninitialised
   * with only the init slot set.
   */
  function Initial(kind: Kind, params: Params, build: BuildOutcome): (s: ImporterState)
    ensures s.Valid() && s.kind == kind && s.params == params
    ensures s.shouldTransfer.None? && !s.processed && !s.transferred
    ensures build.Built? ==> s.initialized && s.errors == NoErrors && !s.errored
    ensures build.BuildFailed? ==>
              && !s.initialized && s.errored
              && s.errors.init == Some(build.error)
              && s.errors.check.None? && s.errors.transfer.None? && s.errors.processing.None?
  {
    match build
    case Built => ImporterState(kind, params, true, NoErrors, false, None, false, false)
    case BuildFailed(e) => ImporterState(kind, params, false, NoErrors.Set(Init, e), true, None, false, false)
  }

  /** The transfer-status line of describe() (automation.py:65-77). */
  datatype TransferStatus =
    | NecessaryFailed
    | NecessaryIncomplete
    | TransferComplete
    | ChecksumError
    | NotNecessary

  /** The processed-status line of describe() (automation.py:79-87). */
  datatype ProcessedStatus = ProcessingFailed | ProcessingIncomplete | ProcessingComplete

  /** One line of describe_errors(). */
  datatype StageError = StageError(stage: Stage, error: Error)

  /** What describe() reports, without its text formatting. */
  datatype Description = Description(
    kindLabel: string,
    params: Params,
    initialized: bool,
    transfer: TransferStatus,
    processedStatus: Option<ProcessedStatus>,
    errorLines: seq<StageError>)

  /**
   * The transfer-status branch, read after the should_transfer property has
   * been evaluated; an unknown decision (None) is falsy like False.
   */
  function TransferStatusOf(s: ImporterState): (r: TransferStatus)
    ensures r == TransferComplete <==>
              s.shouldTransfer == Some(true) && s.errors.transfer.None? && s.transferred
    ensures r == NecessaryFailed <==> s.shouldTransfer == Some(true) && s.errors.transfer.Some?
    ensures r == ChecksumError <==> s.shouldTransfer != Some(true) && s.errors.check.Some?
    ensures r == NotNecessary <==> s.shouldTransfer != Some(true) && s.errors.check.None?
  {
    if s.shouldTransfer == Some(true) then
      if s.errors.transfer.Some? then NecessaryFailed
      else if !s.transferred then NecessaryIncomplete
      else TransferComplete
    else if s.errors.check.Some? then ChecksumError
    else NotNecessary
  }

  function StageRank(stage: Stage): nat
  {
    match stage
    case Init => 0
    case Check => 1
    case Transfer => 2
    case Processing => 3
  }

  /**
   * describe_errors() (automation.py:95-105): one line per filled slot, in the
   * order init, check, transfer, processing.
   */
  function ErrorLines(errors: Errors): (lines: seq<StageError>)
    ensures forall i :: 0 <= i < |lines| ==> errors.Get(lines[i].stage) == Some(lines[i].error)
    ensures forall stage :: errors.Get(stage).Some? ==> StageError(stage, errors.Get(stage).value) in lines
    ensures forall i, j :: 0 <= i < j < |lines| ==> StageRank(lines[i].stage) < StageRank(lines[j].stage)
    ensures lines == [] <==> !errors.AnySet()
  {
    var lines := LineFor(Init, errors.init) + LineFor(Check, errors.check)
                 + LineFor(Transfer, errors.transfer) + LineFor(Processing, errors.processing);
    SlotLines(errors, lines);
    SlotLinesOrdered(errors, lines);
    lines
  }

  lemma SlotLines(errors: Errors, lines: seq<StageError>)
    requires lines == LineFor(Init, errors.init) + LineFor(Check, errors.check)
                      + LineFor(Transfer, errors.transfer) + LineFor(Processing, errors.processing)
    ensures forall i :: 0 <= i < |lines| ==> errors.Get(lines[i].stage) == Some(lines[i].error)
    ensures forall stage :: errors.Get(stage).Some? ==> StageError(stage, errors.Get(stage).value) in lines
    ensures lines == [] <==> !errors.AnySet()
  {
    forall stage | errors.Get(stage).Some?
      ensures StageError(stage, errors.Get(stage).value) in lines
    {
      assert StageError(stage, errors.Get(stage).value) in LineFor(stage, errors.Get(stage));
    }
  }

  lemma SlotLinesOrdered(errors: Errors, lines: seq<StageError>)
    requires lines == LineFor(Init, errors.init) + LineFor(Check, errors.check)
                      + LineFor(Transfer, errors.transfer) + LineFor(Processing, errors.processing)
    ensures forall i, j :: 0 <= i < j < |lines| ==> StageRank(lines[i].stage) < StageRank(lines[j].stage)
  {
  }

  function LineFor(stage: Stage, slot: Option<Error>): seq<StageError>
  {
    if slot.Some? then [StageError(stage, slot.value)] else []
  }

  /**
   * describe() of an importer whose should_transfer property has been read:
   * the processed line only once transferred, the error lines only when errored.
   */
  function DescriptionOf(s: ImporterState): (d: Description)
    ensures d.initialized == s.initialized && d.transfer == TransferStatusOf(s)
    ensures d.processedStatus.Some? <==> s.transferred
    ensures d.processedStatus == Some(ProcessingFailed) <==> s.transferred && s.errors.processing.Some?
    ensures d.errorLines == (if s.errored then ErrorLines(s.errors) else [])
  {
    var processed :=
      if !s.transferred then None
      else if s.errors.processing.Some? then Some(ProcessingFailed)
      else if !s.processed then Some(ProcessingIncomplete)
      else Some(ProcessingComplete);
    Description(Label(s.kind), s.params, s.initialized, TransferStatusOf(s), processed,
                if s.errored then ErrorLines(s.errors) else [])
  }

  /** The importer class (automation.py:9-133). */
  class Importer {
    const kind: Kind
    const kindLabel: string
    const params: Params
    const subject: string
    /** Whether the builder succeeded; the pipeline and transferer exist exactly then. */
    const initialized: bool
    var errors: Errors
    var errored: bool
    var shouldTransfer: Option<bool>
    var processed: bool
    var transferred: bool

    function State(): ImporterState
      reads this
    {
      ImporterState(kind, params, initialized, errors, errored, shouldTransfer, processed, transferred)
    }

    ghost predicate Valid()
      reads this
    {
      State().Valid() && kindLabel == Label(kind) && subject == params.subject
    }

    /** __init__ for a registered kind (automation.py:35-52). */
    constructor (kind: Kind, params: Params, build: BuildOutcome)
      ensures Valid() && State() == Initial(kind, params, build)
    {
      this.kind := kind;
      this.kindLabel := Label(kind);
      this.params := params;
      this.subject := params.subject;
      shouldTransfer := None;
      processed := false;
      transferred := false;
      match build
      case Built =>
        initialized := true;
        errors := NoErrors;
        errored := false;
      case BuildFailed(e) =>
        initialized := false;
        errors := NoErrors.Set(Init, e);
        errored := true;
    }

    method SetError(stage: Stage, e: Error)
      requires Valid()
      modifies this
      ensures Valid() && State() == old(State()).WithError(stage, e)
    {
      errors := errors.Set(stage, e);
      errored := true;
    }

    /** check(): `answer` is what the transferer's check_checksums() did on this call. */
    method Check(answer: ChecksumOutcome) returns (r: bool)
      requires Valid()
      modifies this
      ensures Valid() && State() == old(State()).Checked(answer)
      ensures shouldTransfer == Some(r)
    {
      if initialized && answer.Changed? {
        shouldTransfer := Some(answer.changed);
      } else {
        var e := if initialized then answer.error else NoneAttribute("check_checksums");
        SetError(Stage.Check, e);
        shouldTransfer := Some(false);
      }
      r := shouldTransfer.value;
    }

    /** The should_transfer property; `answer` is used only if it calls check(). */
    method ShouldTransfer(answer: ChecksumOutcome) returns (r: Option<bool>)
      requires Valid()
      modifies this
      ensures Valid() && State() == old(State()).Accessed(answer)
      ensures r == shouldTransfer
    {
      if initialized && shouldTransfer.None? {
        var _ := Check(answer);
      }
      r := shouldTransfer;
    }

    /** run(): `outcome` is how the pipeline's run() ended on this call. */
    method Run(outcome: RunOutcome)
      requires Valid()
      modifies this
      ensures Valid() && State() == old(State()).Ran(outcome)
    {
      if !initialized {
        SetError(Processing, NoneAttribute("run"));
      } else {
        match outcome
        case Completed =>
          processed := true;
          transferred := true;
        case UnTransferrable(e) =>
          SetError(Transfer, e);
        case RunFailed(e) =>
          SetError(Processing, e);
      }
    }

    /** describe(): reads the should_transfer property first, which may run check(). */
    method Describe(answer: ChecksumOutcome) returns (d: Description)
      requires Valid()
      modifies this
      ensures Valid() && State() == old(State()).Accessed(answer)
      ensures d == DescriptionOf(State())
    {
      var _ := ShouldTransfer(answer);
      d := DescriptionOf(State());
    }
  }

  /**
   * `Importer(type, **kwargs)` for an integer type code: an unregistered code
   * raises before anything is built (automation.py:33-34); a registered one
   * never raises, whatever the builder does.
   */
  method NewImporter(code: int, params: Params, build: BuildOutcome) returns (r: Result<Importer, Error>)
    ensures r.Failure? <==> KindOfCode(code).None?
    ensures r.Failure? ==> r.error == UnknownType(code)
    ensures r.Success? ==> fresh(r.value) && r.value.Valid()
                           && r.value.State() == Initial(KindOfCode(code).value, params, build)
  {
    var k := KindOfCode(code);
    if k.None? {
      return Failure(UnknownType(code));
    }
    var imp := new Importer(k.value, params, build);
    r := Success(imp);
  }

  /** One call on an importer, for reasoning about sequences of calls. */
  datatype Call =
    | SetErrorCall(stage: Stage, e: Error)
    | CheckCall(answer: ChecksumOutcome)
    | ShouldTransferCall(answer: ChecksumOutcome)
    | RunCall(outcome: RunOutcome)

  function Apply(s: ImporterState, call: Call): ImporterState
  {
    match call
    case SetErrorCall(stage, e) => s.WithError(stage, e)
    case CheckCall(answer) => s.Checked(answer)
    case ShouldTransferCall(answer) => s.Accessed(answer)
    case RunCall(outcome) => s.Ran(outcome)
  }

  function ApplyAll(s: ImporterState, calls: seq<Call>): ImporterState
    decreases |calls|
  {
    if calls == [] then s else ApplyAll(Apply(s, calls[0]), calls[1..])
  }

  /**
   * Whatever calls follow, the invariants hold, identity does not change, a
   * filled error slot stays filled, and so `errored` is never reset.
   */
  lemma {:induction false} ErrorsAreSticky(s: ImporterState, calls: seq<Call>)
    requires s.Valid()
    ensures ApplyAll(s, calls).Valid()
    ensures ApplyAll(s, calls).kind == s.kind && ApplyAll(s, calls).params == s.params
    ensures ApplyAll(s, calls).initialized == s.initialized
    ensures forall stage :: s.errors.Get(stage).Some? ==> ApplyAll(s, calls).errors.Get(stage).Some?
    ensures s.errored ==> ApplyAll(s, calls).errored
    decreases |calls|
  {
    if calls != [] {
      var t := Apply(s, calls[0]);
      assert forall stage :: s.errors.Get(stage).Some? ==> t.errors.Get(stage).Some?;
      ErrorsAreSticky(t, calls[1..]);
    }
  }

  /**
   * The lazy accessor runs check() at most once: once it has produced a
   * decision, later reads change nothing, whatever the transferer would answer.
   */
  lemma AccessorMemoises(s: ImporterState, first: ChecksumOutcome, later: ChecksumOutcome)
    ensures s.Accessed(first).Accessed(later) == s.Accessed(first)
  {
  }

  /** An explicit check() always recomputes, even over a memoised decision. */
  lemma RecheckOverwrites(s: ImporterState, answer: ChecksumOutcome)
    requires s.initialized && s.shouldTransfer.Some? && answer.Changed?
    ensures s.Checked(answer).shouldTransfer == Some(answer.changed)
  {
  }

  /**
   * One check() never leaves a True decision beside a check error it raised
   * itself; a True decision comes only from an initialised importer whose
   * transferer answered True.
   */
  lemma CheckNeverTrueOnFailure(s: ImporterState, answer: ChecksumOutcome)
    requires s.errors.check.None?
    ensures s.Checked(answer).shouldTransfer == Some(true) ==>
              s.Checked(answer).errors.check.None? && s.initialized && answer == Changed(true)
    ensures s.Checked(answer).errors.check.Some? ==> s.Checked(answer).shouldTransfer == Some(false)
  {
  }

  /**
   * Across two checks the code does let a True decision sit beside an earlier
   * check error: the slot is never cleared.
   */
  lemma RecheckKeepsOldCheckError(p: Params, e: Error)
    ensures var s := Initial(BuildEvents, p, Built).Checked(ChecksumFailed(e)).Checked(Changed(true));
            s.shouldTransfer == Some(true) && s.errors.check == Some(e)
  {
  }

  /** What describe() reports after each kind of check and run. */
  lemma StatusAfterCheckAndRun(s: ImporterState, answer: ChecksumOutcome, outcome: RunOutcome)
    requires s.Valid() && s.initialized && s.errors.check.None? && s.errors.transfer.None?
    requires !s.transferred
    ensures answer.ChecksumFailed? ==> TransferStatusOf(s.Checked(answer)) == ChecksumError
    ensures answer == Changed(false) ==> TransferStatusOf(s.Checked(answer)) == NotNecessary
    ensures answer == Changed(true) ==>
              TransferStatusOf(s.Checked(answer)) == NecessaryIncomplete
              && (outcome.Completed? ==> TransferStatusOf(s.Checked(answer).Ran(outcome)) == TransferComplete)
              && (outcome.UnTransferrable? ==> TransferStatusOf(s.Checked(answer).Ran(outcome)) == NecessaryFailed)
              && (outcome.RunFailed? ==> TransferStatusOf(s.Checked(answer).Ran(outcome)) == NecessaryIncomplete)
  {
  }
}
