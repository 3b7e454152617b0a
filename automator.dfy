/**
 * The orchestrator of submission/automation.py (class Automator).
 *
 * It walks the protocol's index in three phases: existing sessions, keeping
 * at most one importer of the build-then-convert cascade per session;
 * montages, keeping those whose data changed or that failed; next sessions,
 * keeping those whose check answers True. It then runs every kept importer
 * and reports on them in triage order.
 *
 * The JSON index is represented by the answers of the queries the
 * orchestrator makes, and the pipeline builders, transferers and pipelines by
 * the outcome each of them gives for an importer kind and its arguments.
 */
module Automation {
  import opened Wrappers
  import opened PyCompare
  import opened Importing
  import opened ImportOrder

  /** MATH_TASKS (automation.py:142). */
  const MathTasks: seq<string> :=
    ["FR1", "FR2", "FR3", "catFR1", "catFR2", "catFR3", "PAL1", "PAL2", "PAL3", "ltpFR", "ltpFR2"]

  /** EXPERIMENTS (automation.py:137-141): one protocol name mapped to its experiments. */
  const Experiments: map<string, seq<string>> :=
    map["r1" := ["FR1", "FR2", "FR3", "catFR1", "catFR2", "catFR3",
                 "PAL1", "PAL2", "PAL3", "TH1", "TH2", "TH3", "PS1", "PS2", "PS3"]]

  /**
   * What `for experiment in self.EXPERIMENTS` visits: the keys of the
   * dictionary, so the protocol name 'r1' and not its experiments.
   */
  const FutureExperimentNames: seq<string> := ["r1"]

  /** The next-session phase visits every key of EXPERIMENTS once, and nothing else. */
  lemma FutureExperimentNamesAreKeys()
    ensures forall x :: x in FutureExperimentNames <==> x in Experiments
    ensures |FutureExperimentNames| == |Experiments.Keys|
    ensures "FR1" !in FutureExperimentNames
  {
  }

  /** INCLUDE_TRANSFERRED (automation.py:144). */
  const IncludeTransferred := false

  /** One (subject, montage) pair of the index with the subject alias looked up for it. */
  datatype MontageEntry = MontageEntry(subject: string, montage: string, code: string)

  /**
   * One (subject, experiment, session) triple as session_indexes yields it, with
   * the lookups build_existing_event_importer_kwargs makes on its sub-index:
   * the first montage, the subject alias and the optional remap values.
   */
  datatype SessionEntry = SessionEntry(
    subject: string,
    experiment: string,
    session: int,
    montage: string,
    code: string,
    originalSession: Option<int>,
    originalExperiment: Option<string>)

  /** One session recorded for a subject, with its optional remap values. */
  datatype SessionRecord = SessionRecord(
    experiment: string,
    montage: string,
    session: int,
    originalSession: Option<int>,
    originalExperiment: Option<string>)

  /** One subject of the index, with its montages and recorded sessions. */
  datatype SubjectEntry = SubjectEntry(subject: string, montages: seq<string>, sessions: seq<SessionRecord>)

  /**
   * The read-only index: the answers to the queries of the three phases, and
   * the subject-alias lookup for a (subject, montage) pair.
   */
  datatype Index = Index(
    montageEntries: seq<MontageEntry>,
    sessionEntries: seq<SessionEntry>,
    subjectEntries: seq<SubjectEntry>,
    alias: (string, string) -> string)

  /** Every subject of the index has at least one montage. */
  predicate WellFormed(index: Index)
  {
    forall i :: 0 <= i < |index.subjectEntries| ==> |index.subjectEntries[i].montages| > 0
  }

  /** What the builders, transferers and pipelines do for an importer kind and arguments. */
  datatype Collaborators = Collaborators(
    build: (Kind, Params) -> BuildOutcome,
    checksum: (Kind, Params) -> ChecksumOutcome,
    run: (Kind, Params) -> RunOutcome)

  /** A new importer after its check() call. */
  function CheckedImporter(env: Collaborators, kind: Kind, p: Params): (s: ImporterState)
    ensures s.Valid() && s.kind == kind && s.params == p && s.shouldTransfer.Some?
    ensures !s.processed && !s.transferred
    ensures s.shouldTransfer == Some(true) ==> !s.errored
  {
    Initial(kind, p, env.build(kind, p)).Checked(env.checksum(kind, p))
  }

  // ---------------------------------------------------------------------------
  // Phase: montages (automation.py:156-165)

  function MontageImporterFor(protocol: string, env: Collaborators, e: MontageEntry): (r: seq<ImporterState>)
    ensures |r| <= 1
    ensures r == [] <==> !IncludeTransferred && CheckedImporter(env, Montage, MontageParams(e.subject, e.montage, protocol, e.code)).shouldTransfer == Some(false)
                         && !CheckedImporter(env, Montage, MontageParams(e.subject, e.montage, protocol, e.code)).errored
    ensures r != [] ==> r[0] == CheckedImporter(env, Montage, MontageParams(e.subject, e.montage, protocol, e.code))
  {
    var s := CheckedImporter(env, Montage, MontageParams(e.subject, e.montage, protocol, e.code));
    if s.shouldTransfer.value || s.errored || IncludeTransferred then [s] else []
  }

  /** The importers add_existing_montage_importers appends, in order. */
  function MontagePlan(protocol: string, env: Collaborators, entries: seq<MontageEntry>): (r: seq<ImporterState>)
    ensures |r| <= |entries|
    decreases |entries|
  {
    if entries == [] then []
    else MontagePlan(protocol, env, entries[..|entries| - 1]) + MontageImporterFor(protocol, env, entries[|entries| - 1])
  }

  // ---------------------------------------------------------------------------
  // Phase: existing sessions (automation.py:179-216)

  /**
   * build_existing_event_importer_kwargs: the remap values default to the
   * session's own experiment and number.
   */
  function ExistingEventParams(protocol: string, e: SessionEntry): (p: Params)
  {
    EventParams(
      e.subject, e.montage,
      if e.originalExperiment.Some? then e.originalExperiment.value else e.experiment,
      e.session, e.experiment,
      if e.originalSession.Some? then e.originalSession.value else e.session,
      e.experiment in MathTasks, protocol, e.code, true)
  }

  /** The remap defaults of build_existing_event_importer_kwargs. */
  lemma ExistingEventParamsDefaults(protocol: string, e: SessionEntry)
    ensures ExistingEventParams(protocol, e).session == e.session
    ensures ExistingEventParams(protocol, e).newExperiment == e.experiment
    ensures e.originalSession.None? ==> ExistingEventParams(protocol, e).originalSession == e.session
    ensures e.originalExperiment.None? ==> ExistingEventParams(protocol, e).experiment == e.experiment
    ensures ExistingEventParams(protocol, e).doMath <==> e.experiment in MathTasks
  {
  }

  /**
   * The build-then-convert cascade for one session, branch for branch as
   * add_existing_events_importers writes it (including its unreachable branch).
   */
  function EventImporterFor(protocol: string, env: Collaborators, e: SessionEntry): seq<ImporterState>
  {
    var p := ExistingEventParams(protocol, e);
    var b := CheckedImporter(env, BuildEvents, p);
    if !b.shouldTransfer.value && !b.errored then []
    else if !b.errored then [b]
    else
      var c := CheckedImporter(env, ConvertEvents, p);
      if !c.shouldTransfer.value && !c.errored then []
      else if !b.errored then [b]
      else if !c.errored then [c]
      else [b]
  }

  /**
   * The cascade's policy. Nothing is kept when the first strategy that checks
   * cleanly finds no change; otherwise the error-free strategy is kept,
   * preferring BuildEvents, and when both fail BuildEvents is kept so that the
   * failure is reported.
   */
  lemma CascadePolicy(protocol: string, env: Collaborators, e: SessionEntry)
    ensures var p := ExistingEventParams(protocol, e);
            var b := CheckedImporter(env, BuildEvents, p);
            var c := CheckedImporter(env, ConvertEvents, p);
            var r := EventImporterFor(protocol, env, e);
            && (!b.errored && b.shouldTransfer == Some(false) ==> r == [])
            && (!b.errored && b.shouldTransfer == Some(true) ==> r == [b])
            && (b.errored && !c.errored && c.shouldTransfer == Some(false) ==> r == [])
            && (b.errored && !c.errored && c.shouldTransfer == Some(true) ==> r == [c])
            && (b.errored && c.errored ==> r == [b])
  {
  }

  /** Whatever the cascade keeps needs attention: its data changed, or it failed. */
  lemma CascadeKeepsOnlyWork(protocol: string, env: Collaborators, e: SessionEntry)
    ensures |EventImporterFor(protocol, env, e)| <= 1
    ensures forall s :: s in EventImporterFor(protocol, env, e) ==>
              && s.Valid() && s.params == ExistingEventParams(protocol, e)
              && (s.kind == BuildEvents || s.kind == ConvertEvents)
              && (s.shouldTransfer == Some(true) || s.errored)
    ensures forall s :: s in EventImporterFor(protocol, env, e) && s.kind == ConvertEvents ==> !s.errored
  {
  }

  /** The importers add_existing_events_importers appends, in order. */
  function EventsPlan(protocol: string, env: Collaborators, entries: seq<SessionEntry>): (r: seq<ImporterState>)
    ensures |r| <= |entries|
    decreases |entries|
  {
    if entries == [] then []
    else
      var last := entries[|entries| - 1];
      CascadeKeepsOnlyWork(protocol, env, last);
      EventsPlan(protocol, env, entries[..|entries| - 1]) + EventImporterFor(protocol, env, last)
  }

  // ---------------------------------------------------------------------------
  // Phase: next sessions (automation.py:218-249)

  /** The numbering of the next session of one experiment. */
  datatype NextSession = NextSession(session: int, originalSession: int, originalExperiment: string)

  /** `subj_index.filtered(montage=..., experiment=...)`: the sessions recorded under both. */
  function SessionsUnder(records: seq<SessionRecord>, montage: string, experiment: string): (r: seq<SessionRecord>)
    ensures forall x :: x in r <==> x in records && x.montage == montage && x.experiment == experiment
    decreases |records|
  {
    if records == [] then []
    else
      var rest := SessionsUnder(records[1..], montage, experiment);
      assert records == [records[0]] + records[1..];
      if records[0].montage == montage && records[0].experiment == experiment then [records[0]] + rest else rest
  }

  function SessionNumbers(records: seq<SessionRecord>): (r: seq<int>)
    ensures |r| == |records| && forall i :: 0 <= i < |records| ==> r[i] == records[i].session
  {
    seq(|records|, i requires 0 <= i < |records| => records[i].session)
  }

  /** The first record of session `session`: what `get_value(..., session=...)` reads. */
  function RecordOf(records: seq<SessionRecord>, session: int): (r: SessionRecord)
    requires exists i :: 0 <= i < |records| && records[i].session == session
    ensures r in records && r.session == session
    decreases |records|
  {
    if records[0].session == session then records[0] else RecordOf(records[1..], session)
  }

  /**
   * The numbering of the next session: after the latest recorded session, with
   * the remap values carried forward, or session 0 when there is none.
   */
  function NextSessionAfter(experiment: string, records: seq<SessionRecord>): (n: NextSession)
    ensures records == [] ==> n == NextSession(0, 0, experiment)
    ensures records != [] ==>
              && (forall x :: x in records ==> x.session < n.session)
              && (exists x :: x in records && x.session + 1 == n.session)
    ensures records != [] ==>
              var latest := RecordOf(records, n.session - 1);
              && n.originalSession == (if latest.originalSession.Some? then latest.originalSession.value + 1 else n.session)
              && n.originalExperiment == (if latest.originalExperiment.Some? then latest.originalExperiment.value else experiment)
  {
    if records == [] then NextSession(0, 0, experiment)
    else
      var numbers := SessionNumbers(records);
      var maxSession := MaxInt(numbers);
      assert forall x :: x in records ==> x.session <= maxSession by {
        forall x | x in records
          ensures x.session <= maxSession
        {
          var i :| 0 <= i < |records| && records[i] == x;
          assert numbers[i] in numbers;
        }
      }
      var latest := RecordOf(records, maxSession);
      NextSession(
        maxSession + 1,
        if latest.originalSession.Some? then latest.originalSession.value + 1 else maxSession + 1,
        if latest.originalExperiment.Some? then latest.originalExperiment.value else experiment)
  }

  /** The keyword arguments for the next session of `experiment` for one subject. */
  function FutureEventParams(protocol: string, index: Index, subj: SubjectEntry, experiment: string): (p: Params)
    requires |subj.montages| > 0
    ensures p.EventParams? && p.subject == subj.subject && p.newExperiment == experiment && !p.doCompare
    ensures p.montage in subj.montages && forall m :: m in subj.montages ==> !StrLess(p.montage, m)
    ensures var n := NextSessionAfter(experiment, SessionsUnder(subj.sessions, p.montage, experiment));
            p.session == n.session && p.originalSession == n.originalSession && p.experiment == n.originalExperiment
  {
    var maxMontage := MaxString(subj.montages);
    var next := NextSessionAfter(experiment, SessionsUnder(subj.sessions, maxMontage, experiment));
    EventParams(subj.subject, maxMontage, next.originalExperiment, next.session, experiment,
                next.originalSession, experiment in MathTasks, protocol,
                index.alias(subj.subject, maxMontage), false)
  }

  /** One next-session importer, kept only when its check says the data changed. */
  function FutureImporterFor(protocol: string, index: Index, env: Collaborators, subj: SubjectEntry, experiment: string)
    : (r: seq<ImporterState>)
    requires |subj.montages| > 0
    ensures |r| <= 1
    ensures r != [] <==>
              CheckedImporter(env, BuildEvents, FutureEventParams(protocol, index, subj, experiment)).shouldTransfer
              == Some(true)
    ensures r != [] ==> r[0] == CheckedImporter(env, BuildEvents, FutureEventParams(protocol, index, subj, experiment))
    ensures forall s :: s in r ==>
              s.Valid() && s.kind == BuildEvents && s.shouldTransfer == Some(true) && !s.errored
              && s.params == FutureEventParams(protocol, index, subj, experiment)
  {
    var s := CheckedImporter(env, BuildEvents, FutureEventParams(protocol, index, subj, experiment));
    if s.shouldTransfer.value then [s] else []
  }

  /** The importers of one subject, experiment by experiment. */
  function SubjectFuturePlan(protocol: string, index: Index, env: Collaborators, subj: SubjectEntry,
                             experiments: seq<string>): (r: seq<ImporterState>)
    requires |subj.montages| > 0
    ensures |r| <= |experiments|
    decreases |experiments|
  {
    if experiments == [] then []
    else
      SubjectFuturePlan(protocol, index, env, subj, experiments[..|experiments| - 1])
      + FutureImporterFor(protocol, index, env, subj, experiments[|experiments| - 1])
  }

  /** The importers add_future_events_importers appends, in order. */
  function FuturePlan(protocol: string, index: Index, env: Collaborators, subjects: seq<SubjectEntry>)
    : (r: seq<ImporterState>)
    requires forall i :: 0 <= i < |subjects| ==> |subjects[i].montages| > 0
    ensures |r| <= |subjects|
    decreases |subjects|
  {
    if subjects == [] then []
    else
      FuturePlan(protocol, index, env, subjects[..|subjects| - 1])
      + SubjectFuturePlan(protocol, index, env, subjects[|subjects| - 1], FutureExperimentNames)
  }

  lemma AppendAssociative<T>(a: seq<T>, b: seq<T>, c: seq<T>)
    ensures (a + b) + c == a + (b + c)
  {
  }

  /** MontagePlan grows entry by entry, as the loop over montages does. */
  lemma MontagePlanStep(protocol: string, env: Collaborators, entries: seq<MontageEntry>, k: nat,
                        before: seq<ImporterState>)
    requires k < |entries|
    ensures before + MontagePlan(protocol, env, entries[..k + 1])
            == (before + MontagePlan(protocol, env, entries[..k])) + MontageImporterFor(protocol, env, entries[k])
  {
    assert entries[..k + 1][..k] == entries[..k];
    AppendAssociative(before, MontagePlan(protocol, env, entries[..k]), MontageImporterFor(protocol, env, entries[k]));
  }

  /** EventsPlan grows entry by entry, as the loop over sessions does. */
  lemma EventsPlanStep(protocol: string, env: Collaborators, entries: seq<SessionEntry>, k: nat,
                       before: seq<ImporterState>)
    requires k < |entries|
    ensures before + EventsPlan(protocol, env, entries[..k + 1])
            == (before + EventsPlan(protocol, env, entries[..k])) + EventImporterFor(protocol, env, entries[k])
  {
    assert entries[..k + 1][..k] == entries[..k];
    AppendAssociative(before, EventsPlan(protocol, env, entries[..k]), EventImporterFor(protocol, env, entries[k]));
  }

  /** SubjectFuturePlan grows experiment by experiment, as the inner loop does. */
  lemma SubjectFuturePlanStep(protocol: string, index: Index, env: Collaborators, subj: SubjectEntry,
                              experiments: seq<string>, x: nat, before: seq<ImporterState>)
    requires x < |experiments| && |subj.montages| > 0
    ensures before + SubjectFuturePlan(protocol, index, env, subj, experiments[..x + 1])
            == (before + SubjectFuturePlan(protocol, index, env, subj, experiments[..x]))
               + FutureImporterFor(protocol, index, env, subj, experiments[x])
  {
    assert experiments[..x + 1][..x] == experiments[..x];
    AppendAssociative(before, SubjectFuturePlan(protocol, index, env, subj, experiments[..x]),
                      FutureImporterFor(protocol, index, env, subj, experiments[x]));
  }

  /** FuturePlan grows subject by subject, as the loop over subjects does. */
  lemma FuturePlanStep(protocol: string, index: Index, env: Collaborators, subjects: seq<SubjectEntry>, k: nat,
                       before: seq<ImporterState>)
    requires k < |subjects| && forall i :: 0 <= i < |subjects| ==> |subjects[i].montages| > 0
    ensures before + FuturePlan(protocol, index, env, subjects[..k + 1])
            == (before + FuturePlan(protocol, index, env, subjects[..k]))
               + SubjectFuturePlan(protocol, index, env, subjects[k], FutureExperimentNames)
  {
    assert subjects[..k + 1][..k] == subjects[..k];
    AppendAssociative(before, FuturePlan(protocol, index, env, subjects[..k]),
                      SubjectFuturePlan(protocol, index, env, subjects[k], FutureExperimentNames));
  }

  /** The next-session numbering of the protocol's two cases. */
  lemma NextSessionNumbering(experiment: string, records: seq<SessionRecord>, latest: int)
    requires records != [] && forall x :: x in records ==> x.session <= latest
    requires exists x :: x in records && x.session == latest
    requires forall x :: x in records && x.session == latest ==> x.originalSession.None? && x.originalExperiment.None?
    ensures NextSessionAfter(experiment, records) == NextSession(latest + 1, latest + 1, experiment)
  {
  }

  // ---------------------------------------------------------------------------
  // Running and reporting

  function RanAll(env: Collaborators, states: seq<ImporterState>): (r: seq<ImporterState>)
    ensures |r| == |states|
    ensures forall i :: 0 <= i < |states| ==> r[i] == states[i].Ran(env.run(states[i].kind, states[i].params))
  {
    seq(|states|, i requires 0 <= i < |states| => states[i].Ran(env.run(states[i].kind, states[i].params)))
  }

  function KeyOf(s: ImporterState): SortKey
  {
    SortKey(s.initialized, s.errored, s.shouldTransfer, s.transferred, s.processed, s.params.subject)
  }

  function KeysOf(states: seq<ImporterState>): (r: seq<SortKey>)
    ensures |r| == |states| && forall i :: 0 <= i < |states| ==> r[i] == KeyOf(states[i])
  {
    seq(|states|, i requires 0 <= i < |states| => KeyOf(states[i]))
  }

  /** The whole report of Automator.describe(). */
  datatype Report = NoImporters | Listing(descriptions: seq<Description>)

  /** The importer states held by a list of importers. */
  function StatesOf(importers: seq<Importer>): (r: seq<ImporterState>)
    reads importers
    ensures |r| == |importers|
    ensures forall i :: 0 <= i < |importers| ==> r[i] == importers[i].State()
  {
    seq(|importers|, i reads importers requires 0 <= i < |importers| => importers[i].State())
  }

  /** A new importer of `kind` on which check() has been called, and the answer of that call. */
  method NewCheckedImporter(env: Collaborators, kind: Kind, p: Params) returns (importer: Importer, changed: bool)
    ensures fresh(importer) && importer.Valid()
    ensures importer.State() == CheckedImporter(env, kind, p)
    ensures changed == importer.shouldTransfer.value
  {
    importer := new Importer(kind, p, env.build(kind, p));
    changed := importer.Check(env.checksum(kind, p));
  }

  /** The Automator class (automation.py:135-265). */
  class Automator {
    const protocol: string
    const index: Index
    const env: Collaborators
    var importers: seq<Importer>

    /**
     * The importers are distinct objects, each valid, and each has been
     * checked: every phase calls check() on what it keeps.
     */
    ghost predicate Valid()
      reads this, importers
    {
      && WellFormed(index)
      && (forall i, j :: 0 <= i < j < |importers| ==> importers[i] != importers[j])
      && (forall i :: 0 <= i < |importers| ==> importers[i].Valid() && importers[i].shouldTransfer.Some?)
    }

    constructor (protocol: string, index: Index, env: Collaborators)
      requires WellFormed(index)
      ensures Valid() && importers == []
      ensures this.protocol == protocol && this.index == index && this.env == env
    {
      this.protocol := protocol;
      this.index := index;
      this.env := env;
      importers := [];
    }

    /** `self.importers.append(importer)`. */
    method Keep(importer: Importer)
      requires Valid() && importer.Valid() && importer.shouldTransfer.Some? && importer !in importers
      modifies this
      ensures Valid()
      ensures StatesOf(importers) == old(StatesOf(importers)) + [importer.State()]
    {
      importers := importers + [importer];
    }

    /** One step of the loop at automation.py:160-165: the importer for one montage, kept if it needs attention. */
    method AddMontageImporter(e: MontageEntry)
      requires Valid()
      modifies this
      ensures Valid()
      ensures StatesOf(importers) == old(StatesOf(importers)) + MontageImporterFor(protocol, env, e)
    {
      var importer, changed := NewCheckedImporter(env, Montage, MontageParams(e.subject, e.montage, protocol, e.code));
      if changed || importer.errored || IncludeTransferred {
        Keep(importer);
      }
    }

    /** One step of the loop at automation.py:199-216: the build-then-convert cascade for one session. */
    method AddEventsImporter(e: SessionEntry)
      requires Valid()
      modifies this
      ensures Valid()
      ensures StatesOf(importers) == old(StatesOf(importers)) + EventImporterFor(protocol, env, e)
    {
      var kwargs := ExistingEventParams(protocol, e);
      var importer, changed := NewCheckedImporter(env, BuildEvents, kwargs);
      if !changed && !importer.errored {
        return;
      }
      if !importer.errored {
        Keep(importer);
        return;
      }
      var importer2, changed2 := NewCheckedImporter(env, ConvertEvents, kwargs);
      if !changed2 && !importer2.errored {
        return;
      }
      if !importer.errored {
        // Lines 211-212 cannot run: this branch is reached only when the first importer errored.
        assert false;
      } else if !importer2.errored {
        Keep(importer2);
      } else {
        Keep(importer);
      }
    }

    /** One step of the inner loop at automation.py:224-249: the next-session importer, kept if its data changed. */
    method AddFutureImporter(subj: SubjectEntry, experiment: string)
      requires Valid() && |subj.montages| > 0
      modifies this
      ensures Valid()
      ensures StatesOf(importers) == old(StatesOf(importers)) + FutureImporterFor(protocol, index, env, subj, experiment)
    {
      var importer, changed := NewCheckedImporter(env, BuildEvents, FutureEventParams(protocol, index, subj, experiment));
      if changed {
        Keep(importer);
      }
    }

    /** add_existing_montage_importers (automation.py:156-165). */
    method AddExistingMontageImporters()
      requires Valid()
      modifies this
      ensures Valid()
      ensures StatesOf(importers) == old(StatesOf(importers)) + MontagePlan(protocol, env, index.montageEntries)
    {
      var entries := index.montageEntries;
      ghost var before := StatesOf(importers);
      var k := 0;
      while k < |entries|
        invariant 0 <= k <= |entries|
        invariant Valid()
        invariant StatesOf(importers) == before + MontagePlan(protocol, env, entries[..k])
      {
        AddMontageImporter(entries[k]);
        MontagePlanStep(protocol, env, entries, k, before);
        k := k + 1;
      }
      assert entries[..k] == entries;
    }

    /** add_existing_events_importers (automation.py:195-216). */
    method AddExistingEventsImporters()
      requires Valid()
      modifies this
      ensures Valid()
      ensures StatesOf(importers) == old(StatesOf(importers)) + EventsPlan(protocol, env, index.sessionEntries)
    {
      var entries := index.sessionEntries;
      ghost var before := StatesOf(importers);
      var k := 0;
      while k < |entries|
        invariant 0 <= k <= |entries|
        invariant Valid()
        invariant StatesOf(importers) == before + EventsPlan(protocol, env, entries[..k])
      {
        AddEventsImporter(entries[k]);
        EventsPlanStep(protocol, env, entries, k, before);
        k := k + 1;
      }
      assert entries[..k] == entries;
    }

    /** One pass of the outer loop of add_future_events_importers: every experiment for one subject. */
    method AddSubjectFutureImporters(subj: SubjectEntry)
      requires Valid() && |subj.montages| > 0
      modifies this
      ensures Valid()
      ensures StatesOf(importers) == old(StatesOf(importers)) + SubjectFuturePlan(protocol, index, env, subj, FutureExperimentNames)
    {
      ghost var before := StatesOf(importers);
      var x := 0;
      while x < |FutureExperimentNames|
        invariant 0 <= x <= |FutureExperimentNames|
        invariant Valid()
        invariant StatesOf(importers) == before + SubjectFuturePlan(protocol, index, env, subj, FutureExperimentNames[..x])
      {
        AddFutureImporter(subj, FutureExperimentNames[x]);
        SubjectFuturePlanStep(protocol, index, env, subj, FutureExperimentNames, x, before);
        x := x + 1;
      }
      assert FutureExperimentNames[..x] == FutureExperimentNames;
    }

    /** add_future_events_importers. */
    method AddFutureEventsImporters()
      requires Valid()
      modifies this
      ensures Valid()
      ensures StatesOf(importers) == old(StatesOf(importers)) + FuturePlan(protocol, index, env, index.subjectEntries)
    {
      var subjects := index.subjectEntries;
      ghost var before := StatesOf(importers);
      var k := 0;
      while k < |subjects|
        invariant 0 <= k <= |subjects|
        invariant Valid()
        invariant StatesOf(importers) == before + FuturePlan(protocol, index, env, subjects[..k])
      {
        AddSubjectFutureImporters(subjects[k]);
        FuturePlanStep(protocol, index, env, subjects, k, before);
        k := k + 1;
      }
      assert subjects[..k] == subjects;
    }

    /** populate_importers: existing sessions, then montages, then next sessions. */
    method PopulateImporters()
      requires Valid()
      modifies this
      ensures Valid()
      ensures StatesOf(importers) == old(StatesOf(importers))
                                     + EventsPlan(protocol, env, index.sessionEntries)
                                     + MontagePlan(protocol, env, index.montageEntries)
                                     + FuturePlan(protocol, index, env, index.subjectEntries)
    {
      AddExistingEventsImporters();
      AddExistingMontageImporters();
      AddFutureEventsImporters();
    }

    /** run_all_imports: every importer is run once, in list order, whatever the others did. */
    method RunAllImports()
      requires Valid()
      modifies importers
      ensures Valid()
      ensures StatesOf(importers) == RanAll(env, old(StatesOf(importers)))
    {
      ghost var before := StatesOf(importers);
      ghost var after := RanAll(env, before);
      var k := 0;
      while k < |importers|
        invariant 0 <= k <= |importers|
        invariant Valid()
        invariant forall i :: 0 <= i < k ==> importers[i].State() == after[i]
        invariant forall i :: k <= i < |importers| ==> importers[i].State() == before[i]
      {
        var imp := importers[k];
        label BeforeRun:
        imp.Run(env.run(imp.kind, imp.params));
        forall i | 0 <= i < |importers| && i != k
          ensures importers[i].State() == old@BeforeRun(importers[i].State())
        {
          assert importers[i] != imp;
        }
        k := k + 1;
      }
    }

    /** sorted_importers: the importers in stable order of their report keys. */
    function SortedImporters(): (r: seq<Importer>)
      reads this, importers
      ensures |r| == |importers|
      ensures forall p :: 0 <= p < |r| ==> r[p] in importers
      ensures forall i :: 0 <= i < |importers| ==> importers[i] in r
      ensures forall p, q :: 0 <= p < q < |r| ==> !KeyLess(KeyOf(r[q].State()), KeyOf(r[p].State()))
      ensures forall p, q :: 0 <= p < q < |r| && KeyOf(r[p].State()) == KeyOf(r[q].State()) ==>
                exists i, j :: 0 <= i < j < |importers| && importers[i] == r[p] && importers[j] == r[q]
    {
      var order := SortedOrder(KeysOf(StatesOf(importers)));
      PermutedImporters(importers, order);
      Permute(importers, order)
    }

    /**
     * Importers listed in their sorted order are the same importers, and none
     * has a key smaller than an earlier one's.
     */
    lemma PermutedImporters(importers: seq<Importer>, order: seq<nat>)
      requires order == SortedOrder(KeysOf(StatesOf(importers)))
      ensures var r := Permute(importers, order);
              && |r| == |importers|
              && (forall p :: 0 <= p < |r| ==> r[p] in importers)
              && (forall i :: 0 <= i < |importers| ==> importers[i] in r)
              && (forall p, q :: 0 <= p < q < |r| ==> !KeyLess(KeyOf(r[q].State()), KeyOf(r[p].State())))
              && forall p, q :: 0 <= p < q < |r| && KeyOf(r[p].State()) == KeyOf(r[q].State()) ==>
                   exists i, j :: 0 <= i < j < |importers| && importers[i] == r[p] && importers[j] == r[q]
    {
      var keys := KeysOf(StatesOf(importers));
      SortedOrderCovers(keys);
      PermuteCovers(importers, order);
      SortedOrderNoInversion(keys);
      var r := Permute(importers, order);
      forall p, q | 0 <= p < q < |r|
        ensures !KeyLess(KeyOf(r[q].State()), KeyOf(r[p].State()))
      {
        assert KeyOf(r[p].State()) == keys[order[p]];
        assert KeyOf(r[q].State()) == keys[order[q]];
      }
      forall p, q | 0 <= p < q < |r| && KeyOf(r[p].State()) == KeyOf(r[q].State())
        ensures exists i, j :: 0 <= i < j < |importers| && importers[i] == r[p] && importers[j] == r[q]
      {
        assert keys[order[p]] == keys[order[q]];
        KeyLessIrreflexive(keys[order[p]]);
        assert order[p] < order[q];
        assert importers[order[p]] == r[p] && importers[order[q]] == r[q];
      }
    }

    /** describe() (automation.py:259-265). */
    function Describe(): (r: Report)
      reads this, importers
      ensures r == NoImporters <==> |importers| == 0
      ensures r.Listing? ==> |r.descriptions| == |importers|
    {
      ReportOf(StatesOf(importers))
    }
  }

  /**
   * The report on a list of importers: the 'No Importers' sentinel for an
   * empty list, otherwise one description per importer, in report order.
   */
  function ReportOf(states: seq<ImporterState>): (r: Report)
    ensures r == NoImporters <==> |states| == 0
    ensures r.Listing? ==> |r.descriptions| == |states|
    ensures r.Listing? ==>
              var order := SortedOrder(KeysOf(states));
              forall p :: 0 <= p < |states| ==> r.descriptions[p] == DescriptionOf(states[order[p]])
  {
    if |states| == 0 then NoImporters
    else
      var order := SortedOrder(KeysOf(states));
      Listing(seq(|order|, p requires 0 <= p < |order| => DescriptionOf(states[order[p]])))
  }

  /**
   * The report of a checked importer does not depend on what a later checksum
   * would answer: its should_transfer property does not call check() again.
   */
  lemma DescribeOfCheckedImporter(s: ImporterState, answer: ChecksumOutcome)
    requires s.shouldTransfer.Some?
    ensures s.Accessed(answer) == s
  {
  }
}
