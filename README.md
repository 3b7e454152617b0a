# Import orchestration and electrode-lead conversion, modelled in Dafny

This project models two parts of the event-creation repository.

**The import orchestrator (`submission/automation.py`).**

- An `Importer` wraps one pipeline built by a registered builder. It holds:
  - four error slots: init, check, transfer and processing;
  - a sticky `errored` flag;
  - a memoised transfer decision, which is None, False or True;
  - the `processed` and `transferred` flags.

  Every failure of the builder, of the checksum comparison or of the run is absorbed into that state. Only an unregistered importer type is refused.
- The `Automator` fills its importer list in three phases, in this order:
  1. existing sessions, with a build-then-convert cascade;
  2. montages;
  3. next sessions.

  What each phase keeps differs:
  - for each existing session, at most one importer of the cascade (see `Automation.CascadePolicy`);
  - each montage importer whose data changed or that failed;
  - each next-session importer whose check answers True. An importer that failed its check is dropped here.

  The automator then runs each kept importer once, and reports on them in the stable order of a six-field key.
- The collaborators are values in the model:
  - the JSON index is the answers to the queries the phases make;
  - the pipeline builder, the transferer's checksum comparison and the pipeline run are each an outcome, given per importer kind and arguments.

**The electrode converter (`vox_mother_converter.py`).**

- Contact names such as `LAD12` are split by the regular expression `(.+?)(\d+$)`.
- Mother-file lines are parsed into contacts nested by lead and contact number.
- Jacksheet lines set the jack number of the contacts they name.
- `add_grid_loc` gives every contact of a lead a grid group and a grid location, using two running counters and Python 2's flooring `/` and `%`.
- `leads_to_dict` flattens the leads into one record per contact name.
- `build_leads` chains the three steps.

Files are modelled as sequences of lines that are already split into fields.

**How the model follows the code's form.**

- State that the code updates in place is modelled imperatively:
  - `Importer` and `Automator` are classes;
  - the loops of `read_mother`, `add_jacksheet`, `add_grid_loc`, `leads_to_dict` and the automator's phases are methods with loop invariants.
- Each such method except `leads_to_dict` is proved equal to a specification function:
  - `MotherLeads`, `Jacksheet`, `LeadLayoutAsWritten`;
  - the phase plans `MontagePlan`, `EventsPlan` and `FuturePlan`;
  - `RanAll`.
- `VoxMother.LeadsToDict` is proved against its own contract instead: the keys are exactly the contact names; each entry is the record of a contact with that name; for well-keyed leads, each name maps to its own contact's record.
- The properties the code promises are proved as lemmas about those functions.

**Behaviours of the code that one might not expect, modelled as written:**

- `run()` on an uninitialised importer is not a no-op. The pipeline is None, so the call raises, and the error lands in the processing slot (`Importing.ImporterState.Ran`).
- `check()` on an uninitialised importer records a check error and answers False.
- A single `check()` never leaves a True decision beside a check error it raised itself. A later `check()` can, though, because no slot is ever cleared (`Importing.RecheckKeepsOldCheckError`). For the same reason, a second run can leave `processed` set beside a processing error.
- `start_num` begins at 1, so a contact numbered 0 gets offset -1. Its location is then `(rows - 1, -1)` (`GridLayout.ContactZeroLocation`). The bound on locations holds for contact numbers of at least 1.
- The next-session phase iterates over the keys of `EXPERIMENTS`. That visits the protocol name `r1` and not its experiments (`Automation.FutureExperimentNames`).
- The branch at `submission/automation.py:211-212` cannot run, because it is reached only after the first importer errored. The model keeps the branch structure and proves that branch dead.

## Model

| member | source | states |
|---|---|---|
| Importing.KindOfCode | submission/automation.py:11-23 | a type code is registered exactly when it is one of 1 to 5, and the kind found carries that code |
| Importing.Errors.Set | submission/automation.py:107-108 | exactly the named slot holds the new error; the other three slots are unchanged |
| Importing.ImporterState.WithError | submission/automation.py:107-109 | set_error fills exactly the named slot, makes `errored` true, leaves the flags and the decision alone and keeps the state invariant |
| Importing.ImporterState.Checked | submission/automation.py:117-123 | an initialised importer whose transferer answers stores that answer and changes nothing else; a failed transferer stores False and puts the raised error in the check slot, a missing one the AttributeError of the call; no other slot changes and `errored` is set; the invariant is kept |
| Importing.ImporterState.Accessed | submission/automation.py:111-115 | the should_transfer property runs check() exactly when the importer is initialised and has no decision yet, and otherwise leaves the state unchanged; an initialised importer ends with a decision; the invariant is kept |
| Importing.ImporterState.Ran | submission/automation.py:125-133 | a completed run sets processed and transferred with no new error; UnTransferrable puts its error in the transfer slot only; any other failure puts its error in the processing slot only, and a run of an uninitialised importer puts the AttributeError of the call there; the flags stay as they were on failure |
| Importing.Initial | submission/automation.py:35-52 | a new importer has no decision and nothing run; a successful builder leaves it initialised with all four slots empty and `errored` false; a failing builder leaves it uninitialised, errored, with only the init slot set |
| Importing.TransferStatusOf | submission/automation.py:65-77 | the transfer-status line is 'complete' iff the decision is True, no transfer error and transferred; 'necessary, failed' iff True with a transfer error; 'failed to compute checksum' iff not True with a check error; 'not necessary' iff not True without one |
| Importing.ErrorLines | submission/automation.py:95-105 | one line per filled slot and only for filled slots, each with that slot's error, in the order init, check, transfer, processing; no line iff no slot is filled |
| Importing.DescriptionOf | submission/automation.py:54-93 | the report carries the initialisation flag and the transfer status; a processed line exactly when transferred, reading 'failed' exactly when the processing slot is filled; error lines exactly when errored |
| Importing.Importer.constructor | submission/automation.py:35-52 | the new importer's state is the initial state for its kind, arguments and builder outcome |
| Importing.Importer.SetError | submission/automation.py:107-109 | the importer's new state is its old state with that error recorded |
| Importing.Importer.Check | submission/automation.py:117-123 | the new state is the checked state, and the value returned is the stored decision |
| Importing.Importer.ShouldTransfer | submission/automation.py:111-115 | the new state is the accessed state, and the value returned is the stored decision |
| Importing.Importer.Run | submission/automation.py:125-133 | the new state is the old state after that run outcome |
| Importing.Importer.Describe | submission/automation.py:54-93 | describe reads the should_transfer property first, and then reports on the resulting state |
| Importing.NewImporter | submission/automation.py:32-34 | construction fails iff the type code is unregistered, with that code; otherwise a fresh valid importer in its initial state, whatever the builder did |
| Importing.ErrorsAreSticky | submission/automation.py:107-133 | whatever sequence of set_error, check, should_transfer and run calls follows, the invariant holds, kind, arguments and initialisation never change, a filled slot stays filled and `errored` is never reset |
| Importing.AccessorMemoises | submission/automation.py:111-115 | reading the property a second time changes nothing, whatever the transferer would now answer |
| Importing.RecheckOverwrites | submission/automation.py:117-119 | an explicit check() replaces a stored decision with the transferer's new answer |
| Importing.CheckNeverTrueOnFailure | submission/automation.py:117-123 | after one check() from a clean check slot, a True decision comes only from an initialised importer whose transferer answered True, and a check error comes with False |
| Importing.RecheckKeepsOldCheckError | submission/automation.py:117-123 | a failed check followed by a check answering True leaves a True decision beside the old check error |
| Importing.StatusAfterCheckAndRun | submission/automation.py:65-77 | the transfer status after each kind of checksum answer and each kind of run outcome: checksum error, not necessary, necessary and incomplete, complete, necessary and failed |
| Automation.CheckedImporter | submission/automation.py:117-123 | a new importer after its check has a decision, has run nothing, keeps the invariant, and a True decision means it has not errored |
| Automation.NewCheckedImporter | submission/automation.py:201-202 | a fresh importer whose state is the checked state for its kind and arguments, and the answer returned is its decision |
| Automation.MontageImporterFor | submission/automation.py:160-165 | a montage's importer is dropped iff its check is False without error (INCLUDE_TRANSFERRED being False); otherwise the checked importer itself is kept |
| Automation.MontagePlan | submission/automation.py:156-165 | the montage phase adds at most one importer per montage |
| Automation.ExistingEventParamsDefaults | submission/automation.py:179-195 | an existing session's arguments keep its number and experiment as the new ones; the original session and experiment default to the session's own; do_math iff the experiment is a math task |
| Automation.CascadePolicy | submission/automation.py:198-216 | the cascade keeps nothing when BuildEvents checks False cleanly; BuildEvents when it checks True cleanly; nothing when BuildEvents errors and ConvertEvents checks False cleanly; ConvertEvents when only BuildEvents errors; BuildEvents when both error |
| Automation.CascadeKeepsOnlyWork | submission/automation.py:198-216 | at most one importer per session, of kind BuildEvents or ConvertEvents with that session's arguments, and kept only if its data changed or it failed; a kept ConvertEvents never failed |
| Automation.EventsPlan | submission/automation.py:198-216 | the existing-events phase adds at most one importer per session |
| Automation.FutureExperimentNamesAreKeys | submission/automation.py:137-141 | the next-session phase visits exactly the keys of EXPERIMENTS, once each, and so not the experiment FR1 |
| Automation.SessionsUnder | submission/automation.py:225 | the filtered index holds exactly the recorded sessions under that montage and that experiment |
| Automation.NextSessionAfter | submission/automation.py:227-241 | with no sessions, session 0 with original session 0 and the experiment itself; otherwise one past the largest session, with original session the latest's recorded one plus one (or the new number) and its recorded original experiment (or the experiment) |
| Automation.NextSessionNumbering | submission/automation.py:227-237 | when the latest session records no remap values, both the session and the original session are the latest plus one |
| Automation.FutureEventParams | submission/automation.py:219-246 | the next-session arguments use the largest montage of the subject, the next-session numbering under that montage and experiment, and do_compare False |
| Automation.FutureImporterFor | submission/automation.py:247-249 | a next-session importer is kept iff its check answers True, and what is kept is that checked BuildEvents importer, with those arguments and no error |
| Automation.SubjectFuturePlan | submission/automation.py:224-249 | one subject adds at most one importer per experiment visited |
| Automation.FuturePlan | submission/automation.py:218-249 | the next-session phase adds at most one importer per subject and visited key |
| Automation.RanAll | submission/automation.py:251-253 | every importer is run once, in place, each by its own outcome, whatever the others did |
| Automation.ReportOf | submission/automation.py:259-265 | 'No Importers' iff the list is empty; otherwise one description per importer, taken in the stable sorted order of the report keys |
| Automation.DescribeOfCheckedImporter | submission/automation.py:111-115 | describing an importer that has been checked does not call check() again, so the report depends on no further checksum answer |
| Automation.Automator.constructor | submission/automation.py:146-149 | an automator starts with no importers over the given protocol and index |
| Automation.Automator.Keep | submission/automation.py:165 | appending adds that importer's state at the end and keeps the importers distinct, valid and checked |
| Automation.Automator.AddMontageImporter | submission/automation.py:160-165 | one montage step appends exactly what MontageImporterFor keeps |
| Automation.Automator.AddEventsImporter | submission/automation.py:199-216 | one session step appends exactly what the cascade keeps, and the branch at 211-212 is proved dead |
| Automation.Automator.AddFutureImporter | submission/automation.py:224-249 | one experiment step appends exactly what FutureImporterFor keeps |
| Automation.Automator.AddExistingMontageImporters | submission/automation.py:156-165 | the list grows by exactly the montage plan of the index, in order |
| Automation.Automator.AddExistingEventsImporters | submission/automation.py:198-216 | the list grows by exactly the events plan of the index, in order |
| Automation.Automator.AddSubjectFutureImporters | submission/automation.py:224-249 | the list grows by exactly one subject's next-session plan |
| Automation.Automator.AddFutureEventsImporters | submission/automation.py:218-249 | the list grows by exactly the next-session plan of every subject, in order |
| Automation.Automator.PopulateImporters | submission/automation.py:151-154 | the list grows by the events plan, then the montage plan, then the next-session plan |
| Automation.Automator.RunAllImports | submission/automation.py:251-253 | each importer's new state is its old state after its own run outcome, and the list keeps its invariant |
| Automation.Automator.SortedImporters | submission/automation.py:255-257 | the sorted list has the same importers, each listed importer being one of them and each of them listed; no importer has a smaller key than one listed before it, and importers with equal keys keep their list order |
| Automation.Automator.PermutedImporters | submission/automation.py:255-257 | listing the importers in their stable sorted order keeps every importer, leaves no key inversion and keeps the list order of equal keys |
| Automation.Automator.Describe | submission/automation.py:259-265 | 'No Importers' iff there are no importers; otherwise one description per importer |
| PyCompare.StrLessIrreflexive | submission/automation.py:257 | no string is less than itself under Python's string order |
| PyCompare.StrLessTransitive | submission/automation.py:257 | Python's string order is transitive |
| PyCompare.StrLessTotal | submission/automation.py:257 | of two different strings, one is less than the other |
| PyCompare.StrLessAsymmetric | submission/automation.py:257 | two strings are never each less than the other |
| PyCompare.MaxString | submission/automation.py:223 | `max` of a non-empty list of montages is one of them, and none exceeds it |
| PyCompare.MaxInt | submission/automation.py:228 | `max` of a non-empty list of sessions is one of them, and none exceeds it |
| ImportOrder.KeyLessIrreflexive | submission/automation.py:255-257 | no report key is less than itself |
| ImportOrder.KeyLessTransitive | submission/automation.py:255-257 | the report-key order is transitive |
| ImportOrder.KeyLessTotal | submission/automation.py:255-257 | of two different report keys, one is less than the other |
| ImportOrder.PrecedesTransitive | submission/automation.py:257 | stable-sort precedence is transitive |
| ImportOrder.PrecedesTotal | submission/automation.py:257 | of two different indices, one precedes the other in a stable sort |
| ImportOrder.PrecedesIrreflexive | submission/automation.py:257 | no index precedes itself |
| ImportOrder.Insert | submission/automation.py:257 | inserting an index into a stably sorted list keeps it stably sorted and adds exactly that index |
| ImportOrder.SortPrefix | submission/automation.py:257 | the first n indices, stably sorted, each once |
| ImportOrder.SortedOrder | submission/automation.py:257 | `sorted` lists every index exactly once, a smaller key first and equal keys in their original order |
| ImportOrder.SortedOrderCovers | submission/automation.py:257 | every index appears in the sorted order |
| ImportOrder.SortedOrderNoInversion | submission/automation.py:257 | no later entry of the sorted order has a strictly smaller key than an earlier one |
| ImportOrder.Permute | submission/automation.py:257 | the permuted list holds, at each position, the element that the order names |
| ImportOrder.PermuteCovers | submission/automation.py:257 | when the order lists every index, every element is in the permuted list |
| ContactNames.SplitContactName | vox_mother_converter.py:72-74 | the regex matches iff some cut leaves a non-empty lead and at least one trailing digit; the two groups concatenate to the name, the digit group is all digits, and the lead is the shortest possible |
| ContactNames.SplitOfComposedName | vox_mother_converter.py:72-74 | a lead not ending in a digit followed by a number's decimal text splits back into that lead and that number |
| ContactNames.ParseInt | vox_mother_converter.py:67 | `int()` succeeds iff the field is digits with an optional sign |
| ContactNames.NatTextRoundTrip | vox_mother_converter.py:74 | reading a number's decimal text gives that number |
| ContactNames.IntTextRoundTrip | vox_mother_converter.py:67 | `int(str(i)) == i` for every integer |
| VoxMother.PySlice | vox_mother_converter.py:67-69 | a slice is clamped to the list's length and holds the elements from its start |
| VoxMother.ParseInts | vox_mother_converter.py:67-69 | a list of fields converts iff every field is an integer, each to its value; otherwise the first bad field is reported |
| VoxMother.ParseMotherLine | vox_mother_converter.py:63-77 | a line parses iff it has five fields, integer coordinates in fields 1-3, integer grid sizes in fields 5-6 as far as present, and a splittable name; the contact then holds those values, is keyed by the name's lead and number, and has no group, jack or location yet; an empty line fails on field 0 |
| VoxMother.Store | vox_mother_converter.py:78 | storing a row puts its contact under its lead and number, creating the lead if needed, and keeps every other contact |
| VoxMother.ReadMother | vox_mother_converter.py:61-79 | the loop over the lines produces the mother-file leads, or the fault of the first line that raises |
| VoxMother.MotherFaultPersists | vox_mother_converter.py:62-79 | once a line raises, the lines after it change nothing |
| VoxMother.MotherLeadsShape | vox_mother_converter.py:61-79 | every contact read sits under the lead and number its own name splits into, has no group, jack or location, and no lead is empty |
| VoxMother.StoreKeepsShape | vox_mother_converter.py:78 | storing a well-keyed, unplaced contact keeps the leads well keyed, unplaced and without empty leads |
| VoxMother.MotherLastLineWins | vox_mother_converter.py:78 | a contact from a line that no later line with the same lead and number replaces ends up in the leads |
| VoxMother.JackLine | vox_mother_converter.py:90-112 | a jacksheet line with fewer than two fields raises; an unsplittable name, an unknown lead or an unknown contact number leaves the leads unchanged; otherwise exactly that contact's jack number is set to field 0 |
| VoxMother.SameExceptJackTransitive | vox_mother_converter.py:112 | differing only in jack numbers is transitive |
| VoxMother.AddJacksheet | vox_mother_converter.py:88-112 | the loop over the jacksheet lines gives the jacksheet's outcome, with the updates before a raising line kept |
| VoxMother.JackFaultPersists | vox_mother_converter.py:89-112 | once a jacksheet line raises, the lines after it change nothing |
| VoxMother.JacksheetOnlySetsJacks | vox_mother_converter.py:89-112 | the jacksheet changes nothing but jack numbers: the same leads, the same contacts, the same other fields |
| VoxMother.SameExceptJackKeepsKeys | vox_mother_converter.py:112 | setting jack numbers keeps every contact under the lead and number its name splits into |
| VoxMother.WellKeyedNamesUnique | vox_mother_converter.py:51 | in well-keyed leads, two contacts with the same name are the same contact |
| VoxMother.LeadsToDict | vox_mother_converter.py:40-52 | the flattened dictionary has one entry per contact name of the leads; each entry is the record of a contact with that name; for well-keyed leads, every contact's name maps to exactly its own record |
| VoxMother.AddLead | vox_mother_converter.py:49-51 | one lead adds the names of its contacts, each entry being the record of a contact with that name |
| GridLayout.PyDivMod | vox_mother_converter.py:147 | Python's floor `/` and `%` recompose the dividend, and the remainder lies between 0 and the divisor |
| GridLayout.Advance | vox_mother_converter.py:139-147 | a grid size with fewer than two entries raises, and so does a zero row count; otherwise the group grows by at most two, and grows iff the size differs from the compared size or the offset reaches rows times columns; the start stays or becomes the contact's number |
| GridLayout.AdvanceByCounters | vox_mother_converter.py:139-147 | the two sequential counter updates of the loop body give exactly the placement Advance describes |
| GridLayout.PlaceOverwrites | vox_mother_converter.py:128-148 | the location placing writes does not depend on the strip location set before, which is always overwritten |
| GridLayout.LayoutFold | vox_mother_converter.py:136-148 | the loop fails only on a short grid size or a zero row count |
| GridLayout.FoldFaultPersists | vox_mother_converter.py:136-148 | once a contact raises, the contacts after it change nothing |
| GridLayout.FoldPlaced | vox_mother_converter.py:136-148 | after a successful loop over ascending contacts, exactly those contacts are placed, each given a location and group and otherwise unchanged |
| GridLayout.FoldGroups | vox_mother_converter.py:134-148 | groups start at 0 and never decrease along the contacts, and none exceeds the final group counter |
| GridLayout.FoldSizes | vox_mother_converter.py:139-141 | with the compared size following the contacts, the contacts of one group share one grid size |
| GridLayout.AdvanceWithinGrid | vox_mother_converter.py:143-147 | for a positive grid and a contact at or after the start, the step succeeds and the location lies inside the grid |
| GridLayout.FoldWithinGrid | vox_mother_converter.py:136-148 | over ascending contacts numbered from 1 with positive grids, the loop succeeds and every location lies inside its grid |
| GridLayout.TypesOfEmpty | vox_mother_converter.py:122-125 | a lead has no type iff it is empty |
| GridLayout.SingleType | vox_mother_converter.py:122-125 | a lead whose contacts share one type has exactly that type |
| GridLayout.SetMin | vox_mother_converter.py:132 | a non-empty set of contact numbers has a least element |
| GridLayout.SortedNums | vox_mother_converter.py:132 | `sorted(lead.keys())` lists every contact number once, in strictly ascending order |
| GridLayout.SortedEntries | vox_mother_converter.py:132-137 | the lead's contacts in ascending number order, each paired with its number |
| GridLayout.SortedLayoutPlaced | vox_mother_converter.py:132-148 | a successful loop places every contact of the lead and nothing else |
| GridLayout.LayoutWith | vox_mother_converter.py:120-148 | a lead with several types raises 'multiple types'; an empty lead raises; a successful layout keeps the lead's contacts and only gives each a location and group |
| GridLayout.LayoutWithRun | vox_mother_converter.py:120-148 | a successful layout has a single type and is the loop's result over the ascending contacts |
| GridLayout.LayoutGroupsOrdered | vox_mother_converter.py:132-148 | in a laid-out lead, groups start at 0 and never decrease as contact numbers increase |
| GridLayout.GroupsShareGridSize | vox_mother_converter.py:133-141 | with the corrected comparison, the contacts of one group share one grid size |
| GridLayout.LayoutWithinGrid | vox_mother_converter.py:143-147 | a non-empty single-type lead with contacts numbered from 1 and positive grids lays out, and every location lies inside its grid |
| GridLayout.SortedLayoutWithinGrid | vox_mother_converter.py:143-147 | over contacts numbered from 1 with positive grids, the loop succeeds with every location inside its grid |
| GridLayout.LayoutWithOfRun | vox_mother_converter.py:120-148 | a single-type lead whose loop succeeds lays out to the loop's result |
| GridLayout.MinusOneSplit | vox_mother_converter.py:147 | offset -1 splits into row `rows - 1` and column -1 under floor division |
| GridLayout.ContactZeroLocation | vox_mother_converter.py:135-147 | a lone contact numbered 0 lands at (rows - 1, -1) in group 0, outside its grid |
| GridLayout.SortedNumsOfThree | vox_mother_converter.py:132 | the contact numbers 1, 2, 3 sort to [1, 2, 3] |
| GridLayout.SortedEntriesOfThree | vox_mother_converter.py:132-137 | a lead numbered 1, 2, 3 is visited in that order |
| GridLayout.MixedSizeLeadTypes | vox_mother_converter.py:122-125 | the mixed-size example lead has a single type |
| GridLayout.CounterexampleRun | vox_mother_converter.py:133-148 | on contacts sized 2x2, 1x1, 2x2 contact 2 opens group 1; contact 3 stays in group 1 as written and opens group 2 when corrected |
| GridLayout.MixedSizeLayout | vox_mother_converter.py:120-148 | the example lead lays out to the loop's result over its three contacts |
| GridLayout.AsWrittenMixesGridSizes | vox_mother_converter.py:133-141 | as written, contacts 2 and 3 of the example share group 1 although their grid sizes differ |
| GridLayout.CorrectedSeparatesGridSizes | vox_mother_converter.py:133-141 | corrected, contact 2 is in group 1 and contact 3 in group 2 |
| GridLayout.SetStripLocations | vox_mother_converter.py:127-130 | every contact gets location (1, its number), and nothing else changes |
| GridLayout.PlaceContact | vox_mother_converter.py:137-148 | one loop step raises the fault Advance names, or returns the new counters and the placed contact |
| GridLayout.PlaceInOrder | vox_mother_converter.py:136-148 | the loop over the given contact numbers, comparing every contact with the first contact's grid size, gives the as-written loop's fault or its placed contacts, whatever strip locations were set before |
| GridLayout.PlaceSorted | vox_mother_converter.py:132-148 | the loop over the ascending contact numbers gives the as-written sorted layout's fault or its placed contacts |
| GridLayout.LayoutLead | vox_mother_converter.py:120-148 | laying out one lead gives exactly the as-written layout of that lead: a mixed-type or empty lead raises, otherwise every contact is placed |
| GridLayout.LayoutsOf | vox_mother_converter.py:120 | the as-written layout of every lead, by lead name |
| GridLayout.AddGridLoc | vox_mother_converter.py:114-148 | success iff every lead lays out as written, each lead then replaced by its layout under the same names; a fault is the layout fault of some lead |
| LeadBuilding.BuildLeads | vox_mother_converter.py:150-159 | a mother-file fault or a jacksheet fault ends the build with that fault; otherwise the build succeeds iff every lead lays out as written, with every lead replaced by its as-written layout, and fails with some lead's layout fault |
| LeadBuilding.LaidOutLead | vox_mother_converter.py:114-148 | a lead laid out as written keeps its contact numbers and only places each contact |
| LeadBuilding.BuiltLeadsPlaced | vox_mother_converter.py:150-159 | a successful build keeps every contact of the mother file under the lead and number of its name, changes only its jack number, location and group, and gives it a location and a group |

## Left out

- `submission/detection/artifact_detection.py` is not part of this model. It is floating-point signal processing through numerical libraries, and it writes files.
- The JSON index reader, the database root, the pipeline builders, the transferers and the pipelines are left out as implementations. Each is an input value: the index's query answers and per-kind outcomes. Their own exceptions are outcome values.
- The index lookups that can raise inside the index are not modelled:
  - `montage.split('.')[1]` for the subject alias;
  - `index.montages()[0]`;
  - `int()` of a remap value.

  The session entries and the alias function give their results directly.
- The index is assumed to give every subject at least one montage (`Automation.WellFormed`, required by the automator's constructor). For a subject without montages, `max(montages)` in the next-session phase raises ValueError and ends `populate_importers`; that failure is not modelled.
- Session numbers and original session numbers are integers in the model. The existing-sessions phase converts them with `int()`, but the next-session phase applies `max` and `+ 1` to the values the index returns, unconverted. If the index returns them as text, `max` would compare them as strings and `+ 1` would raise TypeError; neither is modelled.
- The importer's positional `*args` are left out. Only the keyword arguments are modelled.
- The `pipeline` and `transferer` objects are represented only by whether the builder succeeded (`initialized`).
- Importing.DescriptionOf: the text of `describe()` and `describe_errors()` is not modelled. That covers the label line listing the keyword arguments, the exception texts and the joining with newlines and separators. The model reports the status classification and the error lines as values.
- Automation.Automator.Describe: states the sentinel and the count. The order and content of the descriptions are stated by `Automation.ReportOf`, on the importers' states.
- File opening, `line.strip().split()` and the `print` warnings of `read_mother` and `add_jacksheet` are left out. That includes the skipped-lead list, which only affects printing. Lines arrive already split into fields.
- `file_locations`, the JSON output, the `__main__` blocks and the `test_`/`xtest_` functions are left out. They need files or a live index.
- `Contact` is a value, not an object changed in place. Each contact object is stored under exactly one lead and number, so no aliasing is lost.
- GridLayout.AddGridLoc: leads are visited in an unspecified order, as dictionary iteration gives them. On a fault, only the fault is returned. The leads the code had already changed in place before raising are not, which no caller sees, because `build_leads` lets the exception end the build.
- VoxMother.LeadsToDict: when two contacts of leads that are not well keyed share a name, the contract says only that the entry is the record of one of them. Which one wins depends on dictionary iteration order. Leads read from a mother file are always well keyed (`VoxMother.MotherLeadsShape`).
- Automation.MontagePlan, Automation.EventsPlan, Automation.SubjectFuturePlan, Automation.FuturePlan: their own contracts state only the length bound. What each keeps is stated per entry by `MontageImporterFor`, `CascadePolicy`, `CascadeKeepsOnlyWork` and `FutureImporterFor`.

## Findings

| source | as written | input that shows it | evidently intended | confidence | as-written member | corrected member |
|---|---|---|---|---|---|---|
| vox_mother_converter.py:133 | `previous_grid_size` is set from the first contact and never updated in the loop, so every contact is compared with the first contact's grid size | one grid lead with contacts 1 and 3 of size (2, 2) and contact 2 of size (1, 1): contact 2 opens group 1, and contact 3, matching the first size, stays in group 1 | a new group starts where the grid size changes from the previous contact's, so contact 3 opens group 2 and the contacts of a group share one grid size | high; not executed | GridLayout.AsWrittenMixesGridSizes | GridLayout.GroupsShareGridSize |
