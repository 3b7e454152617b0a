/**
 * add_grid_loc of vox_mother_converter.py (lines 114-148): the grid group and
 * grid location of every contact, lead by lead.
 *
 * Within a lead the contacts are visited in ascending number order with two
 * running counters, the group and the number the current group starts at. A
 * new group starts where a contact's grid size differs from the lead's first
 * contact's, or where the offset from the start reaches rows times columns.
 * The location is the offset split by the row count, with Python 2's
 * flooring `/` and `%`.
 */
module GridLayout {
  import opened Wrappers
  import opened VoxMother
  import ContactNames

  /** Python's `a / b` on ints: the quotient rounded toward negative infinity. */
  function PyDiv(a: int, b: int): int
    requires b != 0
  {
    if b > 0 || a % b == 0 then a / b else a / b - 1
  }

  /** Python's `a % b` on ints: the remainder takes the sign of the divisor. */
  function PyMod(a: int, b: int): int
    requires b != 0
  {
    if b > 0 || a % b == 0 then a % b else a % b + b
  }

  /** Floor division and its remainder recompose the dividend, the remainder lying between 0 and the divisor. */
  lemma PyDivMod(a: int, b: int)
    requires b != 0
    ensures a == b * PyDiv(a, b) + PyMod(a, b)
    ensures b > 0 ==> 0 <= PyMod(a, b) < b
    ensures b < 0 ==> b < PyMod(a, b) <= 0
  {
    if b < 0 && a % b != 0 {
      calc {
        b * PyDiv(a, b) + PyMod(a, b);
        b * (a / b - 1) + (a % b + b);
        { assert b * (a / b - 1) == b * (a / b) - b; }
        b * (a / b) + a % b;
      }
    }
  }


  /** The two counters of the loop at lines 134-148. */
  datatype Cursor = Cursor(group: int, start: int)

  /** `group = 0`, `start_num = 1` (lines 134-135). */
  const InitialCursor := Cursor(0, 1)

  /** Why add_grid_loc raises for a lead. */
  datatype LayoutFault =
    | EmptyLead                // types.pop() on an empty set
    | MixedTypes               // "Cannot convert lead with multiple types"
    | ShortGridSize(num: nat)  // grid_size has fewer than two entries
    | ZeroRows(num: nat)       // `%` by a zero row count

  /** The counters after a contact, and the contact's (row, column) location. */
  datatype Placement = Placement(cursor: Cursor, loc: (int, int))

  /**
   * Lines 139-148 for contact `num` of grid size `size`, where `previous` is
   * the grid size the contact is compared with.
   */
  function Advance(previous: seq<int>, cur: Cursor, num: nat, size: seq<int>): (r: Result<Placement, LayoutFault>)
    ensures |size| < 2 ==> r == Failure(ShortGridSize(num))
    ensures |size| >= 2 && size[0] == 0 ==> r == Failure(ZeroRows(num))
    ensures r.Success? <==> |size| >= 2 && size[0] != 0
    ensures r.Success? ==> cur.group <= r.value.cursor.group <= cur.group + 2
    ensures r.Success? ==>
              (r.value.cursor.group > cur.group <==> size != previous || num - cur.start >= size[0] * size[1])
    ensures r.Success? ==> r.value.cursor.start == cur.start || r.value.cursor.start == num
  {
    var afterSize := if size != previous then Cursor(cur.group + 1, num) else cur;
    if |size| < 2 then Failure(ShortGridSize(num))
    else
      var c := if num - afterSize.start >= size[0] * size[1] then Cursor(afterSize.group + 1, num) else afterSize;
      if size[0] == 0 then Failure(ZeroRows(num))
      else Success(Placement(c, (PyMod(num - c.start, size[0]), PyDiv(num - c.start, size[0]))))
  }

  /**
   * The two counter updates of lines 139-145, made one after the other, are
   * the step `Advance` takes.
   */
  lemma AdvanceByCounters(previous: seq<int>, group: int, start: int, num: nat, size: seq<int>,
                          group1: int, start1: int, group2: int, start2: int)
    requires |size| >= 2 && size[0] != 0
    requires group1 == (if size != previous then group + 1 else group)
    requires start1 == (if size != previous then num else start)
    requires group2 == (if num - start1 >= size[0] * size[1] then group1 + 1 else group1)
    requires start2 == (if num - start1 >= size[0] * size[1] then num else start1)
    ensures Advance(previous, Cursor(group, start), num, size)
            == Success(Placement(Cursor(group2, start2), (PyMod(num - start2, size[0]), PyDiv(num - start2, size[0]))))
  {
  }

  /** The contact with its grid location and group set (lines 147-148). */
  function Place(c: Contact, p: Placement): Contact
  {
    c.(gridLoc := Some(p.loc), gridGroup := Some(p.cursor.group))
  }

  /** Placing a contact overwrites whatever location it carried. */
  lemma PlaceOverwrites(c: Contact, d: Contact, p: Placement)
    requires d == c.(gridLoc := d.gridLoc)
    ensures Place(d, p) == Place(c, p)
  {
  }

  /** A contact number and the contact it keys. */
  type Entry = (nat, Contact)

  /**
   * The loop state after some of a lead's contacts: the counters, the grid
   * size the next contact is compared with, and the contacts placed so far.
   */
  datatype LayoutRun = LayoutRun(cursor: Cursor, previous: seq<int>, placed: Lead)

  /**
   * The loop of lines 136-148 over `entries`, starting from the grid size
   * `first`. With `tracksPrevious` false the compared size stays `first`, as
   * the code is written; with it true the compared size becomes each
   * contact's own, as the name `previous_grid_size` intends.
   */
  function LayoutFold(first: seq<int>, tracksPrevious: bool, entries: seq<Entry>): (r: Result<LayoutRun, LayoutFault>)
    ensures r.Failure? ==> r.error.ShortGridSize? || r.error.ZeroRows?
    decreases |entries|
  {
    if entries == [] then Success(LayoutRun(InitialCursor, first, map[]))
    else
      match LayoutFold(first, tracksPrevious, entries[..|entries| - 1])
      case Failure(f) => Failure(f)
      case Success(run) =>
        var e := entries[|entries| - 1];
        match Advance(run.previous, run.cursor, e.0, e.1.gridSize)
        case Failure(f) => Failure(f)
        case Success(p) =>
          Success(LayoutRun(p.cursor, if tracksPrevious then e.1.gridSize else run.previous, run.placed[e.0 := Place(e.1, p)]))
  }

  /** What the last entry adds to a successful run of the loop. */
  lemma FoldLast(first: seq<int>, tracksPrevious: bool, entries: seq<Entry>)
    requires entries != [] && LayoutFold(first, tracksPrevious, entries).Success?
    ensures var before := LayoutFold(first, tracksPrevious, entries[..|entries| - 1]);
            var e := entries[|entries| - 1];
            && before.Success?
            && Advance(before.value.previous, before.value.cursor, e.0, e.1.gridSize).Success?
            && var p := Advance(before.value.previous, before.value.cursor, e.0, e.1.gridSize).value;
            LayoutFold(first, tracksPrevious, entries)
            == Success(LayoutRun(p.cursor, if tracksPrevious then e.1.gridSize else before.value.previous,
                                 before.value.placed[e.0 := Place(e.1, p)]))
  {
  }

  /** One more entry runs one more step of the loop on the state the earlier entries left. */
  lemma FoldSnoc(first: seq<int>, tracksPrevious: bool, pre: seq<Entry>, e: Entry)
    requires LayoutFold(first, tracksPrevious, pre).Success?
    ensures var run := LayoutFold(first, tracksPrevious, pre).value;
            var a := Advance(run.previous, run.cursor, e.0, e.1.gridSize);
            LayoutFold(first, tracksPrevious, pre + [e])
            == if a.Failure? then Failure(a.error)
               else Success(LayoutRun(a.value.cursor, if tracksPrevious then e.1.gridSize else run.previous,
                                      run.placed[e.0 := Place(e.1, a.value)]))
  {
    assert (pre + [e])[..|pre|] == pre;
  }

  /** FoldSnoc on the prefixes of one list of entries. */
  lemma FoldNext(first: seq<int>, tracksPrevious: bool, entries: seq<Entry>, k: nat)
    requires k < |entries| && LayoutFold(first, tracksPrevious, entries[..k]).Success?
    ensures var run := LayoutFold(first, tracksPrevious, entries[..k]).value;
            var e := entries[k];
            var a := Advance(run.previous, run.cursor, e.0, e.1.gridSize);
            LayoutFold(first, tracksPrevious, entries[..k + 1])
            == if a.Failure? then Failure(a.error)
               else Success(LayoutRun(a.value.cursor, if tracksPrevious then e.1.gridSize else run.previous,
                                      run.placed[e.0 := Place(e.1, a.value)]))
  {
    assert entries[..k + 1] == entries[..k] + [entries[k]];
    FoldSnoc(first, tracksPrevious, entries[..k], entries[k]);
  }

  /** The prefix of every entry is the whole list. */
  lemma WholePrefix(entries: seq<Entry>, k: nat)
    requires k == |entries|
    ensures entries[..k] == entries
  {
  }

  /** A fault part-way through the loop is the fault of the whole loop. */
  lemma {:induction false} FoldFaultPersists(first: seq<int>, tracksPrevious: bool, entries: seq<Entry>, k: nat)
    requires k <= |entries| && LayoutFold(first, tracksPrevious, entries[..k]).Failure?
    ensures LayoutFold(first, tracksPrevious, entries) == LayoutFold(first, tracksPrevious, entries[..k])
    decreases |entries| - k
  {
    if k < |entries| {
      assert entries[..k + 1][..k] == entries[..k];
      FoldFaultPersists(first, tracksPrevious, entries, k + 1);
    } else {
      assert entries[..k] == entries;
    }
  }

  /** Contact numbers strictly ascending, as `sorted(lead.keys())` lists them. */
  predicate Ascending(entries: seq<Entry>)
  {
    forall i, j :: 0 <= i < j < |entries| ==> entries[i].0 < entries[j].0
  }

  /** The contact numbers of `entries`. */
  function NumsOf(entries: seq<Entry>): set<nat>
    decreases |entries|
  {
    if entries == [] then {} else NumsOf(entries[..|entries| - 1]) + {entries[|entries| - 1].0}
  }

  lemma {:induction false} NumsOfMembers(entries: seq<Entry>)
    ensures forall i :: 0 <= i < |entries| ==> entries[i].0 in NumsOf(entries)
    ensures forall n :: n in NumsOf(entries) ==> exists i :: 0 <= i < |entries| && entries[i].0 == n
    decreases |entries|
  {
    if entries != [] {
      var pre := entries[..|entries| - 1];
      NumsOfMembers(pre);
      forall i | 0 <= i < |pre|
        ensures entries[i] == pre[i]
      {
      }
    }
  }

  /** `out` is `c` with a grid location and group set and nothing else changed. */
  predicate IsPlacement(out: Contact, c: Contact)
  {
    && out.gridLoc.Some? && out.gridGroup.Some?
    && out == c.(gridLoc := out.gridLoc, gridGroup := out.gridGroup)
  }

  /** `placed` holds exactly the contacts of `entries`, each given a location and group. */
  predicate PlacedFrom(placed: Lead, entries: seq<Entry>)
  {
    && placed.Keys == NumsOf(entries)
    && forall i :: 0 <= i < |entries| ==> entries[i].0 in placed && IsPlacement(placed[entries[i].0], entries[i].1)
  }

  lemma PlacedFromStep(placed: Lead, pre: seq<Entry>, e: Entry, p: Placement)
    requires PlacedFrom(placed, pre) && forall i :: 0 <= i < |pre| ==> pre[i].0 != e.0
    ensures PlacedFrom(placed[e.0 := Place(e.1, p)], pre + [e])
  {
    var entries := pre + [e];
    var out := placed[e.0 := Place(e.1, p)];
    assert entries[..|entries| - 1] == pre;
    assert NumsOf(entries) == NumsOf(pre) + {e.0};
    forall i | 0 <= i < |entries|
      ensures entries[i].0 in out && IsPlacement(out[entries[i].0], entries[i].1)
    {
      if i < |pre| {
        assert entries[i] == pre[i];
        assert out[pre[i].0] == placed[pre[i].0];
      }
    }
  }

  lemma {:induction false} FoldPlaced(first: seq<int>, tracksPrevious: bool, entries: seq<Entry>)
    requires Ascending(entries) && LayoutFold(first, tracksPrevious, entries).Success?
    ensures PlacedFrom(LayoutFold(first, tracksPrevious, entries).value.placed, entries)
    decreases |entries|
  {
    if entries != [] {
      var pre := entries[..|entries| - 1];
      var e := entries[|entries| - 1];
      FoldLast(first, tracksPrevious, entries);
      FoldPlaced(first, tracksPrevious, pre);
      var before := LayoutFold(first, tracksPrevious, pre).value;
      var p := Advance(before.previous, before.cursor, e.0, e.1.gridSize).value;
      assert entries == pre + [e];
      PlacedFromStep(before.placed, pre, e, p);
    }
  }

  /**
   * The contacts of `entries` have groups between 0 and `top`, and a later
   * contact's group is at least an earlier one's.
   */
  predicate GroupsOrdered(placed: Lead, entries: seq<Entry>, top: int)
  {
    && top >= 0
    && (forall i :: 0 <= i < |entries| ==>
          entries[i].0 in placed && placed[entries[i].0].gridGroup.Some?
          && 0 <= placed[entries[i].0].gridGroup.value <= top)
    && (forall i, j :: 0 <= i < j < |entries| ==>
          (entries[i].0 in placed && entries[j].0 in placed
           && placed[entries[i].0].gridGroup.Some? && placed[entries[j].0].gridGroup.Some?)
          && placed[entries[i].0].gridGroup.value <= placed[entries[j].0].gridGroup.value)
  }

  lemma GroupsOrderedStep(placed: Lead, pre: seq<Entry>, top: int, e: Entry, p: Placement)
    requires GroupsOrdered(placed, pre, top) && forall i :: 0 <= i < |pre| ==> pre[i].0 != e.0
    requires top <= p.cursor.group
    ensures GroupsOrdered(placed[e.0 := Place(e.1, p)], pre + [e], p.cursor.group)
  {
    var entries := pre + [e];
    forall i | 0 <= i < |pre|
      ensures entries[i] == pre[i]
    {
    }
  }

  /** Over ascending contact numbers the groups never go down. */
  lemma {:induction false} FoldGroups(first: seq<int>, tracksPrevious: bool, entries: seq<Entry>)
    requires Ascending(entries) && LayoutFold(first, tracksPrevious, entries).Success?
    ensures var run := LayoutFold(first, tracksPrevious, entries).value;
            GroupsOrdered(run.placed, entries, run.cursor.group)
    decreases |entries|
  {
    if entries != [] {
      var pre := entries[..|entries| - 1];
      var e := entries[|entries| - 1];
      FoldLast(first, tracksPrevious, entries);
      FoldGroups(first, tracksPrevious, pre);
      var before := LayoutFold(first, tracksPrevious, pre).value;
      var p := Advance(before.previous, before.cursor, e.0, e.1.gridSize).value;
      assert entries == pre + [e];
      GroupsOrderedStep(before.placed, pre, before.cursor.group, e, p);
    }
  }

  /**
   * Contacts of `entries` that share a group share a grid size, and those in
   * group `top` have grid size `previous`.
   */
  predicate SizesShared(placed: Lead, entries: seq<Entry>, top: int, previous: seq<int>)
  {
    && (forall i :: 0 <= i < |entries| && entries[i].0 in placed && placed[entries[i].0].gridGroup == Some(top) ==>
          entries[i].1.gridSize == previous)
    && (forall i, j :: 0 <= i < |entries| && 0 <= j < |entries| && entries[i].0 in placed && entries[j].0 in placed
          && placed[entries[i].0].gridGroup == placed[entries[j].0].gridGroup
          ==> entries[i].1.gridSize == entries[j].1.gridSize)
  }

  lemma SizesSharedStep(placed: Lead, pre: seq<Entry>, top: int, previous: seq<int>, e: Entry, p: Placement)
    requires GroupsOrdered(placed, pre, top) && SizesShared(placed, pre, top, previous)
    requires forall i :: 0 <= i < |pre| ==> pre[i].0 != e.0
    requires top <= p.cursor.group && (p.cursor.group == top ==> e.1.gridSize == previous)
    ensures SizesShared(placed[e.0 := Place(e.1, p)], pre + [e], p.cursor.group, e.1.gridSize)
  {
    var entries := pre + [e];
    var after := placed[e.0 := Place(e.1, p)];
    forall i | 0 <= i < |pre|
      ensures entries[i] == pre[i] && after[entries[i].0] == placed[pre[i].0]
    {
    }
  }

  /** With the compared size following the contacts, a group never mixes grid sizes. */
  lemma {:induction false} FoldSizes(first: seq<int>, entries: seq<Entry>)
    requires Ascending(entries) && LayoutFold(first, true, entries).Success?
    ensures var run := LayoutFold(first, true, entries).value;
            SizesShared(run.placed, entries, run.cursor.group, run.previous)
    decreases |entries|
  {
    if entries != [] {
      var pre := entries[..|entries| - 1];
      var e := entries[|entries| - 1];
      FoldLast(first, true, entries);
      FoldSizes(first, pre);
      FoldGroups(first, true, pre);
      var before := LayoutFold(first, true, pre).value;
      var p := Advance(before.previous, before.cursor, e.0, e.1.gridSize).value;
      assert entries == pre + [e];
      SizesSharedStep(before.placed, pre, before.cursor.group, before.previous, e, p);
    }
  }

  /** A contact whose grid has positive rows and columns. */
  predicate Gridded(c: Contact)
  {
    |c.gridSize| >= 2 && c.gridSize[0] > 0 && c.gridSize[1] > 0
  }

  /** A contact whose location lies inside its grid. */
  predicate InGrid(c: Contact)
  {
    && |c.gridSize| >= 2 && c.gridLoc.Some?
    && 0 <= c.gridLoc.value.0 < c.gridSize[0]
    && 0 <= c.gridLoc.value.1 < c.gridSize[1]
  }

  /** An offset below rows times columns splits into a row below `rows` and a column below `cols`. */
  lemma SplitWithinGrid(offset: int, rows: int, cols: int)
    requires 0 <= offset < rows * cols && rows > 0
    ensures 0 <= PyMod(offset, rows) < rows && 0 <= PyDiv(offset, rows) < cols
  {
    PyDivMod(offset, rows);
  }

  /** A gridded contact whose number is at least the current start lands inside its grid. */
  lemma AdvanceWithinGrid(previous: seq<int>, cur: Cursor, num: nat, c: Contact)
    requires Gridded(c) && cur.start <= num
    ensures Advance(previous, cur, num, c.gridSize).Success?
    ensures var p := Advance(previous, cur, num, c.gridSize).value;
            p.cursor.start <= num && InGrid(Place(c, p))
  {
    var size := c.gridSize;
    assert size[0] * size[1] > 0;
    var p := Advance(previous, cur, num, size).value;
    SplitWithinGrid(num - p.cursor.start, size[0], size[1]);
  }

  predicate AllInGrid(placed: Lead, entries: seq<Entry>)
  {
    forall i :: 0 <= i < |entries| ==> entries[i].0 in placed && InGrid(placed[entries[i].0])
  }

  lemma AllInGridStep(placed: Lead, pre: seq<Entry>, e: Entry, c: Contact)
    requires AllInGrid(placed, pre) && InGrid(c) && forall i :: 0 <= i < |pre| ==> pre[i].0 != e.0
    ensures AllInGrid(placed[e.0 := c], pre + [e])
  {
    var entries := pre + [e];
    forall i | 0 <= i < |pre|
      ensures entries[i] == pre[i]
    {
    }
  }

  /** Ascending gridded contacts numbered from 1 all land inside their grids. */
  lemma {:induction false} FoldWithinGrid(first: seq<int>, tracksPrevious: bool, entries: seq<Entry>)
    requires Ascending(entries)
    requires forall i :: 0 <= i < |entries| ==> entries[i].0 >= 1 && Gridded(entries[i].1)
    ensures LayoutFold(first, tracksPrevious, entries).Success?
    ensures var run := LayoutFold(first, tracksPrevious, entries).value;
            && run.cursor.start <= (if entries == [] then 1 else entries[|entries| - 1].0)
            && AllInGrid(run.placed, entries)
    decreases |entries|
  {
    if entries != [] {
      var pre := entries[..|entries| - 1];
      var e := entries[|entries| - 1];
      FoldWithinGrid(first, tracksPrevious, pre);
      var before := LayoutFold(first, tracksPrevious, pre).value;
      if pre != [] {
        assert pre[|pre| - 1].0 < e.0;
      }
      AdvanceWithinGrid(before.previous, before.cursor, e.0, e.1);
      var p := Advance(before.previous, before.cursor, e.0, e.1.gridSize).value;
      assert entries == pre + [e];
      AllInGridStep(before.placed, pre, e, Place(e.1, p));
    }
  }

  /** The contact types of a lead: `set(contact.type for contact in lead.values())`. */
  function Types(lead: Lead): set<string>
  {
    set n | n in lead :: lead[n].ctype
  }

  /** A lead has no contact types exactly when it has no contacts. */
  lemma TypesOfEmpty(lead: Lead)
    ensures |Types(lead)| == 0 <==> lead == map[]
  {
    if lead != map[] {
      var n :| n in lead;
      assert lead[n].ctype in Types(lead);
    }
  }

  /** A non-empty lead whose contacts all have type `t` has the one type `t`. */
  lemma SingleType(lead: Lead, n0: nat, t: string)
    requires n0 in lead && forall n :: n in lead ==> lead[n].ctype == t
    ensures Types(lead) == {t} && |Types(lead)| == 1
  {
    assert lead[n0].ctype in Types(lead);
    assert Types(lead) == {t};
  }

  predicate IsMin(keys: set<nat>, m: nat)
  {
    forall x :: x in keys ==> m <= x
  }

  /** Some number of a non-empty set is at most every other. */
  lemma {:induction false} MinExists(keys: set<nat>)
    requires keys != {}
    ensures exists m :: m in keys && IsMin(keys, m)
    decreases |keys|
  {
    var y :| y in keys;
    var others := keys - {y};
    if others == {} {
      assert keys == {y};
      assert IsMin(keys, y);
    } else {
      MinExists(others);
      var m :| m in others && IsMin(others, m);
      var least := if y < m then y else m;
      forall x | x in keys
        ensures least <= x
      {
        if x != y {
          assert x in others;
        }
      }
      assert IsMin(keys, least);
    }
  }

  function SetMin(keys: set<nat>): (m: nat)
    requires keys != {}
    ensures m in keys && IsMin(keys, m)
  {
    MinExists(keys);
    var m :| m in keys && IsMin(keys, m);
    m
  }

  /** Putting the least number in front of the ascending rest keeps the list ascending and complete. */
  lemma SortedNumsStep(keys: set<nat>, m: nat, rest: seq<nat>)
    requires m in keys && IsMin(keys, m)
    requires |rest| == |keys - {m}|
    requires forall i :: 0 <= i < |rest| ==> rest[i] in keys - {m}
    requires forall x :: x in keys - {m} ==> x in rest
    requires forall i, j :: 0 <= i < j < |rest| ==> rest[i] < rest[j]
    ensures var r := [m] + rest;
            && |r| == |keys|
            && (forall i :: 0 <= i < |r| ==> r[i] in keys)
            && (forall x :: x in keys ==> x in r)
            && (forall i, j :: 0 <= i < j < |r| ==> r[i] < r[j])
  {
    var r := [m] + rest;
    forall i, j | 0 <= i < j < |r|
      ensures r[i] < r[j]
    {
      assert r[j] == rest[j - 1];
      if i > 0 {
        assert r[i] == rest[i - 1];
      }
    }
    forall x | x in keys
      ensures x in r
    {
      if x != m {
        assert x in rest;
      }
    }
  }

  /** `sorted(lead.keys())`: every contact number once, in ascending order. */
  function SortedNums(keys: set<nat>): (r: seq<nat>)
    ensures |r| == |keys|
    ensures forall i :: 0 <= i < |r| ==> r[i] in keys
    ensures forall x :: x in keys ==> x in r
    ensures forall i, j :: 0 <= i < j < |r| ==> r[i] < r[j]
    decreases keys
  {
    if keys == {} then []
    else
      var m := SetMin(keys);
      var rest := SortedNums(keys - {m});
      SortedNumsStep(keys, m, rest);
      [m] + rest
  }

  /** The entries of a lead for the numbers `nums`. */
  function EntriesOf(lead: Lead, nums: seq<nat>): (r: seq<Entry>)
    requires forall i :: 0 <= i < |nums| ==> nums[i] in lead
    ensures |r| == |nums| && forall i :: 0 <= i < |r| ==> r[i] == (nums[i], lead[nums[i]])
  {
    seq(|nums|, i requires 0 <= i < |nums| => (nums[i], lead[nums[i]]))
  }

  /** The entries for an ascending list of exactly a lead's numbers are ascending and number the whole lead. */
  lemma EntriesOfSorted(lead: Lead, nums: seq<nat>)
    requires forall i :: 0 <= i < |nums| ==> nums[i] in lead
    requires forall n :: n in lead ==> n in nums
    requires forall i, j :: 0 <= i < j < |nums| ==> nums[i] < nums[j]
    ensures Ascending(EntriesOf(lead, nums)) && NumsOf(EntriesOf(lead, nums)) == lead.Keys
  {
    var r := EntriesOf(lead, nums);
    NumsOfMembers(r);
    forall n | n in lead
      ensures n in NumsOf(r)
    {
      var i :| 0 <= i < |nums| && nums[i] == n;
      assert r[i].0 == n;
    }
  }

  /** The entries of a lead in ascending number order. */
  function SortedEntries(lead: Lead): (r: seq<Entry>)
    ensures |r| == |SortedNums(lead.Keys)|
    ensures forall i :: 0 <= i < |r| ==> r[i] == (SortedNums(lead.Keys)[i], lead[SortedNums(lead.Keys)[i]])
    ensures forall i :: 0 <= i < |r| ==> r[i].0 in lead && r[i].1 == lead[r[i].0]
    ensures Ascending(r) && NumsOf(r) == lead.Keys
  {
    var nums := SortedNums(lead.Keys);
    EntriesOfSorted(lead, nums);
    EntriesOf(lead, nums)
  }

  /** A lead whose entries are all placed is laid out contact by contact. */
  lemma PlacedCoversLead(lead: Lead, entries: seq<Entry>, placed: Lead)
    requires forall i :: 0 <= i < |entries| ==> entries[i].0 in lead && entries[i].1 == lead[entries[i].0]
    requires NumsOf(entries) == lead.Keys && PlacedFrom(placed, entries)
    ensures placed.Keys == lead.Keys
    ensures forall n :: n in lead ==> IsPlacement(placed[n], lead[n])
  {
    NumsOfMembers(entries);
    forall n | n in lead
      ensures IsPlacement(placed[n], lead[n])
    {
      var i :| 0 <= i < |entries| && entries[i].0 == n;
    }
  }

  /** The grid size of the first entry, which the first contact is compared with. */
  function FirstSize(entries: seq<Entry>): seq<int>
  {
    if entries == [] then [] else entries[0].1.gridSize
  }

  /** The loop of lines 133-148 over a lead's contacts in ascending number order. */
  function SortedLayout(lead: Lead, tracksPrevious: bool): Result<LayoutRun, LayoutFault>
  {
    var entries := SortedEntries(lead);
    LayoutFold(FirstSize(entries), tracksPrevious, entries)
  }

  /** After a successful loop every contact of the lead has a location and group and nothing else changed. */
  lemma SortedLayoutPlaced(lead: Lead, tracksPrevious: bool)
    requires SortedLayout(lead, tracksPrevious).Success?
    ensures var placed := SortedLayout(lead, tracksPrevious).value.placed;
            placed.Keys == lead.Keys && forall n :: n in lead ==> IsPlacement(placed[n], lead[n])
  {
    var entries := SortedEntries(lead);
    FoldPlaced(FirstSize(entries), tracksPrevious, entries);
    PlacedCoversLead(lead, entries, SortedLayout(lead, tracksPrevious).value.placed);
  }

  /**
   * The layout of one lead: a fault, or the lead with every contact given a
   * grid location and group and nothing else changed.
   */
  function LayoutWith(lead: Lead, tracksPrevious: bool): (r: Result<Lead, LayoutFault>)
    ensures r == Failure(MixedTypes) <==> |Types(lead)| > 1
    ensures r == Failure(EmptyLead) <==> lead == map[]
    ensures r.Success? ==> r.value.Keys == lead.Keys && forall n :: n in lead ==> IsPlacement(r.value[n], lead[n])
  {
    TypesOfEmpty(lead);
    if |Types(lead)| > 1 then Failure(MixedTypes)
    else if |Types(lead)| == 0 then Failure(EmptyLead)
    else
      match SortedLayout(lead, tracksPrevious)
      case Failure(f) => Failure(f)
      case Success(run) =>
        SortedLayoutPlaced(lead, tracksPrevious);
        Success(run.placed)
  }

  /** A successful layout is the loop's result over the lead's ascending entries. */
  lemma LayoutWithRun(lead: Lead, tracksPrevious: bool)
    requires LayoutWith(lead, tracksPrevious).Success?
    ensures |Types(lead)| == 1
    ensures SortedLayout(lead, tracksPrevious).Success?
    ensures LayoutWith(lead, tracksPrevious).value == SortedLayout(lead, tracksPrevious).value.placed
  {
  }

  /** add_grid_loc on one lead as written: every contact is compared with the first contact's grid size. */
  function LeadLayoutAsWritten(lead: Lead): Result<Lead, LayoutFault>
  {
    LayoutWith(lead, false)
  }

  /** add_grid_loc on one lead with `previous_grid_size` following the contacts. */
  function LeadLayout(lead: Lead): Result<Lead, LayoutFault>
  {
    LayoutWith(lead, true)
  }

  /** GroupsOrdered over ascending entries orders the groups by contact number. */
  lemma GroupsByNumber(entries: seq<Entry>, placed: Lead, top: int)
    requires Ascending(entries) && PlacedFrom(placed, entries) && GroupsOrdered(placed, entries, top)
    ensures forall a, b :: a in placed && b in placed && a < b ==>
              && placed[a].gridGroup.Some? && placed[b].gridGroup.Some?
              && 0 <= placed[a].gridGroup.value <= placed[b].gridGroup.value
  {
    NumsOfMembers(entries);
    forall a, b | a in placed && b in placed && a < b
      ensures && placed[a].gridGroup.Some? && placed[b].gridGroup.Some?
              && 0 <= placed[a].gridGroup.value <= placed[b].gridGroup.value
    {
      var i :| 0 <= i < |entries| && entries[i].0 == a;
      var j :| 0 <= j < |entries| && entries[j].0 == b;
      assert i < j;
    }
  }

  /** In a laid-out lead no group is negative and a higher contact number never has a lower group. */
  lemma LayoutGroupsOrdered(lead: Lead, tracksPrevious: bool)
    requires LayoutWith(lead, tracksPrevious).Success?
    ensures var out := LayoutWith(lead, tracksPrevious).value;
            forall a, b :: a in out && b in out && a < b ==>
              0 <= out[a].gridGroup.value <= out[b].gridGroup.value
  {
    LayoutWithRun(lead, tracksPrevious);
    var entries := SortedEntries(lead);
    var run := SortedLayout(lead, tracksPrevious).value;
    FoldGroups(FirstSize(entries), tracksPrevious, entries);
    FoldPlaced(FirstSize(entries), tracksPrevious, entries);
    GroupsByNumber(entries, run.placed, run.cursor.group);
  }

  /** SizesShared over placed entries: contacts of one group have one grid size. */
  lemma SizesByNumber(entries: seq<Entry>, placed: Lead, top: int, previous: seq<int>)
    requires PlacedFrom(placed, entries) && SizesShared(placed, entries, top, previous)
    ensures forall a, b :: a in placed && b in placed && placed[a].gridGroup == placed[b].gridGroup ==>
              placed[a].gridSize == placed[b].gridSize
  {
    NumsOfMembers(entries);
    forall a, b | a in placed && b in placed && placed[a].gridGroup == placed[b].gridGroup
      ensures placed[a].gridSize == placed[b].gridSize
    {
      var i :| 0 <= i < |entries| && entries[i].0 == a;
      var j :| 0 <= j < |entries| && entries[j].0 == b;
      assert IsPlacement(placed[a], entries[i].1) && IsPlacement(placed[b], entries[j].1);
    }
  }

  /** With `previous_grid_size` following the contacts, a group never mixes grid sizes. */
  lemma GroupsShareGridSize(lead: Lead)
    requires LeadLayout(lead).Success?
    ensures var out := LeadLayout(lead).value;
            forall a, b :: a in out && b in out && out[a].gridGroup == out[b].gridGroup ==>
              out[a].gridSize == out[b].gridSize
  {
    LayoutWithRun(lead, true);
    var entries := SortedEntries(lead);
    var run := SortedLayout(lead, true).value;
    FoldSizes(FirstSize(entries), entries);
    FoldPlaced(FirstSize(entries), true, entries);
    SizesByNumber(entries, run.placed, run.cursor.group, run.previous);
  }

  /**
   * A lead of one type whose contacts are numbered from 1 and have positive
   * grid dimensions lays out, and every contact's location lies inside its grid.
   */
  lemma LayoutWithinGrid(lead: Lead, tracksPrevious: bool)
    requires lead != map[]
    requires forall a, b :: a in lead && b in lead ==> lead[a].ctype == lead[b].ctype
    requires forall n :: n in lead ==> n >= 1 && Gridded(lead[n])
    ensures LayoutWith(lead, tracksPrevious).Success?
    ensures var out := LayoutWith(lead, tracksPrevious).value;
            forall n :: n in out ==> InGrid(out[n])
  {
    var n0 :| n0 in lead;
    SingleType(lead, n0, lead[n0].ctype);
    SortedLayoutWithinGrid(lead, tracksPrevious);
    LayoutWithOfRun(lead, tracksPrevious);
  }

  lemma SortedLayoutWithinGrid(lead: Lead, tracksPrevious: bool)
    requires forall n :: n in lead ==> n >= 1 && Gridded(lead[n])
    ensures SortedLayout(lead, tracksPrevious).Success?
    ensures var out := SortedLayout(lead, tracksPrevious).value.placed;
            forall n :: n in out ==> InGrid(out[n])
  {
    var entries := SortedEntries(lead);
    assert forall i :: 0 <= i < |entries| ==> entries[i].0 >= 1 && Gridded(entries[i].1);
    FoldWithinGrid(FirstSize(entries), tracksPrevious, entries);
    FoldPlaced(FirstSize(entries), tracksPrevious, entries);
    InGridByNumber(entries, SortedLayout(lead, tracksPrevious).value.placed);
  }

  /** A lead of one type whose loop succeeds lays out as the loop placed it. */
  lemma LayoutWithOfRun(lead: Lead, tracksPrevious: bool)
    requires |Types(lead)| == 1 && SortedLayout(lead, tracksPrevious).Success?
    ensures LayoutWith(lead, tracksPrevious) == Success(SortedLayout(lead, tracksPrevious).value.placed)
  {
  }

  lemma InGridByNumber(entries: seq<Entry>, placed: Lead)
    requires AllInGrid(placed, entries) && placed.Keys == NumsOf(entries)
    ensures forall n :: n in placed ==> InGrid(placed[n])
  {
    NumsOfMembers(entries);
    forall n | n in placed
      ensures InGrid(placed[n])
    {
      var i :| 0 <= i < |entries| && entries[i].0 == n;
    }
  }

  /** Python's flooring puts -1 in row `rows - 1` of column -1. */
  lemma MinusOneSplit(rows: int)
    requires rows > 0
    ensures PyMod(-1, rows) == rows - 1 && PyDiv(-1, rows) == -1
  {
    PyDivMod(-1, rows);
  }

  /**
   * Contact 0 sits before the initial start number 1, so its offset is -1 and
   * Python's flooring puts it at row `rows - 1`, column -1, outside its grid.
   */
  lemma ContactZeroLocation(c: Contact, tracksPrevious: bool)
    requires Gridded(c)
    ensures LayoutWith(map[0 := c], tracksPrevious)
            == Success(map[0 := c.(gridLoc := Some((c.gridSize[0] - 1, -1)), gridGroup := Some(0))])
  {
    var lead := map[0 := c];
    SingleType(lead, 0, c.ctype);
    var nums := SortedNums(lead.Keys);
    assert |nums| == 1 && nums[0] in lead.Keys;
    var entries := SortedEntries(lead);
    assert entries == [(0, c)];
    assert entries[..0] == [];
    assert c.gridSize[0] * c.gridSize[1] > 0;
    MinusOneSplit(c.gridSize[0]);
    var p := Placement(InitialCursor, (c.gridSize[0] - 1, -1));
    assert FirstSize(entries) == c.gridSize;
    assert LayoutFold(c.gridSize, tracksPrevious, []) == Success(LayoutRun(InitialCursor, c.gridSize, map[]));
    assert Advance(c.gridSize, InitialCursor, 0, c.gridSize) == Success(p);
    assert SortedLayout(lead, tracksPrevious) == Success(LayoutRun(InitialCursor, c.gridSize, map[0 := Place(c, p)]));
    LayoutWithOfRun(lead, tracksPrevious);
  }

  /** A grid contact of the given number and grid size. */
  function GridContact(name: string, num: nat, size: seq<int>): Contact
  {
    Contact(name, num, [], "G", size, None, None, None)
  }

  const C1 := GridContact("G1", 1, [2, 2])
  const C2 := GridContact("G2", 2, [1, 1])
  const C3 := GridContact("G3", 3, [2, 2])

  /** Contacts 1 and 3 on a 2x2 grid, contact 2 on a 1x1 grid. */
  function MixedSizeLead(): Lead
  {
    map[1 := C1, 2 := C2, 3 := C3]
  }

  /** The only ascending list of exactly the numbers 1, 2 and 3. */
  lemma AscendingOneTwoThree(keys: set<nat>, nums: seq<nat>)
    requires keys == {1, 2, 3} && |nums| == |keys|
    requires forall i :: 0 <= i < |nums| ==> nums[i] in keys
    requires forall i, j :: 0 <= i < j < |nums| ==> nums[i] < nums[j]
    ensures nums == [1, 2, 3]
  {
    assert |keys| == 3;
    assert nums[0] in keys && nums[1] in keys && nums[2] in keys;
    assert nums[0] < nums[1] < nums[2];
  }

  lemma SortedNumsOfThree(keys: set<nat>)
    requires keys == {1, 2, 3}
    ensures SortedNums(keys) == [1, 2, 3]
  {
    AscendingOneTwoThree(keys, SortedNums(keys));
  }

  /** A list of three entries, for the numbers 1, 2 and 3 in that order. */
  lemma EntriesInOrder(lead: Lead, nums: seq<nat>, r: seq<Entry>)
    requires nums == [1, 2, 3] && 1 in lead && 2 in lead && 3 in lead
    requires |r| == |nums| && forall i :: 0 <= i < |r| ==> r[i] == (nums[i], lead[nums[i]])
    ensures r == [(1, lead[1]), (2, lead[2]), (3, lead[3])]
  {
    assert r[0] == (1, lead[1]) && r[1] == (2, lead[2]) && r[2] == (3, lead[3]);
  }

  lemma SortedEntriesOfThree(lead: Lead)
    requires lead.Keys == {1, 2, 3}
    ensures SortedEntries(lead) == [(1, lead[1]), (2, lead[2]), (3, lead[3])]
  {
    SortedNumsOfThree(lead.Keys);
    EntriesInOrder(lead, SortedNums(lead.Keys), SortedEntries(lead));
  }

  lemma MixedSizeLeadTypes(lead: Lead)
    requires lead == MixedSizeLead()
    ensures |Types(lead)| == 1
  {
    SingleType(lead, 1, "G");
  }

  /**
   * The loop over the counterexample's contacts: contact 2 opens group 1;
   * contact 3 stays in it as written, and opens group 2 when the compared size
   * follows the contacts.
   */
  lemma CounterexampleRun(tracksPrevious: bool)
    ensures var run := LayoutFold([2, 2], tracksPrevious, [(1, C1), (2, C2), (3, C3)]);
            && run.Success?
            && 2 in run.value.placed && run.value.placed[2].gridGroup == Some(1)
            && 3 in run.value.placed && run.value.placed[3].gridGroup == Some(if tracksPrevious then 2 else 1)
  {
    var s0: seq<Entry> := [];
    var s1 := s0 + [(1, C1)];
    var s2 := s1 + [(2, C2)];
    var s3 := s2 + [(3, C3)];
    assert s3 == [(1, C1), (2, C2), (3, C3)];
    FoldSnoc([2, 2], tracksPrevious, s0, (1, C1));
    assert Advance([2, 2], Cursor(0, 1), 1, [2, 2]) == Success(Placement(Cursor(0, 1), (0, 0)));
    var r1 := LayoutFold([2, 2], tracksPrevious, s1).value;
    assert r1.cursor == Cursor(0, 1) && r1.previous == [2, 2];
    FoldSnoc([2, 2], tracksPrevious, s1, (2, C2));
    assert [1, 1] != [2, 2] by {
      assert [1, 1][0] != [2, 2][0];
    }
    assert Advance([2, 2], Cursor(0, 1), 2, [1, 1]) == Success(Placement(Cursor(1, 2), (0, 0)));
    var r2 := LayoutFold([2, 2], tracksPrevious, s2).value;
    assert r2.cursor == Cursor(1, 2) && r2.placed[2].gridGroup == Some(1);
    FoldSnoc([2, 2], tracksPrevious, s2, (3, C3));
    if tracksPrevious {
      assert r2.previous == [1, 1];
      assert Advance([1, 1], Cursor(1, 2), 3, [2, 2]) == Success(Placement(Cursor(2, 3), (0, 0)));
    } else {
      assert r2.previous == [2, 2];
      assert Advance([2, 2], Cursor(1, 2), 3, [2, 2]) == Success(Placement(Cursor(1, 2), (1, 0)));
    }
  }

  /** The counterexample lead is laid out by the loop over its three contacts in order. */
  lemma MixedSizeLayout(lead: Lead, tracksPrevious: bool)
    requires lead == MixedSizeLead()
    ensures LayoutFold([2, 2], tracksPrevious, [(1, C1), (2, C2), (3, C3)]).Success?
    ensures LayoutWith(lead, tracksPrevious)
            == Success(LayoutFold([2, 2], tracksPrevious, [(1, C1), (2, C2), (3, C3)]).value.placed)
  {
    assert lead.Keys == {1, 2, 3};
    SortedEntriesOfThree(lead);
    MixedSizeLeadTypes(lead);
    CounterexampleRun(tracksPrevious);
    LayoutWithOfRun(lead, tracksPrevious);
  }

  /**
   * As written, contact 3 returns to the first contact's grid size and so
   * stays in contact 2's group although their grid sizes differ.
   */
  lemma AsWrittenMixesGridSizes()
    ensures var out := LeadLayoutAsWritten(MixedSizeLead());
            && out.Success? && 2 in out.value && 3 in out.value
            && out.value[2].gridGroup == out.value[3].gridGroup == Some(1)
            && out.value[2].gridSize != out.value[3].gridSize
  {
    MixedSizeLayout(MixedSizeLead(), false);
    CounterexampleRun(false);
    assert [1, 1][0] != [2, 2][0];
  }

  /** With the compared size following the contacts, contact 3 opens a group of its own. */
  lemma CorrectedSeparatesGridSizes()
    ensures var out := LeadLayout(MixedSizeLead());
            && out.Success? && 2 in out.value && 3 in out.value
            && out.value[2].gridGroup == Some(1) && out.value[3].gridGroup == Some(2)
  {
    MixedSizeLayout(MixedSizeLead(), true);
    CounterexampleRun(true);
  }

  /** Lines 127-130: strip and depth contacts get location (1, num); nothing else changes. */
  method SetStripLocations(lead: Lead) returns (current: Lead)
    ensures current.Keys == lead.Keys
    ensures forall n :: n in lead ==> current[n] == lead[n].(gridLoc := Some((1, lead[n].num)))
  {
    current := lead;
    var todo := lead.Keys;
    while todo != {}
      invariant todo <= lead.Keys && current.Keys == lead.Keys
      invariant forall n :: n in todo ==> current[n] == lead[n]
      invariant forall n :: n in lead && n !in todo ==> current[n] == lead[n].(gridLoc := Some((1, lead[n].num)))
      decreases todo
    {
      var n :| n in todo;
      current := current[n := current[n].(gridLoc := Some((1, current[n].num)))];
      todo := todo - {n};
    }
  }

  /**
   * The body of the loop of lines 136-148 for one contact: the counter
   * updates of lines 139-145, the faults a short or zero-row grid size raises,
   * and the location and group lines 147-148 give the contact.
   */
  method PlaceContact(previous: seq<int>, cur: Cursor, num: nat, contact: Contact)
    returns (r: Result<(Cursor, Contact), LayoutFault>)
    ensures Advance(previous, cur, num, contact.gridSize).Failure? ==>
              r == Failure(Advance(previous, cur, num, contact.gridSize).error)
    ensures Advance(previous, cur, num, contact.gridSize).Success? ==>
              var p := Advance(previous, cur, num, contact.gridSize).value;
              r == Success((p.cursor, Place(contact, p)))
  {
    var size := contact.gridSize;
    var group, start := cur.group, cur.start;
    if size != previous {
      group := group + 1;
      start := num;
    }
    ghost var group1, start1 := group, start;
    if |size| < 2 {
      return Failure(ShortGridSize(num));
    }
    if num - start >= size[0] * size[1] {
      group := group + 1;
      start := num;
    }
    if size[0] == 0 {
      return Failure(ZeroRows(num));
    }
    var offset := num - start;
    var loc := (PyMod(offset, size[0]), PyDiv(offset, size[0]));
    AdvanceByCounters(previous, cur.group, cur.start, num, size, group1, start1, group, start);
    return Success((Cursor(group, start), contact.(gridLoc := Some(loc), gridGroup := Some(group))));
  }

  /**
   * The loop of lines 136-148 as written, over the numbers `nums` in their
   * order, reading contacts from `current`, which may already carry a
   * location. `previous_grid_size` keeps the first contact's grid size.
   */
  method PlaceInOrder(lead: Lead, current: Lead, nums: seq<nat>) returns (r: Result<Lead, LayoutFault>)
    requires |nums| > 0 && forall i :: 0 <= i < |nums| ==> nums[i] in lead
    requires forall n :: n in lead ==> n in current && current[n] == lead[n].(gridLoc := current[n].gridLoc)
    ensures var run := LayoutFold(lead[nums[0]].gridSize, false, EntriesOf(lead, nums));
            && (run.Failure? ==> r == Failure(run.error))
            && (run.Success? ==> r == Success(run.value.placed))
  {
    ghost var entries := EntriesOf(lead, nums);
    var previous := current[nums[0]].gridSize;  // `previous_grid_size` (line 133)
    ghost var first := previous;
    var cursor := InitialCursor;
    var placed: Lead := map[];
    var k := 0;
    while k < |nums|
      invariant 0 <= k <= |nums|
      invariant previous == first
      invariant LayoutFold(first, false, entries[..k]) == Success(LayoutRun(cursor, previous, placed))
    {
      var num := nums[k];
      var contact := current[num];
      assert entries[k] == (num, lead[num]) && contact.gridSize == lead[num].gridSize;
      var step := PlaceContact(previous, cursor, num, contact);
      FoldNext(first, false, entries, k);
      if step.Failure? {
        FoldFaultPersists(first, false, entries, k + 1);
        return Failure(step.error);
      }
      PlaceOverwrites(lead[num], contact, Advance(previous, cursor, num, contact.gridSize).value);
      cursor := step.value.0;
      placed := placed[num := step.value.1];
      k := k + 1;
    }
    WholePrefix(entries, k);
    return Success(placed);
  }

  /** Lines 132-148 as written, over the contacts in ascending number order. */
  method PlaceSorted(lead: Lead, current: Lead) returns (r: Result<Lead, LayoutFault>)
    requires lead != map[] && current.Keys == lead.Keys
    requires forall n :: n in lead ==> current[n] == lead[n].(gridLoc := current[n].gridLoc)
    ensures SortedLayout(lead, false).Failure? ==> r == Failure(SortedLayout(lead, false).error)
    ensures SortedLayout(lead, false).Success? ==> r == Success(SortedLayout(lead, false).value.placed)
  {
    var nums := SortedNums(lead.Keys);
    assert SortedEntries(lead) == EntriesOf(lead, nums);
    assert FirstSize(SortedEntries(lead)) == lead[nums[0]].gridSize;
    r := PlaceInOrder(lead, current, nums);
  }

  /** One lead of add_grid_loc (lines 121-148), as written. */
  method LayoutLead(lead: Lead) returns (r: Result<Lead, LayoutFault>)
    ensures r == LeadLayoutAsWritten(lead)
  {
    var types := set n | n in lead :: lead[n].ctype;
    assert types == Types(lead);
    if |types| > 1 {
      return Failure(MixedTypes);
    }
    TypesOfEmpty(lead);
    if |types| == 0 {
      return Failure(EmptyLead);
    }
    var ctype :| ctype in types;
    var current := lead;
    if ctype != "G" {
      current := SetStripLocations(lead);
    }
    r := PlaceSorted(lead, current);
    if r.Success? {
      LayoutWithOfRun(lead, false);
    }
  }

  /** The layout of every lead, by lead name. */
  function LayoutsOf(leads: Leads): (r: map<string, Result<Lead, LayoutFault>>)
    ensures r.Keys == leads.Keys && forall l :: l in leads ==> r[l] == LeadLayoutAsWritten(leads[l])
  {
    map l | l in leads :: LeadLayoutAsWritten(leads[l])
  }

  /**
   * The leads not in `todo` are replaced by their successful layouts and the
   * others are as they were.
   */
  predicate LaidOutExcept(leads: Leads, layouts: map<string, Result<Lead, LayoutFault>>, updated: Leads, todo: set<string>)
  {
    && todo <= leads.Keys && updated.Keys == leads.Keys && layouts.Keys == leads.Keys
    && (forall l :: l in leads && l !in todo ==> layouts[l].Success? && updated[l] == layouts[l].value)
    && (forall l :: l in todo ==> updated[l] == leads[l])
  }

  lemma LaidOutStep(leads: Leads, layouts: map<string, Result<Lead, LayoutFault>>, updated: Leads,
                    todo: set<string>, l: string, laid: Lead)
    requires LaidOutExcept(leads, layouts, updated, todo) && l in todo && layouts[l] == Success(laid)
    ensures LaidOutExcept(leads, layouts, updated[l := laid], todo - {l})
  {
  }

  /**
   * add_grid_loc (lines 114-148) over every lead, in no particular order: on
   * success each lead is replaced by its layout; otherwise the fault is that of
   * some lead.
   */
  method AddGridLoc(leads: Leads) returns (r: Result<Leads, LayoutFault>)
    ensures r.Success? <==> forall l :: l in leads ==> LeadLayoutAsWritten(leads[l]).Success?
    ensures r.Success? ==>
              && r.value.Keys == leads.Keys
              && forall l :: l in leads ==> r.value[l] == LeadLayoutAsWritten(leads[l]).value
    ensures r.Failure? ==> exists l :: l in leads && LeadLayoutAsWritten(leads[l]) == Failure(r.error)
  {
    ghost var layouts := LayoutsOf(leads);
    var updated := leads;
    var todo := leads.Keys;
    while todo != {}
      invariant LaidOutExcept(leads, layouts, updated, todo)
      decreases todo
    {
      var l :| l in todo;
      var laid := LayoutLead(updated[l]);
      if laid.Failure? {
        return Failure(laid.error);
      }
      LaidOutStep(leads, layouts, updated, todo, l, laid.value);
      updated := updated[l := laid.value];
      todo := todo - {l};
    }
    return Success(updated);
  }
}
