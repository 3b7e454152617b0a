/**
 * The leads structure of vox_mother_converter.py: reading the
 * VOX_coords_mother listing, merging the jacksheet into it, and flattening it
 * into the contact-keyed dictionary that becomes voxel_coordinates.json.
 *
 * A file is the sequence of its lines, each line already split on
 * whitespace into fields. The nested `{lead_name: {contact_num: Contact}}`
 * dictionary is a map of maps of Contact values; the functions that mutate
 * it in place are methods that hand back the updated map.
 */
module VoxMother {
  import opened Wrappers
  import opened ContactNames

  /** One electrode contact (Contact, vox_mother_converter.py:17-30). */
  datatype Contact = Contact(
    name: string,
    num: nat,
    coords: seq<int>,
    ctype: string,
    gridSize: seq<int>,
    gridGroup: Option<int>,
    jackNum: Option<string>,
    gridLoc: Option<(int, int)>)

  /** The contacts of one lead, by contact number. */
  type Lead = map<nat, Contact>

  /** `{lead_name: {contact_num: contact}}`. */
  type Leads = map<string, Lead>

  /** Why reading a file stops: the exception a line raises. */
  datatype LineFault =
    | MissingField(line: nat, field: nat)    // IndexError on split_line[field]
    | NotAnInteger(line: nat, field: nat)    // ValueError from int(split_line[field])
    | UnmatchedName(line: nat)               // the name regex did not match

  /** `s[i:j]` with Python's clamping of out-of-range bounds. */
  function PySlice<T>(s: seq<T>, i: nat, j: nat): (r: seq<T>)
    requires i <= j
    ensures |r| == (if j <= |s| then j - i else if i <= |s| then |s| - i else 0)
    ensures forall k :: 0 <= k < |r| ==> r[k] == s[i + k]
  {
    if j <= |s| then s[i..j] else if i <= |s| then s[i..] else []
  }

  /**
   * `[int(x) for x in fields]`: every field as an integer, or the position of
   * the first field `int()` refuses.
   */
  function ParseInts(fields: seq<string>): (r: Result<seq<int>, nat>)
    ensures r.Success? ==>
              |r.value| == |fields| && forall i :: 0 <= i < |fields| ==> ParseInt(fields[i]) == Some(r.value[i])
    ensures r.Failure? ==>
              && r.error < |fields| && ParseInt(fields[r.error]).None?
              && forall i :: 0 <= i < r.error ==> ParseInt(fields[i]).Some?
    decreases |fields|
  {
    if fields == [] then Success([])
    else
      match ParseInt(fields[0])
      case None => Failure(0)
      case Some(v) =>
        match ParseInts(fields[1..])
        case Success(vs) => Success([v] + vs)
        case Failure(k) => Failure(k + 1)
  }

  /** A parsed mother line: the contact and the slot it goes to. */
  datatype MotherRow = MotherRow(lead: string, num: nat, contact: Contact)

  /**
   * The body of the loop of read_mother (vox_mother_converter.py:63-77) for
   * line number `line`: name, then coordinates, type and grid size, then the
   * name split, each failure raising where Python raises it.
   */
  function ParseMotherLine(line: nat, fields: seq<string>): (r: Result<MotherRow, LineFault>)
    ensures |fields| == 0 ==> r == Failure(MissingField(line, 0))
    ensures r.Success? <==>
              && |fields| >= 5
              && ParseInts(fields[1..4]).Success? && ParseInts(PySlice(fields, 5, 7)).Success?
              && SplitContactName(fields[0]).Some?
    ensures r.Success? ==>
              var c := r.value.contact;
              var split := SplitContactName(fields[0]).value;
              && c.name == fields[0] && c.ctype == fields[4]
              && |c.coords| == 3 && (forall i :: 0 <= i < 3 ==> ParseInt(fields[1 + i]) == Some(c.coords[i]))
              && |c.gridSize| == |PySlice(fields, 5, 7)|
              && (forall i :: 0 <= i < |c.gridSize| ==> ParseInt(fields[5 + i]) == Some(c.gridSize[i]))
              && r.value.lead == split.lead && r.value.num == c.num == DigitsValue(split.digits)
              && c.gridGroup.None? && c.jackNum.None? && c.gridLoc.None?
  {
    if |fields| == 0 then Failure(MissingField(line, 0))
    else
      match ParseInts(PySlice(fields, 1, 4))
      case Failure(k) => Failure(NotAnInteger(line, 1 + k))
      case Success(coords) =>
        if |fields| < 5 then Failure(MissingField(line, 4))
        else
          assert PySlice(fields, 1, 4) == fields[1..4];
          match ParseInts(PySlice(fields, 5, 7))
          case Failure(k) => Failure(NotAnInteger(line, 5 + k))
          case Success(size) =>
            match SplitContactName(fields[0])
            case None => Failure(UnmatchedName(line))
            case Some(split) =>
              var num := DigitsValue(split.digits);
              Success(MotherRow(split.lead, num, Contact(fields[0], num, coords, fields[4], size, None, None, None)))
  }

  /** `leads[lead_name]` on the defaultdict: an absent lead reads as an empty one. */
  function LeadOf(leads: Leads, lead: string): Lead
  {
    if lead in leads then leads[lead] else map[]
  }

  /** `leads[lead_name][contact_num] = contact`. */
  function Store(leads: Leads, row: MotherRow): (r: Leads)
    ensures r.Keys == leads.Keys + {row.lead}
    ensures r[row.lead].Keys == LeadOf(leads, row.lead).Keys + {row.num} && r[row.lead][row.num] == row.contact
    ensures forall l, n :: l in leads && n in leads[l] && (l, n) != (row.lead, row.num) ==>
              n in r[l] && r[l][n] == leads[l][n]
  {
    leads[row.lead := LeadOf(leads, row.lead)[row.num := row.contact]]
  }

  /** The leads read_mother returns for a file, or the fault of its first bad line. */
  function MotherLeads(lines: seq<seq<string>>): Result<Leads, LineFault>
    decreases |lines|
  {
    if lines == [] then Success(map[])
    else
      match MotherLeads(lines[..|lines| - 1])
      case Failure(f) => Failure(f)
      case Success(leads) =>
        match ParseMotherLine(|lines| - 1, lines[|lines| - 1])
        case Failure(f) => Failure(f)
        case Success(row) => Success(Store(leads, row))
  }

  /** read_mother (vox_mother_converter.py:54-79). */
  method ReadMother(lines: seq<seq<string>>) returns (r: Result<Leads, LineFault>)
    ensures r == MotherLeads(lines)
  {
    var leads: Leads := map[];
    var k := 0;
    while k < |lines|
      invariant 0 <= k <= |lines|
      invariant MotherLeads(lines[..k]) == Success(leads)
    {
      assert lines[..k + 1][..k] == lines[..k];
      var row := ParseMotherLine(k, lines[k]);
      if row.Failure? {
        assert MotherLeads(lines[..k + 1]) == Failure(row.error);
        MotherFaultPersists(lines, k + 1);
        return Failure(row.error);
      }
      leads := Store(leads, row.value);
      k := k + 1;
    }
    assert lines[..k] == lines;
    return Success(leads);
  }

  /** Once a line has raised, no later line is read. */
  lemma {:induction false} MotherFaultPersists(lines: seq<seq<string>>, k: nat)
    requires k <= |lines| && MotherLeads(lines[..k]).Failure?
    ensures MotherLeads(lines) == MotherLeads(lines[..k])
    decreases |lines| - k
  {
    if k < |lines| {
      assert lines[..k + 1][..k] == lines[..k];
      MotherFaultPersists(lines, k + 1);
    } else {
      assert lines[..k] == lines;
    }
  }

  /** Contact `c` sits under the lead and number its own name splits into. */
  predicate Keyed(lead: string, num: nat, c: Contact)
  {
    var s := SplitContactName(c.name);
    s.Some? && s.value.lead == lead && DigitsValue(s.value.digits) == num && c.num == num
  }

  /** Every contact sits under the slot its name determines. */
  predicate WellKeyed(leads: Leads)
  {
    forall l, n :: l in leads && n in leads[l] ==> Keyed(l, n, leads[l][n])
  }

  /** What read_mother leaves for the later steps to fill: no group, jack or location yet. */
  predicate Unplaced(leads: Leads)
  {
    forall l, n :: l in leads && n in leads[l] ==>
      leads[l][n].gridGroup.None? && leads[l][n].jackNum.None? && leads[l][n].gridLoc.None?
  }

  /**
   * The leads read from a mother file are well keyed, each lead holds at
   * least one contact, and no contact is placed or jacked yet.
   */
  lemma {:induction false} MotherLeadsShape(lines: seq<seq<string>>)
    requires MotherLeads(lines).Success?
    ensures var leads := MotherLeads(lines).value;
            && WellKeyed(leads) && Unplaced(leads)
            && forall l :: l in leads ==> leads[l] != map[]
    decreases |lines|
  {
    if lines != [] {
      var prefix := lines[..|lines| - 1];
      MotherLeadsShape(prefix);
      var row := ParseMotherLine(|lines| - 1, lines[|lines| - 1]).value;
      assert Keyed(row.lead, row.num, row.contact);
      StoreKeepsShape(MotherLeads(prefix).value, row);
    }
  }

  lemma StoreKeepsShape(leads: Leads, row: MotherRow)
    requires WellKeyed(leads) && Unplaced(leads) && forall l :: l in leads ==> leads[l] != map[]
    requires Keyed(row.lead, row.num, row.contact)
    requires row.contact.gridGroup.None? && row.contact.jackNum.None? && row.contact.gridLoc.None?
    ensures var r := Store(leads, row);
            WellKeyed(r) && Unplaced(r) && forall l :: l in r ==> r[l] != map[]
  {
    var r := Store(leads, row);
    forall l, n | l in r && n in r[l]
      ensures Keyed(l, n, r[l][n]) && r[l][n].gridGroup.None? && r[l][n].jackNum.None? && r[l][n].gridLoc.None?
    {
      if l == row.lead && n == row.num {
        assert r[l][n] == row.contact;
      } else {
        assert l in leads && n in leads[l];
        assert r[l][n] == leads[l][n];
      }
    }
  }

  /**
   * A later line for the same lead and number replaces the earlier contact:
   * the contact of line `i` survives exactly when no later line has its slot.
   */
  lemma {:induction false} MotherLastLineWins(lines: seq<seq<string>>, i: nat)
    requires MotherLeads(lines).Success? && i < |lines|
    requires ParseMotherLine(i, lines[i]).Success?
    requires var row := ParseMotherLine(i, lines[i]).value;
             forall j :: i < j < |lines| && ParseMotherLine(j, lines[j]).Success? ==>
               (ParseMotherLine(j, lines[j]).value.lead, ParseMotherLine(j, lines[j]).value.num) != (row.lead, row.num)
    ensures var row := ParseMotherLine(i, lines[i]).value;
            var leads := MotherLeads(lines).value;
            row.lead in leads && row.num in leads[row.lead] && leads[row.lead][row.num] == row.contact
    decreases |lines|
  {
    var prefix := lines[..|lines| - 1];
    var last := |lines| - 1;
    assert MotherLeads(lines) == Success(Store(MotherLeads(prefix).value, ParseMotherLine(last, lines[last]).value));
    if i < last {
      assert prefix[i] == lines[i];
      forall j | i < j < |prefix| && ParseMotherLine(j, prefix[j]).Success?
        ensures var row := ParseMotherLine(i, prefix[i]).value;
                (ParseMotherLine(j, prefix[j]).value.lead, ParseMotherLine(j, prefix[j]).value.num) != (row.lead, row.num)
      {
        assert prefix[j] == lines[j];
      }
      MotherLastLineWins(prefix, i);
    }
  }

  // ---------------------------------------------------------------------------
  // The jacksheet (vox_mother_converter.py:81-112)

  /**
   * One jacksheet line: too few fields raise; a name that does not split, a
   * lead not in the mother file or a number the lead lacks leaves the leads
   * as they are; otherwise the contact's jack number becomes the first field.
   */
  function JackLine(leads: Leads, line: nat, fields: seq<string>): (r: Result<Leads, LineFault>)
    ensures |fields| < 2 <==> r.Failure?
    ensures r.Failure? ==> r.error == MissingField(line, |fields|)
    ensures r.Success? ==> SameExceptJack(leads, r.value)
    ensures r.Success? && SplitContactName(fields[1]).None? ==> r.value == leads
    ensures r.Success? && SplitContactName(fields[1]).Some? ==>
              var s := SplitContactName(fields[1]).value;
              var num := DigitsValue(s.digits);
              && (s.lead !in leads || num !in leads[s.lead] ==> r.value == leads)
              && (s.lead in leads && num in leads[s.lead] ==>
                    && r.value[s.lead][num].jackNum == Some(fields[0])
                    && forall l, n :: l in leads && n in leads[l] && (l, n) != (s.lead, num) ==>
                         r.value[l][n] == leads[l][n])
  {
    if |fields| < 2 then Failure(MissingField(line, |fields|))
    else
      match SplitContactName(fields[1])
      case None => Success(leads)
      case Some(s) =>
        var num := DigitsValue(s.digits);
        if s.lead !in leads || num !in leads[s.lead] then Success(leads)
        else
          var r := leads[s.lead := leads[s.lead][num := leads[s.lead][num].(jackNum := Some(fields[0]))]];
          assert SameExceptJack(leads, r);
          Success(r)
  }

  /** `a` and `b` have the same leads and contacts, which differ at most in their jack numbers. */
  predicate SameExceptJack(a: Leads, b: Leads)
  {
    && a.Keys == b.Keys
    && (forall l :: l in a ==> a[l].Keys == b[l].Keys)
    && (forall l, n :: l in a && n in a[l] ==> n in b[l] && b[l][n] == a[l][n].(jackNum := b[l][n].jackNum))
  }

  lemma SameExceptJackTransitive(a: Leads, b: Leads, c: Leads)
    requires SameExceptJack(a, b) && SameExceptJack(b, c)
    ensures SameExceptJack(a, c)
  {
  }

  /** What add_jacksheet leaves behind: the updated leads, and the fault it raised, if any. */
  datatype JackOutcome = JackOutcome(leads: Leads, fault: Option<LineFault>)

  /**
   * The jacksheet applied line by line; a line that raises stops the loop and
   * leaves the updates of the lines before it in place.
   */
  function Jacksheet(leads: Leads, lines: seq<seq<string>>): JackOutcome
    decreases |lines|
  {
    if lines == [] then JackOutcome(leads, None)
    else
      var before := Jacksheet(leads, lines[..|lines| - 1]);
      if before.fault.Some? then before
      else
        match JackLine(before.leads, |lines| - 1, lines[|lines| - 1])
        case Failure(f) => JackOutcome(before.leads, Some(f))
        case Success(updated) => JackOutcome(updated, None)
  }

  /** add_jacksheet (vox_mother_converter.py:81-112). */
  method AddJacksheet(leads: Leads, lines: seq<seq<string>>) returns (updated: Leads, fault: Option<LineFault>)
    ensures JackOutcome(updated, fault) == Jacksheet(leads, lines)
  {
    updated := leads;
    var k := 0;
    while k < |lines|
      invariant 0 <= k <= |lines|
      invariant Jacksheet(leads, lines[..k]) == JackOutcome(updated, None)
    {
      assert lines[..k + 1][..k] == lines[..k];
      var step := JackLine(updated, k, lines[k]);
      if step.Failure? {
        JackFaultPersists(leads, lines, k + 1);
        return updated, Some(step.error);
      }
      updated := step.value;
      k := k + 1;
    }
    assert lines[..k] == lines;
    return updated, None;
  }

  /** Once a jacksheet line has raised, no later line is read. */
  lemma {:induction false} JackFaultPersists(leads: Leads, lines: seq<seq<string>>, k: nat)
    requires k <= |lines| && Jacksheet(leads, lines[..k]).fault.Some?
    ensures Jacksheet(leads, lines) == Jacksheet(leads, lines[..k])
    decreases |lines| - k
  {
    if k < |lines| {
      assert lines[..k + 1][..k] == lines[..k];
      JackFaultPersists(leads, lines, k + 1);
    } else {
      assert lines[..k] == lines;
    }
  }

  /** The jacksheet changes nothing but jack numbers, whether or not a line raises. */
  lemma {:induction false} JacksheetOnlySetsJacks(leads: Leads, lines: seq<seq<string>>)
    ensures SameExceptJack(leads, Jacksheet(leads, lines).leads)
    decreases |lines|
  {
    if lines == [] {
      assert SameExceptJack(leads, leads);
    } else {
      var before := Jacksheet(leads, lines[..|lines| - 1]);
      JacksheetOnlySetsJacks(leads, lines[..|lines| - 1]);
      if before.fault.None? {
        var step := JackLine(before.leads, |lines| - 1, lines[|lines| - 1]);
        if step.Success? {
          SameExceptJackTransitive(leads, before.leads, step.value);
        }
      }
    }
  }

  /** Changing only jack numbers keeps every contact under the slot of its name. */
  lemma SameExceptJackKeepsKeys(a: Leads, b: Leads)
    requires SameExceptJack(a, b) && WellKeyed(a)
    ensures WellKeyed(b)
  {
    forall l, n | l in b && n in b[l]
      ensures Keyed(l, n, b[l][n])
    {
      assert Keyed(l, n, a[l][n]);
    }
  }

  // ---------------------------------------------------------------------------
  // Flattening (vox_mother_converter.py:32-52)

  /** The JSON record of one contact: Contact.to_dict. */
  datatype ContactRecord = ContactRecord(
    ctype: string,
    gridSize: seq<int>,
    gridGroup: Option<int>,
    gridLoc: Option<(int, int)>,
    coordinates: seq<int>)

  function ToDict(c: Contact): ContactRecord
  {
    ContactRecord(c.ctype, c.gridSize, c.gridGroup, c.gridLoc, c.coords)
  }

  /** The names of the contacts of the given leads. */
  function NamesIn(leads: Leads, ls: set<string>): set<string>
  {
    set l, n | l in ls && l in leads && n in leads[l] :: leads[l][n].name
  }

  /** The contact of lead `l` and number `n` exists, is named `name` and is recorded as `rec`. */
  predicate RecordedFrom(leads: Leads, l: string, n: nat, name: string, rec: ContactRecord)
  {
    l in leads && n in leads[l] && leads[l][n].name == name && rec == ToDict(leads[l][n])
  }

  /** In well-keyed leads a name belongs to one slot only. */
  lemma WellKeyedNamesUnique(leads: Leads, l1: string, n1: nat, l2: string, n2: nat)
    requires WellKeyed(leads)
    requires l1 in leads && n1 in leads[l1] && l2 in leads && n2 in leads[l2]
    requires leads[l1][n1].name == leads[l2][n2].name
    ensures l1 == l2 && n1 == n2
  {
    assert Keyed(l1, n1, leads[l1][n1]) && Keyed(l2, n2, leads[l2][n2]);
  }

  /**
   * leads_to_dict: one entry per contact name, holding the record of a
   * contact of that name. Leads and contacts are visited in an unspecified
   * order, as Python 2 dictionaries are.
   */
  method LeadsToDict(leads: Leads) returns (out: map<string, ContactRecord>)
    ensures out.Keys == NamesIn(leads, leads.Keys)
    ensures forall name :: name in out ==> exists l, n :: RecordedFrom(leads, l, n, name, out[name])
    ensures WellKeyed(leads) ==>
              forall l, n :: l in leads && n in leads[l] ==> out[leads[l][n].name] == ToDict(leads[l][n])
  {
    out := map[];
    var todo := leads.Keys;
    while todo != {}
      invariant todo <= leads.Keys
      invariant out.Keys == NamesIn(leads, leads.Keys - todo)
      invariant forall name :: name in out ==> exists l, n :: RecordedFrom(leads, l, n, name, out[name])
      decreases todo
    {
      var l :| l in todo;
      out := AddLead(leads, l, out);
      todo := todo - {l};
      assert leads.Keys - todo == (leads.Keys - (todo + {l})) + {l};
    }
    if WellKeyed(leads) {
      forall l, n | l in leads && n in leads[l]
        ensures out[leads[l][n].name] == ToDict(leads[l][n])
      {
        var name := leads[l][n].name;
        assert name in NamesIn(leads, leads.Keys);
        var l2, n2 :| RecordedFrom(leads, l2, n2, name, out[name]);
        WellKeyedNamesUnique(leads, l, n, l2, n2);
      }
    }
  }

  /** The inner loop of leads_to_dict: every contact of lead `l` is written under its name. */
  method AddLead(leads: Leads, l: string, acc: map<string, ContactRecord>) returns (out: map<string, ContactRecord>)
    requires l in leads
    requires forall name :: name in acc ==> exists l, n :: RecordedFrom(leads, l, n, name, acc[name])
    ensures out.Keys == acc.Keys + NamesIn(leads, {l})
    ensures forall name :: name in out ==> exists l, n :: RecordedFrom(leads, l, n, name, out[name])
  {
    out := acc;
    var contacts := leads[l];
    var todo := contacts.Keys;
    while todo != {}
      invariant todo <= contacts.Keys
      invariant out.Keys == acc.Keys + (set n | n in contacts.Keys - todo :: contacts[n].name)
      invariant forall name :: name in out ==> exists l, n :: RecordedFrom(leads, l, n, name, out[name])
      decreases todo
    {
      var n :| n in todo;
      assert RecordedFrom(leads, l, n, contacts[n].name, ToDict(contacts[n]));
      out := out[contacts[n].name := ToDict(contacts[n])];
      todo := todo - {n};
      assert contacts.Keys - todo == (contacts.Keys - (todo + {n})) + {n};
    }
    assert NamesIn(leads, {l}) == (set n | n in contacts.Keys :: contacts[n].name);
  }
}
