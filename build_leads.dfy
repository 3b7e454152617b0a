/**
 * build_leads (vox_mother_converter.py:150-159): the leads read from the
 * mother file, with the jacksheet merged in and every lead laid out on its
 * grid. Each step raises on the first line or lead it cannot handle, and the
 * exception ends the whole build.
 */
module LeadBuilding {
  import opened Wrappers
  import opened VoxMother
  import opened GridLayout

  /** The step a build stopped in, with that step's fault. */
  datatype BuildFault =
    | MotherFault(mother: LineFault)
    | JacksheetFault(jacksheet: LineFault)
    | GridFault(grid: LayoutFault)

  /** `after` is `before` with every lead replaced by its layout. */
  predicate LaidOut(before: Leads, after: Leads)
  {
    && after.Keys == before.Keys
    && forall l :: l in before ==> LeadLayoutAsWritten(before[l]).Success? && after[l] == LeadLayoutAsWritten(before[l]).value
  }

  /**
   * `out` holds the same leads and contacts as `mother`, which differ at most
   * in the jack number, grid location and grid group the later steps fill in.
   */
  predicate FilledIn(mother: Leads, out: Leads)
  {
    && out.Keys == mother.Keys
    && (forall l :: l in mother ==> out[l].Keys == mother[l].Keys)
    && forall l, n :: l in mother && n in mother[l] ==>
         out[l][n] == mother[l][n].(jackNum := out[l][n].jackNum, gridLoc := out[l][n].gridLoc,
                                    gridGroup := out[l][n].gridGroup)
  }

  /**
   * build_leads: read_mother, then add_jacksheet, then add_grid_loc, the first
   * fault ending the build. Leads are laid out in an unspecified order, so a
   * build in which several leads fail reports the fault of one of them.
   */
  method BuildLeads(mother: seq<seq<string>>, jacksheet: seq<seq<string>>) returns (r: Result<Leads, BuildFault>)
    ensures MotherLeads(mother).Failure? ==> r == Failure(MotherFault(MotherLeads(mother).error))
    ensures MotherLeads(mother).Success? && Jacksheet(MotherLeads(mother).value, jacksheet).fault.Some? ==>
              r == Failure(JacksheetFault(Jacksheet(MotherLeads(mother).value, jacksheet).fault.value))
    ensures MotherLeads(mother).Success? && Jacksheet(MotherLeads(mother).value, jacksheet).fault.None? ==>
              var jacked := Jacksheet(MotherLeads(mother).value, jacksheet).leads;
              && (r.Success? <==> forall l :: l in jacked ==> LeadLayoutAsWritten(jacked[l]).Success?)
              && (r.Success? ==> LaidOut(jacked, r.value))
              && (r.Failure? ==> r.error.GridFault? && exists l :: l in jacked && LeadLayoutAsWritten(jacked[l]) == Failure(r.error.grid))
  {
    var read := ReadMother(mother);
    if read.Failure? {
      return Failure(MotherFault(read.error));
    }
    var jacked, fault := AddJacksheet(read.value, jacksheet);
    if fault.Some? {
      return Failure(JacksheetFault(fault.value));
    }
    var laid := AddGridLoc(jacked);
    if laid.Failure? {
      return Failure(GridFault(laid.error));
    }
    return Success(laid.value);
  }

  /** One laid-out lead keeps its contacts and their fields, and places each of them. */
  lemma LaidOutLead(lead: Lead, out: Lead)
    requires LeadLayoutAsWritten(lead).Success? && out == LeadLayoutAsWritten(lead).value
    ensures out.Keys == lead.Keys
    ensures forall n :: n in lead ==> IsPlacement(out[n], lead[n])
  {
  }

  /**
   * A successful build keeps every contact of the mother file under the slot
   * its name determines, changes nothing of it but the jack number, grid
   * location and grid group, and gives every contact a location and a group.
   */
  lemma {:induction false} BuiltLeadsPlaced(mother: seq<seq<string>>, jacksheet: seq<seq<string>>, out: Leads)
    requires MotherLeads(mother).Success?
    requires Jacksheet(MotherLeads(mother).value, jacksheet).fault.None?
    requires LaidOut(Jacksheet(MotherLeads(mother).value, jacksheet).leads, out)
    ensures WellKeyed(out)
    ensures forall l, n :: l in out && n in out[l] ==> out[l][n].gridLoc.Some? && out[l][n].gridGroup.Some?
    ensures FilledIn(MotherLeads(mother).value, out)
  {
    var read := MotherLeads(mother).value;
    var jacked := Jacksheet(read, jacksheet).leads;
    MotherLeadsShape(mother);
    JacksheetOnlySetsJacks(read, jacksheet);
    forall l | l in jacked
      ensures out[l].Keys == jacked[l].Keys
      ensures forall n :: n in jacked[l] ==> IsPlacement(out[l][n], jacked[l][n])
    {
      LaidOutLead(jacked[l], out[l]);
    }
    forall l, n | l in out && n in out[l]
      ensures Keyed(l, n, out[l][n])
    {
      assert Keyed(l, n, read[l][n]);
    }
  }
}
