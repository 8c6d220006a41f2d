/** The clinic switcher: a fixed list of clinics and the one currently selected. */
module ClinicSwitcher {
  import opened Util

  datatype Clinic = Clinic(id: string, name: string, email: Option<string>)

  /** The list the switcher is seeded with. */
  function DemoClinics(): (r: seq<Clinic>)
    ensures |r| == 3
  {
    [ Clinic("clinic-1", "Downtown Clinic", Some("downtown@clinic.com")),
      Clinic("clinic-2", "Uptown Clinic", Some("uptown@clinic.com")),
      Clinic("clinic-3", "Westside Clinic", Some("westside@clinic.com")) ]
  }

  /** `clinics.find(c => c.id === id)`: the first clinic with this id. */
  function FindById(clinics: seq<Clinic>, id: string): (r: Option<Clinic>)
    ensures r.None? <==> forall i :: 0 <= i < |clinics| ==> clinics[i].id != id
    ensures r.Some? ==> exists k :: 0 <= k < |clinics| && clinics[k] == r.value && r.value.id == id &&
                                    forall j :: 0 <= j < k ==> clinics[j].id != id
  {
    if clinics == [] then None
    else if clinics[0].id == id then Some(clinics[0])
    else
      var r := FindById(clinics[1..], id);
      assert forall i :: 1 <= i < |clinics| ==> clinics[i] == clinics[1..][i - 1];
      if r.Some? then
        var k :| 0 <= k < |clinics[1..]| && clinics[1..][k] == r.value && r.value.id == id &&
                 forall j :: 0 <= j < k ==> clinics[1..][j].id != id;
        assert clinics[k + 1] == r.value;
        r
      else r
  }

  /** The initial selection: the first clinic, or none for an empty list. */
  function InitialSelection(clinics: seq<Clinic>): (r: Option<Clinic>)
    ensures r.None? <==> clinics == []
    ensures r.Some? ==> r.value == clinics[0]
  {
    if clinics == [] then None else Some(clinics[0])
  }

  class Switcher {
    const clinics: seq<Clinic>
    var selected: Option<Clinic>

    /** The selection is none or one of the listed clinics. */
    predicate Valid()
      reads this
    {
      selected.None? || selected.value in clinics
    }

    constructor (clinics: seq<Clinic>)
      ensures this.clinics == clinics
      ensures selected == InitialSelection(clinics)
      ensures Valid()
    {
      this.clinics := clinics;
      selected := InitialSelection(clinics);
    }

    /** Select the clinic with this id; an unknown id leaves the selection as it was. */
    method SwitchClinic(id: string)
      requires Valid()
      modifies this
      ensures Valid()
      ensures FindById(clinics, id).Some? ==> selected == FindById(clinics, id) && selected.value.id == id
      ensures FindById(clinics, id).None? ==> selected == old(selected)
    {
      var clinic := FindById(clinics, id);
      if clinic.Some? {
        selected := clinic;
      }
    }
  }

  /** The seeded switcher starts on the first clinic, and each seeded id selects its own clinic. */
  lemma {:induction false} DemoSelection()
    ensures InitialSelection(DemoClinics()).value.id == "clinic-1"
    ensures FindById(DemoClinics(), "clinic-2") == Some(DemoClinics()[1])
    ensures FindById(DemoClinics(), "clinic-4").None?
  {
    var cs := DemoClinics();
    assert cs[0].id == "clinic-1" && cs[1].id == "clinic-2" && cs[2].id == "clinic-3";
    assert cs[0].id != "clinic-2";
    assert "clinic-1" != "clinic-4" && "clinic-2" != "clinic-4" && "clinic-3" != "clinic-4" by {
      assert "clinic-1"[7] != "clinic-4"[7];
      assert "clinic-2"[7] != "clinic-4"[7];
      assert "clinic-3"[7] != "clinic-4"[7];
    }
  }

  /** With distinct ids, switching to a listed clinic's id selects exactly that clinic. */
  lemma {:induction false} SwitchToListed(clinics: seq<Clinic>, k: nat)
    requires k < |clinics|
    requires forall i, j :: 0 <= i < j < |clinics| ==> clinics[i].id != clinics[j].id
    ensures FindById(clinics, clinics[k].id) == Some(clinics[k])
  {
    var r := FindById(clinics, clinics[k].id);
    var m :| 0 <= m < |clinics| && clinics[m] == r.value && r.value.id == clinics[k].id &&
             forall j :: 0 <= j < m ==> clinics[j].id != clinics[k].id;
    if m != k {
      assert clinics[m].id == clinics[k].id;
    }
  }
}
