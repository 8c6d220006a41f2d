/**
 * The agency dashboard's local clinic list: adding a clinic from the form, deleting the selected
 * clinic, deriving a username from the clinic name, and the clinic count it shows.
 */
module AgencyDashboardPage {
  import opened Util
  import opened Schema

  datatype AgencyClinic = AgencyClinic(
    id: string, name: string, ghlLocationId: string, phoneNumber: string, status: SystemStatus, username: string)

  /** The add-clinic form. */
  datatype ClinicForm = ClinicForm(name: string, ghlLocationId: string, phoneNumber: string, username: string, password: string)

  /** The two clinics the dashboard starts with. */
  function DefaultClinics(): (r: seq<AgencyClinic>)
    ensures |r| == 2
    ensures forall i :: 0 <= i < |r| ==> Listable(r[i])
  {
    [ AgencyClinic("clinic-1", "Northside Dental", "ghl_12345", "(555) 201-1200", Active, "northside-admin"),
      AgencyClinic("clinic-2", "Bright Vision Eye Care", "ghl_55678", "(555) 882-4411", Paused, "bright-vision") ]
  }

  /** A listed clinic has a name and a username. */
  predicate Listable(c: AgencyClinic) {
    c.name != "" && c.username != ""
  }

  // ---------------------------------------------------------------------------------------------
  // The username derived from a clinic name: whitespace runs become `-`, then lower case.

  /** The characters `\s` matches. */
  predicate IsSpace(c: char) {
    || c == ' ' || c == '\t' || c == '\n' || c == '\U{B}' || c == '\U{C}' || c == '\r'
    || c == '\U{A0}' || c == '\U{1680}' || ('\U{2000}' <= c <= '\U{200A}')
    || c == '\U{2028}' || c == '\U{2029}' || c == '\U{202F}' || c == '\U{205F}'
    || c == '\U{3000}' || c == '\U{FEFF}'
  }

  /** `s` with its leading whitespace removed. */
  function DropSpaces(s: string): (r: string)
    ensures |r| <= |s| && r == s[|s| - |r|..]
    ensures r == [] || !IsSpace(r[0])
    ensures s != [] && IsSpace(s[0]) ==> |r| < |s|
    ensures s != [] && !IsSpace(s[0]) ==> r == s
  {
    if s != [] && IsSpace(s[0]) then DropSpaces(s[1..]) else s
  }

  /** `s.replace(/\s+/g, "-")` */
  function CollapseSpaces(s: string): (r: string)
    ensures forall i :: 0 <= i < |r| ==> !IsSpace(r[i])
    ensures |r| <= |s|
    decreases |s|
  {
    if s == [] then []
    else if IsSpace(s[0]) then
      var rest := CollapseSpaces(DropSpaces(s));
      assert !IsSpace('-');
      assert forall i :: 1 <= i < |rest| + 1 ==> ("-" + rest)[i] == rest[i - 1];
      "-" + rest
    else
      var rest := CollapseSpaces(s[1..]);
      assert forall i :: 1 <= i < |rest| + 1 ==> ([s[0]] + rest)[i] == rest[i - 1];
      [s[0]] + rest
  }

  /** The username suggested for a clinic name. */
  function Slug(name: string): string {
    LowerAll(CollapseSpaces(name))
  }

  /** A suggested username has no whitespace and no upper-case ASCII letter, and is no longer than the name. */
  lemma {:induction false} SlugShape(name: string)
    ensures forall i :: 0 <= i < |Slug(name)| ==> !IsSpace(Slug(name)[i]) && !('A' <= Slug(name)[i] <= 'Z')
    ensures |Slug(name)| <= |name|
  {
    var c := CollapseSpaces(name);
    forall i | 0 <= i < |c| ensures !IsSpace(Lower(c[i])) && !('A' <= Lower(c[i]) <= 'Z') {
      assert !IsSpace(c[i]);
    }
  }

  /** Without whitespace, the name is kept as it is up to case. */
  lemma {:induction false} CollapseKeepsSpaceless(s: string)
    requires forall i :: 0 <= i < |s| ==> !IsSpace(s[i])
    ensures CollapseSpaces(s) == s
    decreases |s|
  {
    if s != [] {
      assert !IsSpace(s[0]);
      CollapseKeepsSpaceless(s[1..]);
    }
  }

  /** Dropping a whitespace run in front of text that does not start with whitespace leaves that text. */
  lemma {:induction false} DropSpacesRun(w: string, b: string)
    requires forall i :: 0 <= i < |w| ==> IsSpace(w[i])
    requires b == [] || !IsSpace(b[0])
    ensures DropSpaces(w + b) == b
    decreases |w|
  {
    if w != [] {
      assert (w + b)[0] == w[0];
      assert (w + b)[1..] == w[1..] + b;
      DropSpacesRun(w[1..], b);
    }
  }

  /**
   * Each whitespace run becomes one `-`: a word `a` without whitespace, then a non-empty run `w`,
   * then text `b` that does not start with whitespace, collapse to `a`, `-`, and `b` collapsed.
   * With `CollapseKeepsSpaceless` for the last word, this fixes the result on every input.
   */
  lemma {:induction false} CollapseRun(a: string, w: string, b: string)
    requires forall i :: 0 <= i < |a| ==> !IsSpace(a[i])
    requires |w| > 0 && forall i :: 0 <= i < |w| ==> IsSpace(w[i])
    requires b == [] || !IsSpace(b[0])
    ensures CollapseSpaces(a + w + b) == a + "-" + CollapseSpaces(b)
    decreases |a|
  {
    if a == [] {
      assert a + w + b == w + b;
      assert IsSpace((w + b)[0]);
      DropSpacesRun(w, b);
    } else {
      var s := a + w + b;
      assert s[0] == a[0] && !IsSpace(s[0]);
      assert s[1..] == a[1..] + w + b;
      CollapseRun(a[1..], w, b);
      assert a + "-" + CollapseSpaces(b) == [a[0]] + (a[1..] + "-" + CollapseSpaces(b));
    }
  }

  /** The suggested username of a word, a whitespace run and more text: the word lower-cased, `-`, then the rest's username. */
  lemma {:induction false} SlugRun(a: string, w: string, b: string)
    requires forall i :: 0 <= i < |a| ==> !IsSpace(a[i])
    requires |w| > 0 && forall i :: 0 <= i < |w| ==> IsSpace(w[i])
    requires b == [] || !IsSpace(b[0])
    ensures Slug(a + w + b) == LowerAll(a) + "-" + Slug(b)
  {
    var c := CollapseSpaces(b);
    CollapseRun(a, w, b);
    LowerAllAppend(a + "-", c);
    LowerAllAppend(a, "-");
    assert LowerAll("-") == "-" by {
      assert Lower('-') == '-';
    }
  }

  /** Lower-casing twice is lower-casing once. */
  lemma {:induction false} LowerAllIdempotent(s: string)
    ensures LowerAll(LowerAll(s)) == LowerAll(s)
  {
    assert forall i :: 0 <= i < |s| ==> Lower(Lower(s[i])) == Lower(s[i]);
  }

  /** Deriving a username from a derived username changes nothing. */
  lemma {:induction false} SlugIdempotent(name: string)
    ensures Slug(Slug(name)) == Slug(name)
  {
    SlugShape(name);
    CollapseKeepsSpaceless(Slug(name));
    LowerAllIdempotent(CollapseSpaces(name));
  }

  // ---------------------------------------------------------------------------------------------

  class AgencyDashboard {
    var clinics: seq<AgencyClinic>
    var form: ClinicForm
    var selected: Option<AgencyClinic>
    var showDelete: bool
    var openAddModal: bool

    /** Every listed clinic has a name and a username. */
    predicate Valid()
      reads this
    {
      forall i :: 0 <= i < |clinics| ==> Listable(clinics[i])
    }

    /** The page starts with the two default clinics, an empty form with a generated password, and nothing open. */
    constructor (password: string)
      ensures clinics == DefaultClinics()
      ensures form == ClinicForm("", "", "", "", password)
      ensures selected.None? && !showDelete && !openAddModal
      ensures Valid()
    {
      clinics := DefaultClinics();
      form := ClinicForm("", "", "", "", password);
      selected := None;
      showDelete := false;
      openAddModal := false;
    }

    /** The "Total Clinics" figure. */
    function TotalClinics(): (r: string)
      reads this
      ensures forall i :: 0 <= i < |r| ==> IsDigit(r[i])
      ensures DigitsValue(r) == |clinics|
    {
      NatToStringRoundTrip(|clinics|);
      NatToString(|clinics|)
    }

    /** Typing a clinic name also rewrites the username to the name's slug. */
    method EditName(name: string)
      modifies this
      ensures form == old(form).(name := name, username := Slug(name))
      ensures clinics == old(clinics) && selected == old(selected)
      ensures showDelete == old(showDelete) && openAddModal == old(openAddModal)
    {
      form := form.(name := name, username := Slug(name));
    }

    /**
     * Append the form as a new active clinic and close the modal; with no name or no username,
     * nothing happens.
     */
    method AddClinic(newId: string)
      requires Valid()
      modifies this
      ensures Valid()
      ensures old(form.name) == "" || old(form.username) == "" ==>
        clinics == old(clinics) && openAddModal == old(openAddModal)
      ensures old(form.name) != "" && old(form.username) != "" ==>
        && clinics == old(clinics) + [AgencyClinic(newId, old(form.name), old(form.ghlLocationId), old(form.phoneNumber), Active, old(form.username))]
        && !openAddModal
      ensures form == old(form) && selected == old(selected) && showDelete == old(showDelete)
    {
      if form.name == "" || form.username == "" {
        return;
      }
      var clinic := AgencyClinic(newId, form.name, form.ghlLocationId, form.phoneNumber, Active, form.username);
      clinics := clinics + [clinic];
      openAddModal := false;
    }

    /** The trash button on a row selects that clinic and opens the confirmation. */
    method AskDelete(clinic: AgencyClinic)
      modifies this
      ensures selected == Some(clinic) && showDelete
      ensures clinics == old(clinics) && form == old(form) && openAddModal == old(openAddModal)
    {
      selected := Some(clinic);
      showDelete := true;
    }

    /**
     * Remove every clinic carrying the selected clinic's id, keep the rest in order, clear the
     * selection and close the confirmation; with nothing selected, nothing happens.
     */
    method DeleteClinic()
      requires Valid()
      modifies this
      ensures Valid()
      ensures old(selected).None? ==> clinics == old(clinics) && selected.None? && showDelete == old(showDelete)
      ensures old(selected).Some? ==>
        var id := old(selected).value.id;
        && clinics == Filter(old(clinics), (c: AgencyClinic) => c.id != id)
        && selected.None? && !showDelete
      ensures form == old(form) && openAddModal == old(openAddModal)
    {
      if selected.None? {
        return;
      }
      var id := selected.value.id;
      clinics := Filter(clinics, (c: AgencyClinic) => c.id != id);
      FilterListable(old(clinics), (c: AgencyClinic) => c.id != id);
      selected := None;
      showDelete := false;
    }
  }

  /** A filtered list keeps only elements of the list. */
  lemma {:induction false} FilterListable(s: seq<AgencyClinic>, p: AgencyClinic -> bool)
    requires forall i :: 0 <= i < |s| ==> Listable(s[i])
    ensures forall i :: 0 <= i < |Filter(s, p)| ==> Listable(Filter(s, p)[i])
  {
    forall i | 0 <= i < |Filter(s, p)| ensures Listable(Filter(s, p)[i]) {
      FilterKeeps(s, p, Filter(s, p)[i]);
    }
  }

  /** After a delete no clinic with that id is left, and every clinic with another id is still there. */
  lemma {:induction false} DeleteRemovesExactly(clinics: seq<AgencyClinic>, id: string, c: AgencyClinic)
    ensures c in Filter(clinics, (x: AgencyClinic) => x.id != id) <==> c in clinics && c.id != id
  {
    FilterKeeps(clinics, (x: AgencyClinic) => x.id != id, c);
  }
}
