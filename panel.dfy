/** The parameters panel's state: the country it is shown for, the
    `Parameters` object, and which collapsible sections are open. */
module Panel {
  import opened Durations
  import opened Params

  /** The collapsible sections of the panel. */
  datatype Section = ConnectionTypeSection | JobSettings | HeaderMember | JoistMember | HangerOptions

  const AllSections: set<Section> := {ConnectionTypeSection, JobSettings, HeaderMember, JoistMember, HangerOptions}

  /** The stored load duration is one the country offers. */
  predicate LoadDurationOffered(country: string, p: Parameters) {
    LoadDuration(p) in LoadDurationOptions(country)
  }

  /** The effect that runs on mount and whenever the country changes: a load
      duration the country does not offer is replaced by the country's first
      option; nothing else is touched, the uplift duration included. */
  function ResetLoadDuration(country: string, p: Parameters): (r: Parameters)
    ensures LoadDurationOffered(country, r)
    ensures LoadDurationOffered(country, p) ==> r == p
    ensures !LoadDurationOffered(country, p) ==> LoadDuration(r) == LoadDurationOptions(country)[0]
    ensures r.Keys == p.Keys
    ensures forall f :: f in p && f != DownloadDurationField ==> r[f] == p[f]
  {
    var options := LoadDurationOptions(country);
    if LoadDuration(p) in options then p
    else ApplyEdit(p, SetDownloadDuration(options[0]))
  }

  /** Running the effect a second time for the same country changes nothing. */
  lemma ResetIdempotent(country: string, p: Parameters)
    ensures ResetLoadDuration(country, ResetLoadDuration(country, p)) == ResetLoadDuration(country, p)
  {
  }

  /** The effect never re-validates the uplift duration: a USA uplift choice
      survives a move to Canada although Canada does not offer it. */
  lemma ResetLeavesStaleUplift(p: Parameters)
    requires UpliftDuration(p) == "Quake/Wind (160)"
    ensures UpliftDuration(p) in UpliftDurationOptions("USA")
    ensures UpliftDuration(ResetLoadDuration("Canada", p)) !in UpliftDurationOptions("Canada")
  {
  }

  /** Moving between the USA and any country outside the two named ones keeps
      a valid load duration; moving between the USA and Canada always
      replaces it with the new country's first option. */
  lemma ResetOnCountrySwitch(p: Parameters, other: string)
    requires other != "USA" && other != "Canada"
    requires LoadDurationOffered("USA", p)
    ensures ResetLoadDuration(other, p) == p
    ensures LoadDuration(ResetLoadDuration("Canada", p)) == "loadDuration.standardTerm100"
    ensures ResetLoadDuration("Canada", p) != p
  {
  }

  /** An edit the form controls can deliver without leaving the offered
      options: any edit except a load duration the country does not offer
      (the load-duration select lists only the offered ones). */
  predicate Offered(country: string, e: Edit) {
    e.SetDownloadDuration? ==> e.text in LoadDurationOptions(country)
  }

  /** Between two country changes, handlers that only pick offered load
      durations keep the stored load duration valid. */
  lemma {:induction false} OfferedEditsKeepLoadDuration(country: string, p: Parameters, edits: seq<Edit>)
    requires LoadDurationOffered(country, p)
    requires forall i :: 0 <= i < |edits| ==> Offered(country, edits[i])
    ensures LoadDurationOffered(country, ApplyEdits(p, edits))
    decreases |edits|
  {
    if edits != [] {
      var q := ApplyEdit(p, edits[0]);
      assert Required(DownloadDurationField);
      OfferedEditsKeepLoadDuration(country, q, edits[1..]);
    }
  }

  /** `{...prev, [section]: !prev[section]}`: the flag of `s` flips and
      every other flag keeps its value. */
  function Toggled(open: map<Section, bool>, s: Section): (r: map<Section, bool>)
    requires s in open
    ensures r.Keys == open.Keys
    ensures r[s] == !open[s]
    ensures forall t :: t in open && t != s ==> r[t] == open[t]
  {
    open[s := !open[s]]
  }

  /** Toggling a section twice restores every flag. */
  lemma ToggleTwiceIsIdentity(open: map<Section, bool>, s: Section)
    requires s in open
    ensures Toggled(Toggled(open, s), s) == open
  {
  }

  /** Toggles of two different sections commute. */
  lemma TogglesCommute(open: map<Section, bool>, s: Section, t: Section)
    requires s in open && t in open
    ensures Toggled(Toggled(open, s), t) == Toggled(Toggled(open, t), s)
  {
  }

  class ParametersPanel {
    var country: string
    var params: Parameters
    var openSections: map<Section, bool>

    /** Every section has a flag. */
    ghost predicate Valid()
      reads this
    {
      openSections.Keys == AllSections
    }

    /** Mounting the panel: every section starts open and the effect runs
        once for the initial country. */
    constructor (country: string, initial: Parameters)
      ensures Valid()
      ensures this.country == country
      ensures params == ResetLoadDuration(country, initial)
      ensures LoadDurationOffered(country, params)
      ensures forall s :: s in AllSections ==> openSections[s]
    {
      this.country := country;
      params := ResetLoadDuration(country, initial);
      openSections := map s | s in AllSections :: true;
    }

    /** The country prop changes. React re-runs the effect only when the new
        country differs from the old one; then the load duration is reset.
        The section flags are not touched. */
    method ChangeCountry(c: string)
      requires Valid()
      modifies this`country, this`params
      ensures Valid()
      ensures country == c
      ensures params == (if c != old(country) then ResetLoadDuration(c, old(params)) else old(params))
      ensures c != old(country) ==> LoadDurationOffered(c, params)
      ensures old(LoadDurationOffered(country, params)) ==> LoadDurationOffered(c, params)
    {
      if c != country {
        country := c;
        params := ResetLoadDuration(c, params);
      }
    }

    /** One form handler: `setParams({...params, field: value})`. */
    method SetField(e: Edit)
      requires Valid()
      modifies this`params
      ensures Valid()
      ensures params == ApplyEdit(old(params), e)
      ensures old(LoadDurationOffered(country, params)) && Offered(country, e) ==> LoadDurationOffered(country, params)
    {
      params := ApplyEdit(params, e);
      assert Required(DownloadDurationField);
    }

    /** A section header is clicked. */
    method ToggleSection(s: Section)
      requires Valid()
      modifies this`openSections
      ensures Valid()
      ensures openSections == Toggled(old(openSections), s)
    {
      openSections := Toggled(openSections, s);
    }
  }
}
