/** The search suggestion hook (`useSearchSuggestions`): when to ask the two search
    procedures, and how their answers become one short list. The debounce timer is left
    out: the debounced query is an input. */
module SearchSuggestions {
  import opened Wrappers
  import opened Strings

  /** A row of `search_doctors`. */
  datatype DoctorRow = DoctorRow(id: string, name: string, specialization: string, hospitalId: string, hospitalName: Option<string>, photo: Option<string>)

  /** A row of `search_hospitals`. */
  datatype HospitalRow = HospitalRow(id: string, name: string, city: string, address: string)

  datatype Suggestion =
    | DoctorSuggestion(id: string, name: string, specialization: string, hospitalId: string, photo: Option<string>)
    | HospitalSuggestion(id: string, name: string, city: string, address: string)

  const DoctorLimit := 5
  const HospitalLimit := 4
  const MaxSuggestions := 8

  /** The arguments of a search procedure call. */
  datatype SearchArguments = SearchArguments(searchText: string, limitCount: nat, offsetCount: nat)

  function DoctorSearch(debouncedQuery: string): (a: SearchArguments)
    ensures a.searchText == debouncedQuery && a.limitCount == 5 && a.offsetCount == 0
  {
    SearchArguments(debouncedQuery, DoctorLimit, 0)
  }

  function HospitalSearch(debouncedQuery: string): (a: SearchArguments)
    ensures a.searchText == debouncedQuery && a.limitCount == 4 && a.offsetCount == 0
  {
    SearchArguments(debouncedQuery, HospitalLimit, 0)
  }

  /** `shouldFetch`: enabled, and at least two characters once trimmed. */
  function ShouldFetch(enabled: bool, debouncedQuery: string): (fetch: bool)
    ensures fetch <==> enabled && |Trim(debouncedQuery)| >= 2
    ensures fetch ==> |debouncedQuery| >= 2
  {
    enabled && |Trim(debouncedQuery)| >= 2
  }

  /** A query of white space only never fetches. */
  lemma BlankQueryNeverFetches(enabled: bool, q: string)
    requires AllSpace(q)
    ensures !ShouldFetch(enabled, q)
  {
    TrimEmptyIffAllSpace(q);
  }

  function FromDoctor(d: DoctorRow): Suggestion {
    DoctorSuggestion(d.id, d.name, d.specialization, d.hospitalId, d.photo)
  }

  function FromHospital(h: HospitalRow): Suggestion {
    HospitalSuggestion(h.id, h.name, h.city, h.address)
  }

  function Doctors(ds: seq<DoctorRow>): (r: seq<Suggestion>)
    ensures |r| == |ds| && forall k :: 0 <= k < |ds| ==> r[k] == FromDoctor(ds[k])
  {
    if ds == [] then [] else [FromDoctor(ds[0])] + Doctors(ds[1..])
  }

  function Hospitals(hs: seq<HospitalRow>): (r: seq<Suggestion>)
    ensures |r| == |hs| && forall k :: 0 <= k < |hs| ==> r[k] == FromHospital(hs[k])
  {
    if hs == [] then [] else [FromHospital(hs[0])] + Hospitals(hs[1..])
  }

  /** The `suggestions` memo: the doctors (`data || []`), then the hospitals, cut to
      eight. */
  function Merge(doctorData: Option<seq<DoctorRow>>, hospitalData: Option<seq<HospitalRow>>): (r: seq<Suggestion>)
    ensures var ds, hs := doctorData.GetOr([]), hospitalData.GetOr([]);
      && |r| == (if |ds| + |hs| <= MaxSuggestions then |ds| + |hs| else MaxSuggestions)
      && (forall k :: 0 <= k < |r| && k < |ds| ==> r[k] == FromDoctor(ds[k]))
      && (forall k :: |ds| <= k < |r| ==> r[k] == FromHospital(hs[k - |ds|]))
  {
    var all := Doctors(doctorData.GetOr([])) + Hospitals(hospitalData.GetOr([]));
    if |all| <= MaxSuggestions then all else all[..MaxSuggestions]
  }

  /** No hospital comes before a doctor. */
  lemma DoctorsFirst(doctorData: Option<seq<DoctorRow>>, hospitalData: Option<seq<HospitalRow>>)
    ensures var r := Merge(doctorData, hospitalData);
      forall i, j :: 0 <= i < j < |r| && r[j].DoctorSuggestion? ==> r[i].DoctorSuggestion?
  {
  }

  /** When the procedures keep to their limits there are at most nine rows: every
      doctor is kept, and at most the last hospital is cut. */
  lemma WithinLimitsKeepsDoctors(ds: seq<DoctorRow>, hs: seq<HospitalRow>)
    requires |ds| <= DoctorLimit && |hs| <= HospitalLimit
    ensures var r := Merge(Some(ds), Some(hs));
      && |r| >= |ds| && |r| >= |ds| + |hs| - 1
      && forall k :: 0 <= k < |ds| ==> r[k] == FromDoctor(ds[k])
  {
  }

  /** The hook's flags. */
  datatype Status = Status(suggestions: seq<Suggestion>, isLoading: bool, isEmpty: bool, query: string)

  function SuggestionStatus(
    enabled: bool, debouncedQuery: string,
    doctorsLoading: bool, hospitalsLoading: bool,
    doctorData: Option<seq<DoctorRow>>, hospitalData: Option<seq<HospitalRow>>): (s: Status)
    ensures s.isLoading <==> ShouldFetch(enabled, debouncedQuery) && (doctorsLoading || hospitalsLoading)
    ensures s.isEmpty <==> ShouldFetch(enabled, debouncedQuery) && !s.isLoading && s.suggestions == []
    ensures s.suggestions == Merge(doctorData, hospitalData) && s.query == debouncedQuery
    ensures !ShouldFetch(enabled, debouncedQuery) ==> !s.isLoading && !s.isEmpty
  {
    var suggestions := Merge(doctorData, hospitalData);
    var fetch := ShouldFetch(enabled, debouncedQuery);
    var isLoading := fetch && (doctorsLoading || hospitalsLoading);
    Status(suggestions, isLoading, fetch && !isLoading && |suggestions| == 0, debouncedQuery)
  }
}
