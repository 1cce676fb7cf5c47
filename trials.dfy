/** The "Clinical Trials" finder: the search expression sent to
    ClinicalTrials.gov, and the summary shown for each study of the reply
    once its XML has been turned into dictionaries. */
module ClinicalTrials {
  import opened Wrappers
  import opened XmlLists

  /** The phase selection that adds no phase filter. */
  const AllPhases := "All"
  const PhaseJoin := " AND "
  const PhaseTag := "[Phase]"

  /** The condition and location part every query starts with. */
  function ConditionClause(cancerType: string, location: string): string {
    cancerType + "[Condition] AND " + location + "[Location]"
  }

  /** Reads the phase filter back out of what follows the condition clause:
      None when nothing follows, the phase when a `" AND <phase>[Phase]"`
      clause does. */
  function PhaseFilter(rest: string): Option<string> {
    if |rest| >= |PhaseJoin| + |PhaseTag| && rest[..|PhaseJoin|] == PhaseJoin &&
       rest[|rest| - |PhaseTag|..] == PhaseTag
    then Some(rest[|PhaseJoin|..|rest| - |PhaseTag|])
    else None
  }

  /** The query the page builds. It always starts with the condition clause,
      and a phase filter, readable back, follows exactly when a phase other
      than "All" is selected. */
  function TrialQuery(cancerType: string, location: string, phase: string): (q: string)
    ensures ConditionClause(cancerType, location) <= q
    ensures phase == AllPhases ==> q == ConditionClause(cancerType, location)
    ensures PhaseFilter(q[|ConditionClause(cancerType, location)|..]) ==
      (if phase == AllPhases then None else Some(phase))
  {
    var base := ConditionClause(cancerType, location);
    if phase == AllPhases then
      assert base[|base|..] == "";
      base
    else
      var rest := PhaseJoin + phase + PhaseTag;
      assert (base + rest)[|base|..] == rest;
      assert rest[..|PhaseJoin|] == PhaseJoin;
      assert rest[|rest| - |PhaseTag|..] == PhaseTag;
      assert rest[|PhaseJoin|..|rest| - |PhaseTag|] == phase;
      base + rest
  }

  /** The page builds the query in two steps: the condition clause, then
      `query += " AND {phase}[Phase]"` unless the phase is "All". */
  method BuildTrialQuery(cancerType: string, location: string, phase: string) returns (query: string)
    ensures query == TrialQuery(cancerType, location, phase)
  {
    query := cancerType + "[Condition] AND " + location + "[Location]";
    if phase != AllPhases {
      query := query + " AND " + phase + "[Phase]";
    }
  }

  /** One entry of `location_countries.location_country`. */
  datatype LocationEntry = LocationEntry(location: Option<string>)

  /** One `clinical_study` of the reply; None where its key is absent.
      `nctId` is `id_info.nct_id`. */
  datatype Study = Study(
    officialTitle: Option<string>,
    overallStatus: Option<string>,
    locationCountries: Children<LocationEntry>,
    phase: Option<string>,
    nctId: Option<string>)

  /** What is rendered for one study. */
  datatype TrialSummary = TrialSummary(
    title: string,
    status: string,
    phase: string,
    locations: string,
    link: string)

  /** The listing: a warning when there is no study, the summaries otherwise. */
  datatype TrialListing = NoTrials | Trials(summaries: seq<TrialSummary>)

  const StudyPagePrefix := "https://clinicaltrials.gov/ct2/show/"
  const NoLink := "#"
  const UnknownLocation := "Unknown"

  /** `", ".join(parts)`: as long as its parts plus two characters per
      separator. */
  function JoinComma(parts: seq<string>): (joined: string)
    ensures |joined| == TotalLength(parts) + (if parts == [] then 0 else 2 * (|parts| - 1))
    ensures |parts| == 1 ==> joined == parts[0]
  {
    if parts == [] then ""
    else if |parts| == 1 then parts[0]
    else parts[0] + ", " + JoinComma(parts[1..])
  }

  /** The total length of a list of strings. */
  function TotalLength(parts: seq<string>): nat {
    if parts == [] then 0 else |parts[0]| + TotalLength(parts[1..])
  }

  /** A join is empty exactly when there is nothing to join or a single empty part. */
  lemma JoinCommaEmptyIff(parts: seq<string>)
    ensures JoinComma(parts) == "" <==> parts == [] || parts == [""]
  {
  }

  /** Joining from the other end: appending a part adds a separator and that part. */
  lemma {:induction false} JoinCommaSnoc(parts: seq<string>, p: string)
    requires parts != []
    ensures JoinComma(parts + [p]) == JoinComma(parts) + ", " + p
  {
    assert (parts + [p])[0] == parts[0];
    if |parts| > 1 {
      assert (parts + [p])[1..] == parts[1..] + [p];
      JoinCommaSnoc(parts[1..], p);
    } else {
      assert (parts + [p])[1..] == [p];
    }
  }

  /** `[loc.get('location', 'Unknown') for loc in location_info]`. */
  function LocationNames(locs: seq<LocationEntry>): (names: seq<string>)
    ensures |names| == |locs|
    ensures forall i :: 0 <= i < |locs| && locs[i].location.None? ==> names[i] == UnknownLocation
    ensures forall i :: 0 <= i < |locs| && locs[i].location.Some? ==> names[i] == locs[i].location.value
  {
    seq(|locs|, i requires 0 <= i < |locs| => GetOr(locs[i].location, UnknownLocation))
  }

  /** The study page link: only built when the NCT id is non-empty. */
  function TrialLink(nctId: string): (link: string)
    ensures link == NoLink <==> nctId == ""
    ensures NctIdOfLink(link) == nctId
  {
    if nctId != "" then
      assert (StudyPagePrefix + nctId)[..|StudyPagePrefix|] == StudyPagePrefix;
      assert (StudyPagePrefix + nctId)[|StudyPagePrefix|..] == nctId;
      StudyPagePrefix + nctId
    else NoLink
  }

  /** Reads the NCT id back out of a study link; "" for "#" or anything else. */
  function NctIdOfLink(link: string): string {
    if |link| >= |StudyPagePrefix| && link[..|StudyPagePrefix|] == StudyPagePrefix
    then link[|StudyPagePrefix|..]
    else ""
  }

  /** The summary of one study, with the page's defaults for missing keys. */
  function Summarize(s: Study): (t: TrialSummary)
    ensures t.title == GetOr(s.officialTitle, "No Title")
    ensures t.status == GetOr(s.overallStatus, "Status Unknown")
    ensures t.phase == GetOr(s.phase, "N/A")
    ensures t.locations == JoinComma(LocationNames(AsList(s.locationCountries)))
    ensures NctIdOfLink(t.link) == GetOr(s.nctId, "")
    ensures t.link == NoLink <==> GetOr(s.nctId, "") == ""
  {
    TrialSummary(
      GetOr(s.officialTitle, "No Title"),
      GetOr(s.overallStatus, "Status Unknown"),
      GetOr(s.phase, "N/A"),
      JoinComma(LocationNames(AsList(s.locationCountries))),
      TrialLink(GetOr(s.nctId, "")))
  }

  /** A study with no `location_countries` lists no locations: the "Unknown"
      default applies per entry, not to an empty list. */
  lemma NoLocationEntriesJoinsEmpty(s: Study)
    requires s.locationCountries.Absent? || s.locationCountries == Many([])
    ensures Summarize(s).locations == ""
  {
  }

  /** A single location entry without a `location` key is shown as "Unknown". */
  lemma SingleUnnamedLocationIsUnknown(s: Study)
    requires s.locationCountries == One(LocationEntry(None))
    ensures Summarize(s).locations == UnknownLocation
  {
  }

  /** The listing of `clinical_studies.clinical_study`: a warning when the
      wrapped list is empty, otherwise one summary per study, in order. */
  function Listing(studies: Children<Study>): (l: TrialListing)
    ensures l == NoTrials <==> AsList(studies) == []
    ensures l.Trials? ==> |l.summaries| == |AsList(studies)|
    ensures l.Trials? ==> forall i :: 0 <= i < |l.summaries| ==> l.summaries[i] == Summarize(AsList(studies)[i])
  {
    var list := AsList(studies);
    if list != [] then Trials(seq(|list|, i requires 0 <= i < |list| => Summarize(list[i])))
    else NoTrials
  }

  /** A reply with a single study, which xmltodict gives as a dict, is
      listed exactly like a list holding that one study; likewise a study
      with a single location entry. */
  lemma LoneStudyIsListOfOne(s: Study, l: LocationEntry)
    ensures Listing(One(s)) == Listing(Many([s]))
    ensures Summarize(s.(locationCountries := One(l))) == Summarize(s.(locationCountries := Many([l])))
  {
  }
}
