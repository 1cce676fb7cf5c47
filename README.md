# Cancer support page: data reshaping and search logic

`app.py` is a single Streamlit page that helps cancer patients find
hospitals, research articles and clinical trials. It is mostly markup and
HTTP calls. This project models the small pieces of logic inside it and
proves what they do:

- **Hospital search** (`HospitalSearch`, `Hospitals`). The user's text is
  geocoded with Nominatim. Overpass is then asked for hospitals within
  50 000 m of that point. Its `elements` list is normalised into
  `{Name, Latitude, Longitude}` records. The search ends in exactly one
  outcome: a geocoding transport error, location not found, coordinates
  missing, coordinates unparseable, an Overpass transport error, no
  hospitals, or success with the point and the records.
- **Normaliser** (`Hospitals`). Python truthiness is written out. A
  coordinate of 0 counts as missing. An empty `center` object counts as
  absent. Latitude and longitude are resolved independently. The loop is a
  method proved equal to a recursive specification. The specification is
  proved to be the order-preserving image of the kept elements.
- **Clinical trials** (`ClinicalTrials`). The search expression with its
  optional phase filter. The per-study summary: field defaults, the
  `", "`-joined location names, and the link that is built only for a
  non-empty NCT id.
- **Research** (`Research`) and **list wrapping** (`XmlLists`). xmltodict
  gives a single child as a dict and several as a list; the page wraps a
  lone dict in a list. Each article gets a heading with a PubMed link.
- **Checklist generator** (`Checklist`). The title, then a header and
  `- [ ] task` lines for each non-empty selection.

The network calls are parameters. Nominatim's reply is a
`Fetch<seq<Place>>`. Overpass is a function from the query sent to its
reply. Python's `float()` is a partial function `string -> Option<real>`.

Points where the code's behaviour is easy to misread, and which the model
follows as written:

- The code distinguishes two geocoding errors. A missing or empty `lat`/`lon`
  gives "Could not retrieve latitude and longitude" before any parsing. An
  unparseable value gives "Invalid latitude or longitude values".
- An empty hospital list is reported with `st.error` ("No hospitals found
  within a 50km radius"). It is not a successful search with no records.
  It is still its own outcome, distinct from a transport error.
- The code never checks that the geocoded point lies within
  [-90, 90] x [-180, 180]. The model does not assume it.
- A coordinate of 0 drops the element, and a centre value is used when the
  direct one is 0: the code tests truthiness, not presence.

## Model

| member | source | states |
|---|---|---|
| Hospitals.HospitalName | app.py:258-259 | the name is `tags["name"]` unchanged whenever the key exists (even if empty); it is "Unnamed Hospital" iff the key is absent or holds that text |
| Hospitals.ToRecord | app.py:258-267 | the loop body for one element: a kept record carries HospitalName and two non-zero coordinates; when it keeps an element and which values it takes are stated by ToRecordSpec |
| Hospitals.ToRecordSpec | app.py:258-267 | in terms of raw fields: kept iff (direct lat truthy or centre lat truthy) and (direct lon truthy or centre lon truthy); each axis takes the truthy direct value, else the centre's; both stored coordinates are non-zero; the name is HospitalName |
| Hospitals.ElementsOf | app.py:257 | a reply with no `elements` key gives the empty list, otherwise the list itself |
| Hospitals.Normalize | app.py:256-267 | the output is never longer than the input |
| Hospitals.CollectHospitals | app.py:256-267 | the appending loop yields exactly Normalize of the reply's elements |
| Hospitals.NormalizeAppend | app.py:257-267 | normalising a concatenation gives the concatenation of the normalised parts, in order |
| Hospitals.NormalizeIsImageOfKept | app.py:256-267 | there is a strictly increasing list of positions, exactly those whose element yields a record; there are as many output records as positions, and the k-th record is the record of the element at the k-th position |
| Hospitals.NormalizeMembership | app.py:262-267 | a record is in the output iff some input element yields it |
| Hospitals.NormalizeKeepsAllIff | app.py:262 | the output has one record per element iff every element is kept |
| Hospitals.DroppedElementIsInvisible | app.py:262 | removing a dropped element from the input leaves the output unchanged |
| Hospitals.EmptyCenterIsAbsent | app.py:260-261 | an empty `center` object gives the same result as no `center` |
| Hospitals.ZeroCoordinateDrops | app.py:260-262 | a direct latitude of 0 with no centre drops the element |
| Hospitals.MixedSourcesExample | app.py:260-261 | a direct latitude pairs with a centre longitude in one record, untagged elements are "Unnamed Hospital" |
| HospitalSearch.Geocode | app.py:195-225 | a transport error passes through; "not found" iff the result list is empty; "missing" iff the first match's lat or lon is absent or empty; "invalid" iff both are present and one does not parse; a non-empty first match whose lat and lon both parse succeeds with exactly the parsed values, and only then |
| HospitalSearch.IssuedQuery | app.py:227-240 | an Overpass query is sent iff geocoding succeeded, around the geocoded point with radius 50000 |
| HospitalSearch.SearchOutcome | app.py:195-294 | "not found" iff the geocode list is empty; with no query sent the outcome is the geocoding stop; Overpass error iff the query was sent and failed, carrying that failure's kind; "no hospitals" iff the reply normalises to the empty list; a fetched reply that normalises to a non-empty list gives success, and success carries the geocoded point and that list |
| HospitalSearch.FindHospitals | app.py:195-294 | the early-exit handler ends in SearchOutcome and sends exactly IssuedQuery |
| HospitalSearch.EmptyGeocodeSendsNoQuery | app.py:212-294 | an empty geocode list sends no query and ends in "not found" whatever Overpass would answer |
| HospitalSearch.MissingCoordinatesPrecedeParsing | app.py:213-225 | a missing or empty lat/lon gives "missing" under every parse function |
| HospitalSearch.OnlyFirstMatchCounts | app.py:213-214 | further geocode matches do not change the geocoding result |
| HospitalSearch.NoQueryNoDependence | app.py:195-240 | when no query is sent, the outcome does not depend on Overpass |
| HospitalSearch.EmptyVersusSuccess | app.py:269-292 | after a successful Overpass call an empty record list gives "no hospitals" and a non-empty one gives success with the point and records |
| XmlLists.AsList | app.py:371-372 | a lone dict becomes a one-element list, a list passes through, a missing key gives the empty list |
| Research.ArticleLink | app.py:378 | the link is always a PubMed link, never "#", and the PMID reads back from it, also when it is empty |
| Research.Heading | app.py:376-378 | the title is kept when present and is "No Title" iff absent or literally that; the link is a PubMed link that reads back as the PMID, or as "" when it is absent |
| Research.LoneArticleIsListOfOne | app.py:371-372 | a lone article dict is listed exactly like a list holding that one article |
| Research.Headings | app.py:369-379 | one heading per wrapped article, in order; a single article yields one heading |
| ClinicalTrials.TrialQuery | app.py:465-467 | the query starts with `{type}[Condition] AND {location}[Location]` and is exactly that for phase "All"; otherwise what follows reads back as a phase filter, and that filter is the phase |
| ClinicalTrials.BuildTrialQuery | app.py:465-467 | the `query +=` construction yields TrialQuery |
| ClinicalTrials.JoinComma | app.py:513 | `", ".join`: a single part joins to itself, and the result's length is the parts' total length plus two per separator; with JoinCommaSnoc this pins the join of every list |
| ClinicalTrials.JoinCommaEmptyIff | app.py:513 | a join is empty iff there are no parts or a single empty part |
| ClinicalTrials.JoinCommaSnoc | app.py:513 | appending a part to a non-empty list appends `", "` and the part to the join |
| ClinicalTrials.LocationNames | app.py:513 | one name per entry, in order: the `location` value, or "Unknown" when the key is absent |
| ClinicalTrials.NoLocationEntriesJoinsEmpty | app.py:510-513 | a study with no location entries shows an empty location string, not "Unknown" |
| ClinicalTrials.SingleUnnamedLocationIsUnknown | app.py:510-513 | a single dict entry without `location` is wrapped and shown as "Unknown" |
| ClinicalTrials.TrialLink | app.py:517 | the link is "#" iff the NCT id is empty; otherwise the id can be read back from it |
| ClinicalTrials.Summarize | app.py:505-517 | title, status and phase take their defaults when absent; locations are the joined names of the wrapped entries; the link encodes the NCT id and is "#" iff it is empty |
| ClinicalTrials.LoneStudyIsListOfOne | app.py:500-513 | a lone study dict is listed exactly like a list holding that one study, and a lone location entry is shown like a list of one entry |
| ClinicalTrials.Listing | app.py:498-525 | "no trials" iff the wrapped study list is empty; otherwise one summary per study, in order |
| Checklist.Section | app.py:607-610 | a selection renders nothing when empty, else its header first and one more line than it has tasks; SectionRoundTrip states the contents |
| Checklist.ChecklistLines | app.py:605-618 | nothing is rendered iff the form is not submitted; once submitted the title comes first and the rest is exactly the financial, medical and other sections in that order, so each header is directly followed by its own tasks' checkbox lines |
| Checklist.AppendSection | app.py:607-610 | appends the header and one checkbox line per task when the selection is non-empty, and nothing otherwise |
| Checklist.GenerateChecklist | app.py:605-618 | the handler renders exactly ChecklistLines |
| Checklist.BoxesAppend | app.py:609-610 | the checkbox lines of a concatenation are the concatenated checkbox lines |
| Checklist.BoxReadsBack | app.py:610 | a checkbox line reads back as its task unchanged and is not a markdown line |
| Checklist.BoxesRoundTrip | app.py:609-610 | every checkbox line reads back as its task, in order, and no checkbox line is markdown |
| Checklist.SectionRoundTrip | app.py:607-610 | a section's tasks read back unchanged; its only markdown line is its header, present iff the selection is non-empty |
| Checklist.TitleRoundTrip | app.py:606 | the title line is markdown, reads back as the title and holds no task |
| Checklist.ChecklistTasksRoundTrip | app.py:605-618 | once submitted, the checkbox lines read back as the financial, then medical, then other tasks, each once and unchanged |
| Checklist.ChecklistHeadersRoundTrip | app.py:605-618 | once submitted, the markdown lines are the title followed by the header of each non-empty selection, in the order financial, medical, other |
| Checklist.HeaderShownIffSelected | app.py:607-616 | each section header is rendered iff its selection is non-empty |
| Checklist.NothingUntilSubmitted | app.py:605 | nothing is rendered before the form is submitted |

## Left out

- Page configuration, CSS, sidebar navigation and all static reference text: presentation only.
- The HTTP calls to Nominatim, Overpass, PubMed and ClinicalTrials.gov (`requests.get`, `raise_for_status`, `.json()`): network I/O. Their results are inputs (`Fetch`, or a function from query to reply).
- Which `except` clause a given exception reaches. It depends on the `requests` class hierarchy, which is not part of this model. The model takes the clause as given (`Transport`). With recent `requests` versions, `.json()` raises an exception that is also a `RequestException`, so malformed JSON would reach the third clause rather than the `ValueError` one.
- The text of the Overpass query (app.py:229-237). Only its point and its 50000 m radius are modelled (`HospitalQuery`).
- The text of the error messages shown for each outcome. Each outcome is a distinct constructor instead.
- `float()` and `xmltodict.parse`: foreign library calls. Parsing is an abstract `string -> Option<real>`; XML replies are given already as typed records. `float()` can also return `nan` or `inf` (for "nan", "inf"), which the code passes on to the Overpass query (app.py:221-240); `real` has no counterpart for them, so such values are not modelled.
- Reply shapes that make Python raise: a non-dict element, a `null` `tags` or `elements`, a non-dict truthy `center`, a truthy geocode reply that is not a list. A falsy non-list geocode reply (`null` or `{}`) ends in "Location not found" in the code; the typed reply, always a list, cannot express it. The typed model cannot express them, so it does not model the resulting uncaught exceptions.
- xmltodict's `None` for an empty XML element and its dict for an element with attributes: the model treats such values as absent or as strings.
- The `except Exception` around the research and trial listings (app.py:380-381, 526-527), and the partial output rendered before such an exception.
- The PubMed search step (app.py:344-364, 382-383): network I/O and a comma join of the id list that feeds only a URL.
- Folium map and pandas DataFrame construction (app.py:270-290): rendering by external libraries.
- The financial calculator (app.py:436-445): its only logic is the constant `tax = 0`.
- De-duplication of hospitals tagged as several element kinds: the code keeps every duplicate record, and so does the model.
