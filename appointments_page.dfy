/** The appointments page (`appointments.jsx`): the search-and-type filter
    over the listed records, the status badge colours, the show-details
    toggle and the capitalised type label. The mock records, the tabs and
    the rendering are not part of this model. */
module AppointmentsPage {
  import opened Wrappers
  import opened Text
  import opened Seqs

  /** The fields of a listed record the page logic reads. `location` may be
      missing (it is read with `?.`); `kind` is the record's `type`. */
  datatype Listing = Listing(id: int, doctor: string, specialty: string, location: Option<string>,
                             status: string, kind: string)

  /** The search test on one record, against the already lower-cased term. */
  predicate SearchHit(a: Listing, term: string) {
    Includes(ToLower(a.doctor), term) || Includes(ToLower(a.specialty), term) ||
    (a.location.Some? && Includes(ToLower(a.location.value), term))
  }

  /** The same test stated with substring occurrence. */
  ghost predicate Mentions(a: Listing, term: string) {
    Contains(ToLower(a.doctor), term) || Contains(ToLower(a.specialty), term) ||
    (a.location.Some? && Contains(ToLower(a.location.value), term))
  }

  lemma SearchHitMeaning(a: Listing, term: string)
    ensures SearchHit(a, term) <==> Mentions(a, term)
  {
    IncludesCorrect(ToLower(a.doctor), term);
    IncludesCorrect(ToLower(a.specialty), term);
    if a.location.Some? { IncludesCorrect(ToLower(a.location.value), term); }
  }

  /** Stage one of `filterAppointments`: a term that is blank after trimming
      keeps everything; otherwise the lower-cased, untrimmed term must occur. */
  function Searched(data: seq<Listing>, searchTerm: string): seq<Listing> {
    if Trim(searchTerm) != [] then Filter(data, (a: Listing) => SearchHit(a, ToLower(searchTerm))) else data
  }

  /** Stage two: any filter but `'all'` keeps the records of that type. */
  function OfKind(data: seq<Listing>, selectedFilter: string): seq<Listing> {
    if selectedFilter != "all" then Filter(data, (a: Listing) => a.kind == selectedFilter) else data
  }

  /** `filterAppointments(data)`; a missing list (`null`/`undefined`) gives `[]`. */
  function FilterAppointments(data: Option<seq<Listing>>, searchTerm: string, selectedFilter: string): seq<Listing> {
    if data.None? then [] else OfKind(Searched(data.value, searchTerm), selectedFilter)
  }

  /** What the filter keeps, with respect to the search. */
  ghost predicate Kept(a: Listing, searchTerm: string, selectedFilter: string) {
    (AllSpace(searchTerm) || Mentions(a, ToLower(searchTerm))) &&
    (selectedFilter == "all" || a.kind == selectedFilter)
  }

  lemma FilterNoData(searchTerm: string, selectedFilter: string)
    ensures FilterAppointments(None, searchTerm, selectedFilter) == []
  {
  }

  /** A blank search with the `'all'` filter lists the input unchanged. */
  lemma FilterIdentity(data: seq<Listing>, searchTerm: string)
    requires AllSpace(searchTerm)
    ensures FilterAppointments(Some(data), searchTerm, "all") == data
  {
    TrimShape(searchTerm);
  }

  /** A record is listed exactly when it is in the input, mentions the
      lower-cased term in its doctor, specialty or present location (unless
      the term is blank), and has the selected type (unless `'all'`). */
  lemma FilterMembership(data: seq<Listing>, searchTerm: string, selectedFilter: string, a: Listing)
    ensures a in FilterAppointments(Some(data), searchTerm, selectedFilter) <==>
      a in data && Kept(a, searchTerm, selectedFilter)
  {
    TrimShape(searchTerm);
    SearchHitMeaning(a, ToLower(searchTerm));
  }

  /** Filtering never reorders or duplicates: the result is a subsequence. */
  lemma FilterKeepsOrder(data: seq<Listing>, searchTerm: string, selectedFilter: string)
    ensures IsSubsequence(FilterAppointments(Some(data), searchTerm, selectedFilter), data)
  {
    var s := Searched(data, searchTerm);
    if Trim(searchTerm) != [] {
      FilterIsSubsequence(data, (a: Listing) => SearchHit(a, ToLower(searchTerm)));
    } else {
      IsSubsequenceRefl(data);
    }
    if selectedFilter != "all" {
      FilterIsSubsequence(s, (a: Listing) => a.kind == selectedFilter);
      IsSubsequenceTrans(OfKind(s, selectedFilter), s, data);
    }
  }

  /** With a type selected, every listed record has that type. */
  lemma FilterKind(data: seq<Listing>, searchTerm: string, selectedFilter: string)
    requires selectedFilter != "all"
    ensures forall i :: 0 <= i < |FilterAppointments(Some(data), searchTerm, selectedFilter)| ==>
      FilterAppointments(Some(data), searchTerm, selectedFilter)[i].kind == selectedFilter
  {
  }

  // ---------------------------------------------------------------------------
  // Status badges.

  const ConfirmedColor: string := "bg-green-100 text-green-800"
  const PendingColor: string := "bg-yellow-100 text-yellow-800"
  const CancelledColor: string := "bg-red-100 text-red-800"
  const CompletedColor: string := "bg-gray-100 text-gray-800"
  const DefaultColor: string := "bg-blue-100 text-blue-800"

  const KnownStatuses: set<string> := {"Confirmed", "Pending", "Cancelled", "Completed"}

  /** `getStatusColor(status)`. */
  function StatusColor(status: string): string {
    match status
    case "Confirmed" => ConfirmedColor
    case "Pending" => PendingColor
    case "Cancelled" => CancelledColor
    case "Completed" => CompletedColor
    case _ => DefaultColor
  }

  /** The blue default is given exactly to the statuses outside the four,
      and the four are told apart: no two get the same colour. */
  lemma StatusColorCases(status: string, other: string)
    ensures StatusColor(status) == DefaultColor <==> status !in KnownStatuses
    ensures status in KnownStatuses && StatusColor(status) == StatusColor(other) ==> status == other
    ensures StatusColor("Confirmed") == ConfirmedColor && StatusColor("Pending") == PendingColor
    ensures StatusColor("Cancelled") == CancelledColor && StatusColor("Completed") == CompletedColor
  {
  }

  // ---------------------------------------------------------------------------
  // The details toggle.

  /** `setShowDetails(showDetails === id ? null : id)`. */
  function ToggleDetails(shown: Option<int>, clicked: int): (r: Option<int>)
    ensures r == None <==> shown == Some(clicked)
    ensures r != None ==> r == Some(clicked)
  {
    if shown == Some(clicked) then None else Some(clicked)
  }

  /** Clicking the same record twice: an open record reopens, any other
      state ends with nothing open. */
  lemma ToggleTwice(shown: Option<int>, clicked: int)
    ensures ToggleDetails(ToggleDetails(shown, clicked), clicked) ==
      (if shown == Some(clicked) then shown else None)
  {
  }

  // ---------------------------------------------------------------------------
  // The type label.

  /** `type.charAt(0).toUpperCase() + type.slice(1)` (ASCII letters). */
  function Capitalize(s: string): (r: string)
    ensures |r| == |s|
  {
    if s == [] then [] else [ToUpperChar(s[0])] + s[1..]
  }

  /** Only the first letter changes, it ends up upper case, and applying the
      label twice changes nothing more; ignoring case, the label is the type. */
  lemma CapitalizeShape(s: string)
    ensures s != [] ==> Capitalize(s)[1..] == s[1..] && !('a' <= Capitalize(s)[0] <= 'z')
    ensures Capitalize(Capitalize(s)) == Capitalize(s)
    ensures ToLower(Capitalize(s)) == ToLower(s)
  {
    if s != [] {
      var r := Capitalize(s);
      assert r[1..] == s[1..];
      assert ToLower(r)[0] == ToLower(s)[0];
    }
  }

  lemma TypeLabels()
    ensures Capitalize("video") == "Video" && Capitalize("in-person") == "In-person"
    ensures Capitalize("phone") == "Phone" && Capitalize("") == ""
  {
  }
}
