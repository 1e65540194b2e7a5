/**
 * The "create trip" sheet: a travel-style choice that the sheet shows but never uses, the rule
 * that enables its Next button, and the trip it submits.
 */
module TripSheetView {
  import opened Wrappers
  import opened Ascii
  import opened Wire
  import opened Model

  datatype TravelStyle = Solo | Couple | Family | Group

  /** `allCases`, in declaration order. */
  const AllStyles: seq<TravelStyle> := [Solo, Couple, Family, Group]

  /** The style's raw value, its case name: a non-empty run of lower-case letters. */
  function RawValue(s: TravelStyle): (v: string)
    ensures |v| > 0 && forall k :: 0 <= k < |v| ==> 'a' <= v[k] <= 'z'
  {
    match s
    case Solo => "solo"
    case Couple => "couple"
    case Family => "family"
    case Group => "group"
  }

  /** No two styles share a raw value, so `init(rawValue:)` can tell them apart. */
  lemma RawValuesDistinct(a: TravelStyle, b: TravelStyle)
    ensures RawValue(a) == RawValue(b) ==> a == b
  {
  }

  /** The title the style picker shows. */
  function Title(s: TravelStyle): (t: string)
    ensures |t| == |RawValue(s)| > 0
    ensures 'A' <= t[0] <= 'Z' && LowerChar(t[0]) == RawValue(s)[0]
    ensures t[1..] == RawValue(s)[1..]
  {
    match s
    case Solo => "Solo"
    case Couple => "Couple"
    case Family => "Family"
    case Group => "Group"
  }

  /** Each title is its raw value with the first letter capitalised, so lower-casing a title
      gives back the raw value; the case list holds every style once. */
  lemma TitlesMatchRawValues(s: TravelStyle)
    ensures Lower(Title(s)) == RawValue(s)
    ensures s in AllStyles
    ensures |AllStyles| == 4 && forall i, j :: 0 <= i < j < |AllStyles| ==> AllStyles[i] != AllStyles[j]
  {
    var t := Title(s);
    assert Lower(t)[0] == LowerChar(t[0]);
  }

  /** The sheet's state. */
  datatype Sheet = Sheet(
    tripName: string,
    tripDescription: string,
    showStylePicker: bool,
    selectedStyle: Option<TravelStyle>,
    isPresented: bool)

  /** A freshly presented sheet: empty texts, picker closed, Solo chosen. */
  function Initial(): (s: Sheet)
    ensures s.isPresented && s.selectedStyle == Some(AllStyles[0])
    ensures s.tripName == [] && s.tripDescription == [] && !s.showStylePicker
  {
    Sheet("", "", false, Some(Solo), true)
  }

  /** The Next button is enabled once the name holds something other than spaces and tabs. */
  function NextEnabled(s: Sheet): (enabled: bool)
    ensures enabled <==> !AllBlank(s.tripName)
  {
    TrimEmptyIffAllBlank(s.tripName);
    Trim(s.tripName) != []
  }

  /** What `submitAndDismiss` leaves behind: the sheet and the trip passed to `createTrip`. */
  datatype SheetSubmission = SheetSubmission(sheet: Sheet, created: Option<Trip>)

  /**
   * `submitAndDismiss`. `id` is the fresh UUID text, `now` the current instant and `weekLater`
   * what the calendar gives for seven days after `now` (`None` when it cannot compute it).
   * A trip is created exactly when Next is enabled; it is named after, and bound for, the trimmed
   * name, starts now and ends a week later (or now), and is otherwise empty.
   */
  function SubmitAndDismiss(s: Sheet, id: string, now: int, weekLater: Option<int>): (r: SheetSubmission)
    ensures r.created.Some? <==> NextEnabled(s)
    ensures r.created.None? ==> r.sheet == s
    ensures r.created.Some? ==>
      && r.sheet == s.(isPresented := false)
      && r.created.value.id == id
      && r.created.value.name == r.created.value.destination
      && r.created.value.name != [] && NoBlankEnds(r.created.value.name)
      && (exists i :: PaddedAt(s.tripName, r.created.value.name, i))
      && r.created.value.startDate == now
      && (weekLater.Some? ==> r.created.value.endDate == weekLater.value)
      && (weekLater.None? ==> r.created.value.endDate == now)
      && r.created.value.activities == [] && r.created.value.hotels == [] && r.created.value.flights == []
      && r.created.value.imageURL.None?
  {
    var name := Trim(s.tripName);
    if name == [] then SheetSubmission(s, None)
    else
      var endDate := weekLater.GetOr(now);
      SheetSubmission(s.(isPresented := false), Some(Trip(id, name, name, now, endDate, [], [], [], None)))
  }

  /** The description, the style and the picker's visibility have no effect on the trip created. */
  lemma StyleAndDescriptionIgnored(s: Sheet, d: string, style: Option<TravelStyle>, open: bool,
                                   id: string, now: int, weekLater: Option<int>)
    ensures SubmitAndDismiss(s.(tripDescription := d, selectedStyle := style, showStylePicker := open), id, now, weekLater).created
         == SubmitAndDismiss(s, id, now, weekLater).created
  {
  }

  /** A sheet-created trip carries no prices, so the service can always encode and send it. */
  lemma SheetTripIsEncodable(s: Sheet, id: string, now: int, weekLater: Option<int>)
    ensures SubmitAndDismiss(s, id, now, weekLater).created.Some? ==>
      Encodable(SubmitAndDismiss(s, id, now, weekLater).created.value)
  {
  }

  /** Submitting a sheet whose Next button is disabled does nothing, and the sheet stays up. */
  lemma BlankNameKeepsSheet(name: string, id: string, now: int, weekLater: Option<int>)
    requires AllBlank(name)
    ensures SubmitAndDismiss(Initial().(tripName := name), id, now, weekLater).sheet.isPresented
    ensures SubmitAndDismiss(Initial().(tripName := name), id, now, weekLater).created.None?
  {
  }
}
