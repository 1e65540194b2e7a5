/**
 * The trip list screen's own logic: the ordinal suffix a trip card puts after the day of the
 * month, and the two ways the screen builds a new trip before handing it to the view model.
 */
module TripListView {
  import opened Wrappers
  import opened Ascii

  /** The suffix `formatDate` picks for a day of the month. */
  function DaySuffix(day: int): (suffix: string)
    ensures suffix in {"st", "nd", "rd", "th"}
  {
    if day == 1 || day == 21 || day == 31 then "st"
    else if day == 2 || day == 22 then "nd"
    else if day == 3 || day == 23 then "rd"
    else "th"
  }

  /** The English rule for ordinals: "th" for 11, 12 and 13 (and for every number ending in
      them), otherwise decided by the last digit. */
  function EnglishOrdinalSuffix(n: nat): string {
    if 11 <= n % 100 <= 13 then "th"
    else if n % 10 == 1 then "st"
    else if n % 10 == 2 then "nd"
    else if n % 10 == 3 then "rd"
    else "th"
  }

  /** For every day a month has, the card's table agrees with the English rule. */
  lemma DaySuffixIsEnglish(day: int)
    requires 1 <= day <= 31
    ensures DaySuffix(day) == EnglishOrdinalSuffix(day)
  {
    if day < 10 {
    } else if day < 20 {
      assert day % 100 == day;
    } else if day < 30 {
      assert day % 10 == day - 20;
    } else {
      assert day % 10 == day - 30;
    }
  }

  /** The suffix for the day text the "d" formatter writes; text that `Int(_:)` cannot read
      counts as day 1. */
  function SuffixOfDayText(dayText: string): (suffix: string)
    ensures ParseInt(dayText).None? ==> suffix == "st"
    ensures ParseInt(dayText).Some? ==> suffix == DaySuffix(ParseInt(dayText).value)
  {
    DaySuffix(ParseInt(dayText).GetOr(1))
  }

  /** A day written as the formatter writes it gets the English suffix of that day. */
  lemma DayTextSuffix(day: nat)
    requires 1 <= day <= 31
    ensures SuffixOfDayText(Decimal(day)) == EnglishOrdinalSuffix(day)
  {
    ParseDecimal(day);
    DaySuffixIsEnglish(day);
  }

  /** The screen's form state, with dates as whole-second instants. */
  datatype Form = Form(
    selectedCity: string,
    newTripName: string,
    newTripDestination: string,
    showingCreateTrip: bool,
    startDate: int,
    endDate: int)

  /** The five fields the screen fills in for a new trip; the remaining `Trip` fields are not
      given at these two call sites. */
  datatype TripDraft = TripDraft(id: string, name: string, destination: string, startDate: int, endDate: int)

  /** What a submit leaves behind: the form afterwards and the trip passed to `createTrip`, if any. */
  datatype Submission = Submission(form: Form, created: Option<TripDraft>)

  /** `submitCreateTripFromCard`: a city that is blank after trimming creates nothing and changes
      nothing; otherwise the trimmed city names the trip and is its destination, the trip spans the
      form's dates, and the city field is cleared. `id` is the fresh UUID text. */
  function SubmitFromCard(f: Form, id: string): (r: Submission)
    ensures r.created.None? <==> AllBlank(f.selectedCity)
    ensures r.created.None? ==> r.form == f
    ensures r.created.Some? ==>
      && r.created.value.name == r.created.value.destination
      && r.created.value.name != [] && NoBlankEnds(r.created.value.name)
      && (exists i :: PaddedAt(f.selectedCity, r.created.value.name, i))
      && r.created.value.id == id
      && r.created.value.startDate == f.startDate && r.created.value.endDate == f.endDate
      && r.form == f.(selectedCity := "")
  {
    var city := Trim(f.selectedCity);
    TrimEmptyIffAllBlank(f.selectedCity);
    if city == [] then Submission(f, None)
    else Submission(f.(selectedCity := ""), Some(TripDraft(id, city, city, f.startDate, f.endDate)))
  }

  /** Blanks typed around the city make no difference to the trip created from the card. */
  lemma CardIgnoresPadding(f: Form, id: string, before: string, after: string)
    requires AllBlank(before) && AllBlank(after)
    ensures SubmitFromCard(f.(selectedCity := before + f.selectedCity + after), id).created
         == SubmitFromCard(f, id).created
  {
    TrimIgnoresPadding(f.selectedCity, before, after);
  }

  /** `submitCreateTripFromSheet`: always creates a trip, from the name and destination exactly as
      typed (neither trimmed nor checked), then clears both fields and hides the sheet. */
  function SubmitFromSheet(f: Form, id: string): (r: Submission)
    ensures r.created.Some?
    ensures r.created.value.name == f.newTripName && r.created.value.destination == f.newTripDestination
    ensures r.created.value.id == id
    ensures r.created.value.startDate == f.startDate && r.created.value.endDate == f.endDate
    ensures r.form == f.(newTripName := "", newTripDestination := "", showingCreateTrip := false)
  {
    var trip := TripDraft(id, f.newTripName, f.newTripDestination, f.startDate, f.endDate);
    Submission(f.(showingCreateTrip := false, newTripName := "", newTripDestination := ""), Some(trip))
  }

  /** The two paths disagree on blank input: the card refuses a blank city, while the sheet
      creates a trip with a blank name and destination. */
  lemma BlankInputPathsDiffer(f: Form, id: string)
    requires f.selectedCity == " " && f.newTripName == "" && f.newTripDestination == ""
    ensures SubmitFromCard(f, id).created.None?
    ensures SubmitFromSheet(f, id).created == Some(TripDraft(id, "", "", f.startDate, f.endDate))
  {
  }
}
