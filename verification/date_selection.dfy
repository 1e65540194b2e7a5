/**
 * The date-range picker: two pickers whose minimums keep the start on or after today and the
 * end on or after the start. Instants are whole seconds; `today` is the start of the current
 * day, supplied by the caller.
 */
module DateSelection {

  /** The two pickers' minimum dates and current dates. */
  datatype Pickers = Pickers(startMin: int, start: int, endMin: int, end: int)

  function Max(a: int, b: int): (m: int)
    ensures m >= a && m >= b && (m == a || m == b)
  {
    if a >= b then a else b
  }

  /** The pickers agree with each other: the start respects its minimum, the end's minimum is
      the start, and the end respects that minimum. */
  predicate Consistent(p: Pickers) {
    p.startMin <= p.start && p.endMin == p.start && p.start <= p.end
  }

  /** `viewDidLoad`: the requested range, moved forward just as far as needed so that it starts
      no earlier than today and ends no earlier than it starts. */
  function Load(initialStart: int, initialEnd: int, today: int): (p: Pickers)
    ensures Consistent(p)
    ensures p.startMin == today
    ensures p.start >= initialStart && p.end >= initialEnd
    ensures p.start == initialStart || p.start == today
    ensures p.end == initialEnd || p.end == p.start
    ensures today <= initialStart <= initialEnd ==> p.start == initialStart && p.end == initialEnd
  {
    var start := Max(initialStart, today);
    var end := Max(initialEnd, start);
    Pickers(today, start, start, end)
  }

  /** What a user's spin of a picker leaves in it: `UIDatePicker` never shows a date below its
      minimum. */
  function PickStart(p: Pickers, d: int): (r: Pickers)
    ensures r.start >= p.startMin && (r.start == d || r.start == p.startMin)
    ensures d >= p.startMin ==> r.start == d
    ensures r.startMin == p.startMin && r.endMin == p.endMin && r.end == p.end
  {
    p.(start := Max(d, p.startMin))
  }

  function PickEnd(p: Pickers, d: int): (r: Pickers)
    ensures r.end >= p.endMin && (r.end == d || r.end == p.endMin)
    ensures d >= p.endMin ==> r.end == d
    ensures r.startMin == p.startMin && r.start == p.start && r.endMin == p.endMin
  {
    p.(end := Max(d, p.endMin))
  }

  /** `startDateChanged`, run after the start picker has moved: the end is pulled up to the new
      start when it fell behind, and the end's minimum follows the start. */
  function StartDateChanged(p: Pickers): (r: Pickers)
    ensures r.start == p.start && r.startMin == p.startMin
    ensures r.endMin == r.start && r.start <= r.end
    ensures p.end >= p.start ==> r.end == p.end
    ensures p.end < p.start ==> r.end == p.start
    ensures p.startMin <= p.start ==> Consistent(r)
  {
    var end := if p.end < p.start then p.start else p.end;
    p.(end := end, endMin := p.start)
  }

  /** `endDateChanged` only refreshes the two text fields. */
  function EndDateChanged(p: Pickers): (r: Pickers)
    ensures r == p
  {
    p
  }

  /** `chooseTapped`: the range handed to `onChoose`. */
  function Choose(p: Pickers): (range: (int, int))
    ensures range.0 == p.start && range.1 == p.end
    ensures Consistent(p) ==> p.startMin <= range.0 <= range.1
  {
    (p.start, p.end)
  }

  /** One thing the user does on the screen. */
  datatype Event = SpinStart(d: int) | SpinEnd(d: int)

  /** The pickers after a user interaction and the handler it triggers. */
  function Step(p: Pickers, e: Event): Pickers {
    match e
    case SpinStart(d) => StartDateChanged(PickStart(p, d))
    case SpinEnd(d) => EndDateChanged(PickEnd(p, d))
  }

  function Run(p: Pickers, events: seq<Event>): Pickers
    decreases |events|
  {
    if events == [] then p else Run(Step(p, events[0]), events[1..])
  }

  /** Every interaction keeps the pickers consistent and never moves the start minimum. */
  lemma StepKeepsConsistent(p: Pickers, e: Event)
    requires Consistent(p)
    ensures Consistent(Step(p, e)) && Step(p, e).startMin == p.startMin
  {
  }

  /** Whatever the user does after the screen loads, the range chosen starts no earlier than
      today and ends no earlier than it starts. */
  lemma {:induction false} ChosenRangeIsOrdered(p: Pickers, events: seq<Event>)
    requires Consistent(p)
    ensures Consistent(Run(p, events))
    ensures p.startMin <= Choose(Run(p, events)).0 <= Choose(Run(p, events)).1
    decreases |events|
  {
    if events != [] {
      StepKeepsConsistent(p, events[0]);
      ChosenRangeIsOrdered(Step(p, events[0]), events[1..]);
    }
  }

  /** The same from the initial screen: the chosen range never starts before today. */
  lemma LoadedRangeIsOrdered(initialStart: int, initialEnd: int, today: int, events: seq<Event>)
    ensures var range := Choose(Run(Load(initialStart, initialEnd, today), events));
      today <= range.0 <= range.1
  {
    ChosenRangeIsOrdered(Load(initialStart, initialEnd, today), events);
  }
}
