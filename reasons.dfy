/** The date/time clauses of an occurrence's `reason`, the text of each
    clause, and the ", " join that assembles them. */
module Reasons {
  import opened Wrappers
  import opened Temporal

  /** Which way a varied time moved from its unvaried counterpart. */
  datatype Shift = Earlier | Later

  /** One clause of a reason; `at` is the varied time it reports. */
  datatype Clause =
    | NewDate
    | Starts(shift: Shift, at: Time)
    | Ends(shift: Shift, at: Time)

  /** The position a clause kind takes in a reason. */
  function Rank(c: Clause): nat {
    match c
    case NewDate => 0
    case Starts(_, _) => 1
    case Ends(_, _) => 2
  }

  function ShiftWord(s: Shift): string {
    match s
    case Earlier => "earlier"
    case Later => "later"
  }

  /** The text appended for a clause: "new date", "starts earlier at HH:MM",
      "starts later at HH:MM", "ends earlier at HH:MM" or "ends later at HH:MM". */
  function Message(c: Clause): (s: string)
    ensures |s| > 0
  {
    match c
    case NewDate => "new date"
    case Starts(shift, t) => "starts " + ShiftWord(shift) + " at " + FormatHHMM(t)
    case Ends(shift, t) => "ends " + ShiftWord(shift) + " at " + FormatHHMM(t)
  }

  function Messages(cs: seq<Clause>): (ms: seq<string>)
    ensures |ms| == |cs|
    ensures forall i | 0 <= i < |cs| :: ms[i] == Message(cs[i])
  {
    if cs == [] then [] else [Message(cs[0])] + Messages(cs[1..])
  }

  /** Python's `sep.join(parts)`: it starts with the first part. */
  function Join(sep: string, parts: seq<string>): (r: string)
    ensures parts != [] ==> parts[0] <= r
  {
    if |parts| == 0 then ""
    else if |parts| == 1 then parts[0]
    else parts[0] + sep + Join(sep, parts[1..])
  }

  /** The total length of a list of strings. */
  function TotalLength(parts: seq<string>): nat {
    if parts == [] then 0 else |parts[0]| + TotalLength(parts[1..])
  }

  /** The joined string is as long as all parts plus one separator between
      each two; its contents come from JoinAppend. */
  lemma {:induction false} JoinLength(sep: string, parts: seq<string>)
    requires parts != []
    ensures |Join(sep, parts)| == TotalLength(parts) + (|parts| - 1) * |sep|
  {
    if |parts| > 1 {
      JoinLength(sep, parts[1..]);
    }
  }

  /** Joining a concatenation puts one separator between the two joins, so
      the joined text is the parts in order with a separator between each
      two. */
  lemma {:induction false} JoinAppend(sep: string, a: seq<string>, b: seq<string>)
    requires a != [] && b != []
    ensures Join(sep, a + b) == Join(sep, a) + sep + Join(sep, b)
  {
    assert (a + b)[0] == a[0];
    if |a| == 1 {
      assert (a + b)[1..] == b;
    } else {
      assert (a + b)[1..] == a[1..] + b;
      JoinAppend(sep, a[1..], b);
    }
  }

  /** Joining non-empty parts gives the empty string only for no parts. */
  lemma JoinEmpty(sep: string, parts: seq<string>)
    requires forall i | 0 <= i < |parts| :: parts[i] != ""
    ensures Join(sep, parts) == "" <==> parts == []
  {
  }

  /** Python 2's `varied < unvaried`, then `varied > unvaried`: the direction
      the varied time moved in, None when it did not move. */
  function ShiftOf(varied: Option<Time>, unvaried: Option<Time>): (r: Result<Option<Shift>>)
    ensures r.Err? <==> varied.Some? != unvaried.Some?
    ensures r.Err? ==> r.error == TypeError
    ensures r == Ok(Some(Earlier)) <==> varied.Some? && unvaried.Some? && varied.value < unvaried.value
    ensures r == Ok(Some(Later)) <==> varied.Some? && unvaried.Some? && varied.value > unvaried.value
    ensures r == Ok(None) <==> varied == unvaried
  {
    var earlier :- PyLess(varied, unvaried);
    // once `varied < unvaried` has not raised, `varied > unvaried` cannot raise either
    if earlier then Ok(Some(Earlier))
    else if PyLess(unvaried, varied) == Ok(true) then Ok(Some(Later))
    else Ok(None)
  }

  /** The clauses of the reason of an occurrence that has no variation and is
      not cancelled: a new start date, then a start-time shift, then an
      end-time shift. The end dates are not among the arguments: the reason
      never consults them. */
  function Clauses(variedStartDate: Option<Date>, unvariedStartDate: Option<Date>,
                   variedStartTime: Option<Time>, unvariedStartTime: Option<Time>,
                   variedEndTime: Option<Time>, unvariedEndTime: Option<Time>): (r: Result<seq<Clause>>)
    ensures r.Err? <==> variedStartTime.Some? != unvariedStartTime.Some? || variedEndTime.Some? != unvariedEndTime.Some?
    ensures r.Err? ==> r.error == TypeError
  {
    var startShift :- ShiftOf(variedStartTime, unvariedStartTime);
    var endShift :- ShiftOf(variedEndTime, unvariedEndTime);
    Ok((if variedStartDate != unvariedStartDate then [NewDate] else [])
       + (if startShift.Some? then [Starts(startShift.value, variedStartTime.value)] else [])
       + (if endShift.Some? then [Ends(endShift.value, variedEndTime.value)] else []))
  }

  /** The clauses come in the order date, start, end, at most one of each
      kind; "new date" appears exactly when the start date changed, and a
      start (end) clause exactly when the start (end) time shifted, carrying
      the shift and the varied time. */
  lemma ClausesShape(variedStartDate: Option<Date>, unvariedStartDate: Option<Date>,
                     variedStartTime: Option<Time>, unvariedStartTime: Option<Time>,
                     variedEndTime: Option<Time>, unvariedEndTime: Option<Time>, cs: seq<Clause>)
    requires Clauses(variedStartDate, unvariedStartDate, variedStartTime, unvariedStartTime,
                     variedEndTime, unvariedEndTime) == Ok(cs)
    ensures |cs| <= 3
    ensures forall i, j | 0 <= i < j < |cs| :: Rank(cs[i]) < Rank(cs[j])
    ensures NewDate in cs <==> variedStartDate != unvariedStartDate
    ensures forall s, t: Time :: Starts(s, t) in cs <==>
      ShiftOf(variedStartTime, unvariedStartTime) == Ok(Some(s)) && variedStartTime == Some(t)
    ensures forall s, t: Time :: Ends(s, t) in cs <==>
      ShiftOf(variedEndTime, unvariedEndTime) == Ok(Some(s)) && variedEndTime == Some(t)
  {
  }

  /** An unshifted occurrence has no clauses. */
  lemma ClausesOfUnmoved(startDate: Option<Date>, startTime: Option<Time>, endTime: Option<Time>)
    ensures Clauses(startDate, startDate, startTime, startTime, endTime, endTime) == Ok([])
  {
    assert ShiftOf(startTime, startTime) == Ok(None);
    assert ShiftOf(endTime, endTime) == Ok(None);
    var r := Clauses(startDate, startDate, startTime, startTime, endTime, endTime);
    assert r.Ok?;
    assert r.value == [] + [] + [];
    assert |r.value| == 0;
    assert r == Ok([]);
  }

  const NineAm: Time := 9 * MicrosPerHour
  const EightAm: Time := 8 * MicrosPerHour
  const TenAm: Time := 10 * MicrosPerHour
  const TenThirtyAm: Time := 10 * MicrosPerHour + 30 * MicrosPerMinute

  /** A worked example: 09:00-10:00 moved to 08:00-10:30 on
      the same day gives a start shifted earlier and an end shifted later ... */
  lemma ClausesExample(day: Date)
    ensures Clauses(Some(day), Some(day), Some(EightAm), Some(NineAm), Some(TenThirtyAm), Some(TenAm))
            == Ok([Starts(Earlier, EightAm), Ends(Later, TenThirtyAm)])
  {
    var r := Clauses(Some(day), Some(day), Some(EightAm), Some(NineAm), Some(TenThirtyAm), Some(TenAm));
    assert ShiftOf(Some(EightAm), Some(NineAm)) == Ok(Some(Earlier));
    assert ShiftOf(Some(TenThirtyAm), Some(TenAm)) == Ok(Some(Later));
    assert r.value == [Starts(Earlier, EightAm)] + [Ends(Later, TenThirtyAm)];
    assert r.value == [Starts(Earlier, EightAm), Ends(Later, TenThirtyAm)];
  }

  /** The start clause of the example reads "starts earlier at 08:00" ... */
  lemma StartsExampleText()
    ensures Message(Starts(Earlier, EightAm)) == "starts earlier at 08:00"
  {
  }

  /** ... its end clause reads "ends later at 10:30" ... */
  lemma EndsExampleText()
    ensures Message(Ends(Later, TenThirtyAm)) == "ends later at 10:30"
  {
  }

  /** ... and joined they read "starts earlier at 08:00, ends later at 10:30". */
  lemma ClausesExampleText()
    ensures Join(", ", Messages([Starts(Earlier, EightAm), Ends(Later, TenThirtyAm)]))
            == "starts earlier at 08:00, ends later at 10:30"
  {
    StartsExampleText();
    EndsExampleText();
    var ms := Messages([Starts(Earlier, EightAm), Ends(Later, TenThirtyAm)]);
    assert ms == ["starts earlier at 08:00", "ends later at 10:30"];
    assert ms[1..] == ["ends later at 10:30"];
  }
}
