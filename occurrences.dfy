/** One occurrence of a recurring event: its original ("unvaried") timing,
    which with the event is its identity, an overridable ("varied") copy of
    that timing, the cancelled and hidden flags, and an optional event
    variation. */
module Occurrences {
  import opened Wrappers
  import opened Temporal
  import opened Kwargs
  import opened Reasons

  /** The owning event, compared as model instances are: by primary key. */
  datatype Event = Event(pk: int)

  /** The generator that produced the occurrence; only its event is read. */
  datatype Generator = Generator(event: Event)

  /** An event variation; Occurrence.Reason reports its `reason` verbatim. */
  datatype Variation = Variation(reason: string)

  /** Every stored attribute of an occurrence at one moment, the variation as
      its getter returns it. */
  datatype Fields = Fields(
    unvariedStartDate: Option<Date>, unvariedStartTime: Option<Time>,
    unvariedEndDate: Option<Date>, unvariedEndTime: Option<Time>,
    variedStartDate: Option<Date>, variedStartTime: Option<Time>,
    variedEndDate: Option<Date>, variedEndTime: Option<Time>,
    cancelled: bool, hideFromLists: bool, variedEvent: Option<Variation>)

  function DateOf(v: Value): Option<Date> {
    if v.DateVal? then Some(v.date) else None
  }

  function TimeOf(v: Value): Option<Time> {
    if v.TimeVal? then Some(v.time) else None
  }

  /** A boolean field absent from the arguments takes its default, False. */
  function FlagOf(v: Value): bool {
    v == BoolVal(true)
  }

  /** No varied key is among the constructor's arguments. */
  predicate NoVariedArgs(kwargs: map<Field, Value>) {
    forall k | k in VariedKeys :: k !in kwargs
  }

  function Negated(r: Result<int>): Result<int> {
    match r
    case Ok(x) => Ok(-x)
    case Err(e) => Err(e)
  }

  class Occurrence {
    const generator: Generator
    /** Whether the concrete occurrence class carries the injected
        `_varied_event` foreign key (its event class is varied by some
        variation class). */
    const variable: bool

    // The unvaried timing: with the event, the key of the occurrence.
    var unvariedStartDate: Option<Date>
    var unvariedStartTime: Option<Time>
    var unvariedEndDate: Option<Date>
    var unvariedEndTime: Option<Time>

    // The varied timing: usually a copy of the unvaried one.
    var variedStartDate: Option<Date>
    var variedStartTime: Option<Time>
    var variedEndDate: Option<Date>
    var variedEndTime: Option<Time>

    var cancelled: bool
    var hideFromLists: bool

    /** The `_varied_event` slot; it exists only when `variable`. */
    var variation: Option<Variation>

    /** How many times the occurrence has been saved. */
    ghost var saves: nat

    function Current(): Fields
      reads this
    {
      Fields(unvariedStartDate, unvariedStartTime, unvariedEndDate, unvariedEndTime,
             variedStartDate, variedStartTime, variedEndDate, variedEndTime,
             cancelled, hideFromLists, VariedEvent())
    }

    /** Builds an occurrence from keyword arguments, first giving every varied
        key that was not supplied the value of its unvaried key. */
    constructor (generator: Generator, variable: bool, kwargs: map<Field, Value>)
      requires WellTyped(kwargs)
      ensures this.generator == generator && this.variable == variable
      ensures unvariedStartDate == DateOf(Arg(kwargs, UnvariedStartDate))
      ensures unvariedStartTime == TimeOf(Arg(kwargs, UnvariedStartTime))
      ensures unvariedEndDate == DateOf(Arg(kwargs, UnvariedEndDate))
      ensures unvariedEndTime == TimeOf(Arg(kwargs, UnvariedEndTime))
      ensures variedStartDate == DateOf(BackFilled(kwargs, UnvariedStartDate, VariedStartDate))
      ensures variedStartTime == TimeOf(BackFilled(kwargs, UnvariedStartTime, VariedStartTime))
      ensures variedEndDate == DateOf(BackFilled(kwargs, UnvariedEndDate, VariedEndDate))
      ensures variedEndTime == TimeOf(BackFilled(kwargs, UnvariedEndTime, VariedEndTime))
      ensures cancelled == FlagOf(Arg(kwargs, Cancelled))
      ensures hideFromLists == FlagOf(Arg(kwargs, HideFromLists))
      ensures VariedEvent() == None && saves == 0
      ensures NoVariedArgs(kwargs) ==>
        IsMoved() == if UnvariedStart().Ok? && UnvariedEnd().Ok? then Ok(false) else Err(TypeError)
    {
      var filled := BackFill(kwargs);
      assert KeyPairs[0] == (UnvariedStartDate, VariedStartDate);
      assert KeyPairs[1] == (UnvariedStartTime, VariedStartTime);
      assert KeyPairs[2] == (UnvariedEndDate, VariedEndDate);
      assert KeyPairs[3] == (UnvariedEndTime, VariedEndTime);
      this.generator := generator;
      this.variable := variable;
      unvariedStartDate := DateOf(Arg(filled, UnvariedStartDate));
      unvariedStartTime := TimeOf(Arg(filled, UnvariedStartTime));
      unvariedEndDate := DateOf(Arg(filled, UnvariedEndDate));
      unvariedEndTime := TimeOf(Arg(filled, UnvariedEndTime));
      variedStartDate := DateOf(Arg(filled, VariedStartDate));
      variedStartTime := TimeOf(Arg(filled, VariedStartTime));
      variedEndDate := DateOf(Arg(filled, VariedEndDate));
      variedEndTime := TimeOf(Arg(filled, VariedEndTime));
      cancelled := FlagOf(Arg(filled, Cancelled));
      hideFromLists := FlagOf(Arg(filled, HideFromLists));
      variation := None;
      saves := 0;
      new;
      if NoVariedArgs(kwargs) {
        UnvariedCopyIsNotMoved(this);
      }
    }

    /** `unvaried_start` (alias `original_start`): the unvaried start date and
        time combined. */
    function UnvariedStart(): (r: Result<DateTime>)
      reads this
      ensures r.Ok? <==> unvariedStartDate.Some? && unvariedStartTime.Some?
      ensures r.Ok? ==> r.value == DateTime(unvariedStartDate.value, unvariedStartTime.value)
      ensures r.Err? ==> r.error == TypeError
    {
      Combine(unvariedStartDate, unvariedStartTime)
    }

    /** `unvaried_end` (alias `original_end`): the unvaried end date, or the
        unvaried start date when there is none, with the unvaried end time.
        A missing end time is not replaced by the start time. */
    function UnvariedEnd(): (r: Result<DateTime>)
      reads this
      ensures r.Ok? <==> (unvariedEndDate.Some? || unvariedStartDate.Some?) && unvariedEndTime.Some?
      ensures r.Ok? && unvariedEndDate.Some? ==> r.value == DateTime(unvariedEndDate.value, unvariedEndTime.value)
      ensures r.Ok? && unvariedEndDate.None? ==> r.value == DateTime(unvariedStartDate.value, unvariedEndTime.value)
      ensures unvariedEndTime.None? ==> r == Err(TypeError)
      ensures r.Err? ==> r.error == TypeError
    {
      Combine(if unvariedEndDate.Some? then unvariedEndDate else unvariedStartDate, unvariedEndTime)
    }

    /** `varied_start` (alias `start`), the canonical start: the varied start
        date and time combined. */
    function VariedStart(): (r: Result<DateTime>)
      reads this
      ensures r.Ok? <==> variedStartDate.Some? && variedStartTime.Some?
      ensures r.Ok? ==> r.value == DateTime(variedStartDate.value, variedStartTime.value)
      ensures r.Err? ==> r.error == TypeError
    {
      Combine(variedStartDate, variedStartTime)
    }

    /** `varied_end` (alias `end`), the canonical end: the varied end date, or
        the varied start date when there is none, with the varied end time.
        A missing end time is not replaced by the start time. */
    function VariedEnd(): (r: Result<DateTime>)
      reads this
      ensures r.Ok? <==> (variedEndDate.Some? || variedStartDate.Some?) && variedEndTime.Some?
      ensures r.Ok? && variedEndDate.Some? ==> r.value == DateTime(variedEndDate.value, variedEndTime.value)
      ensures r.Ok? && variedEndDate.None? ==> r.value == DateTime(variedStartDate.value, variedEndTime.value)
      ensures variedEndTime.None? ==> r == Err(TypeError)
      ensures r.Err? ==> r.error == TypeError
    {
      Combine(if variedEndDate.Some? then variedEndDate else variedStartDate, variedEndTime)
    }

    /** `unvaried_start = value` stores the date and the time of `value`. */
    method SetUnvariedStart(value: DateTime)
      modifies this
      ensures Current() == old(Current()).(unvariedStartDate := Some(value.date), unvariedStartTime := Some(value.time))
      ensures UnvariedStart() == Ok(value)
      ensures variation == old(variation) && saves == old(saves)
    {
      unvariedStartDate := Some(value.date);
      unvariedStartTime := Some(value.time);
    }

    /** The `varied_event` getter: the slot when the class has one, else None. */
    function VariedEvent(): (r: Option<Variation>)
      reads this
      ensures !variable ==> r == None
      ensures variable ==> r == variation
    {
      if variable then variation else None
    }

    /** The `varied_event` setter: stores the variation when the class has the
        slot, and otherwise raises AttributeError and changes nothing. */
    method SetVariedEvent(v: Option<Variation>) returns (r: Outcome)
      modifies this
      ensures r == (if variable then Pass else Fail(AttributeError))
      ensures variable ==> Current() == old(Current()).(variedEvent := v) && VariedEvent() == v
      ensures variable ==> saves == old(saves)
      ensures !variable ==> unchanged(this)
    {
      if variable {
        variation := v;
        r := Pass;
      } else {
        r := Fail(AttributeError);
      }
    }

    /** `is_moved`: the varied start or end differs from the unvaried one. The
        ends are combined only when the starts agree. */
    function IsMoved(): (r: Result<bool>)
      reads this
      ensures r == Ok(true) <==>
        UnvariedStart().Ok? && VariedStart().Ok? &&
        (UnvariedStart() != VariedStart() ||
         (UnvariedEnd().Ok? && VariedEnd().Ok? && UnvariedEnd() != VariedEnd()))
      ensures r == Ok(false) <==>
        UnvariedStart().Ok? && UnvariedEnd().Ok? &&
        UnvariedStart() == VariedStart() && UnvariedEnd() == VariedEnd()
      ensures r.Err? ==> r.error == TypeError
    {
      var unvariedStart :- UnvariedStart();
      var variedStart :- VariedStart();
      if unvariedStart != variedStart then Ok(true)
      else
        var unvariedEnd :- UnvariedEnd();
        var variedEnd :- VariedEnd();
        Ok(unvariedEnd != variedEnd)
    }

    /** `is_varied`: moved, or cancelled. */
    function IsVaried(): (r: Result<bool>)
      reads this
      ensures r.Err? <==> IsMoved().Err?
      ensures r == Ok(true) <==> IsMoved() == Ok(true) || (IsMoved().Ok? && cancelled)
      ensures r == Ok(false) <==> IsMoved() == Ok(false) && !cancelled
    {
      var moved :- IsMoved();
      Ok(moved || cancelled)
    }

    /** `cancel()`: sets the flag and saves; nothing else changes. */
    method Cancel()
      modifies this
      ensures Current() == old(Current()).(cancelled := true)
      ensures variation == old(variation) && saves == old(saves) + 1
      ensures IsMoved() == old(IsMoved())
      ensures IsMoved().Ok? ==> IsVaried() == Ok(true)
    {
      cancelled := true;
      saves := saves + 1;
    }

    /** `uncancel()`: clears the flag and saves; nothing else changes. */
    method Uncancel()
      modifies this
      ensures Current() == old(Current()).(cancelled := false)
      ensures variation == old(variation) && saves == old(saves) + 1
      ensures IsMoved() == old(IsMoved())
      ensures IsVaried() == IsMoved()
    {
      cancelled := false;
      saves := saves + 1;
    }

    /** `__cmp__`, the sort order: by varied start, then by varied end. The
        ends are combined only when the starts are equal. */
    function Compare(other: Occurrence): (r: Result<int>)
      reads this, other
      ensures r.Ok? <==>
        VariedStart().Ok? && other.VariedStart().Ok? &&
        (VariedStart() == other.VariedStart() ==> VariedEnd().Ok? && other.VariedEnd().Ok?)
      ensures r.Err? ==> r.error == TypeError
      ensures r.Ok? ==> r.value == -1 || r.value == 0 || r.value == 1
      ensures r.Ok? ==> (r.value < 0 <==>
        Before(VariedStart().value, other.VariedStart().value) ||
        (VariedStart() == other.VariedStart() && Before(VariedEnd().value, other.VariedEnd().value)))
      ensures r.Ok? ==> (r.value == 0 <==> VariedStart() == other.VariedStart() && VariedEnd() == other.VariedEnd())
    {
      var start :- VariedStart();
      var otherStart :- other.VariedStart();
      var rank := CompareDateTime(start, otherStart);
      if rank == 0 then
        var end :- VariedEnd();
        var otherEnd :- other.VariedEnd();
        Ok(CompareDateTime(end, otherEnd))
      else Ok(rank)
    }

    /** `__eq__`: the same event and the same unvaried start and end. The
        starts are combined only when the events agree, and the ends only
        when the starts agree too. */
    function Equals(other: Occurrence): (r: Result<bool>)
      reads this, other
      ensures r == Ok(true) <==>
        generator.event == other.generator.event &&
        UnvariedStart().Ok? && UnvariedEnd().Ok? &&
        UnvariedStart() == other.UnvariedStart() && UnvariedEnd() == other.UnvariedEnd()
      ensures generator.event != other.generator.event ==> r == Ok(false)
      ensures r.Err? <==>
        generator.event == other.generator.event &&
        (UnvariedStart().Err? || other.UnvariedStart().Err? ||
         (UnvariedStart() == other.UnvariedStart() && (UnvariedEnd().Err? || other.UnvariedEnd().Err?)))
      ensures r.Err? ==> r.error == TypeError
    {
      if generator.event != other.generator.event then Ok(false)
      else
        var start :- UnvariedStart();
        var otherStart :- other.UnvariedStart();
        if start != otherStart then Ok(false)
        else
          var end :- UnvariedEnd();
          var otherEnd :- other.UnvariedEnd();
          Ok(end == otherEnd)
    }

    /** `reason`: the variation's reason if there is a variation, else
        "Cancelled" if cancelled, else the clauses for a new start date, a
        shifted start time and a shifted end time, joined with ", ". */
    method Reason() returns (r: Result<string>)
      ensures VariedEvent().Some? ==> r == Ok(VariedEvent().value.reason)
      ensures VariedEvent().None? && cancelled ==> r == Ok("Cancelled")
      ensures VariedEvent().None? && !cancelled ==>
        var cs := Clauses(variedStartDate, unvariedStartDate, variedStartTime, unvariedStartTime,
                          variedEndTime, unvariedEndTime);
        (r.Ok? <==> cs.Ok?) &&
        (cs.Ok? ==> r.value == Join(", ", Messages(cs.value))) &&
        (cs.Err? ==> r.error == cs.error)
      ensures VariedEvent().None? && !cancelled && IsMoved() == Ok(false) ==> r == Ok("")
    {
      var variedEvent := VariedEvent();
      if variedEvent.Some? {
        return Ok(variedEvent.value.reason);
      }
      if cancelled {
        return Ok("Cancelled");
      }
      ghost var clauses: seq<Clause> := [];
      var messages: seq<string> := [];
      if variedStartDate != unvariedStartDate {
        clauses := clauses + [NewDate];
        messages := messages + [Message(NewDate)];
      }
      // each `elif` comparison cannot raise once the `if` comparison before it has not
      var startsEarlier :- PyLess(variedStartTime, unvariedStartTime);
      if startsEarlier {
        clauses := clauses + [Starts(Earlier, variedStartTime.value)];
        messages := messages + [Message(Starts(Earlier, variedStartTime.value))];
      } else if PyLess(unvariedStartTime, variedStartTime) == Ok(true) {
        clauses := clauses + [Starts(Later, variedStartTime.value)];
        messages := messages + [Message(Starts(Later, variedStartTime.value))];
      }
      var endsEarlier :- PyLess(variedEndTime, unvariedEndTime);
      if endsEarlier {
        clauses := clauses + [Ends(Earlier, variedEndTime.value)];
        messages := messages + [Message(Ends(Earlier, variedEndTime.value))];
      } else if PyLess(unvariedEndTime, variedEndTime) == Ok(true) {
        clauses := clauses + [Ends(Later, variedEndTime.value)];
        messages := messages + [Message(Ends(Later, variedEndTime.value))];
      }
      assert messages == Messages(clauses);
      r := Ok(Join(", ", messages));
      if IsMoved() == Ok(false) {
        assert clauses == [];
      }
    }

    /** Python's `x == self` inside `list.index(self)`: an identical object
        matches at once, any other is asked `x.__eq__(self)`. */
    function Matches(x: Occurrence): (r: Result<bool>)
      reads this, x
      ensures x == this ==> r == Ok(true)
      ensures r == Ok(true) <==>
        x == this ||
        (x.generator.event == generator.event && UnvariedStart().Ok? && UnvariedEnd().Ok? &&
         x.UnvariedStart() == UnvariedStart() && x.UnvariedEnd() == UnvariedEnd())
      ensures r.Err? ==> x != this && r.error == TypeError
    {
      if x == this then Ok(true) else x.Equals(this)
    }

    /** `list.index(self)` on `day` from position `from`: the first position
        that matches; ValueError when none does; the exception of the first
        comparison that raises before a match. */
    function IndexFrom(day: seq<Occurrence>, from: nat): (r: Result<nat>)
      requires from <= |day|
      reads this, day
      decreases |day| - from
      ensures r.Ok? ==>
        from <= r.value < |day| && Matches(day[r.value]) == Ok(true) &&
        forall j | from <= j < r.value :: Matches(day[j]) == Ok(false)
      ensures r == Err(ValueError) <==> forall j | from <= j < |day| :: Matches(day[j]) == Ok(false)
      ensures r.Err? && r.error != ValueError ==>
        exists j | from <= j < |day| :: Matches(day[j]) == Err(r.error) &&
          forall k | from <= k < j :: Matches(day[k]) == Ok(false)
    {
      if from == |day| then Err(ValueError)
      else
        match Matches(day[from])
        case Ok(true) => Ok(from)
        case Ok(false) => IndexFrom(day, from + 1)
        case Err(e) => Err(e)
    }

    /** `generated_id`: the position of this occurrence in `day`, the list the
        generator produces for the day of its varied start. Computing that
        day raises TypeError when the varied start is incomplete. */
    function GeneratedId(day: seq<Occurrence>): (r: Result<nat>)
      reads this, day
      ensures VariedStart().Err? ==> r == Err(TypeError)
      ensures r.Ok? ==>
        r.value < |day| && Matches(day[r.value]) == Ok(true) &&
        forall j | 0 <= j < r.value :: Matches(day[j]) == Ok(false)
      ensures r == Err(ValueError) <==>
        VariedStart().Ok? && forall j | 0 <= j < |day| :: Matches(day[j]) == Ok(false)
      ensures r.Err? && r.error != ValueError ==>
        r.error == TypeError &&
        (VariedStart().Err? ||
         exists j | 0 <= j < |day| :: Matches(day[j]) == Err(r.error) &&
           forall k | 0 <= k < j :: Matches(day[k]) == Ok(false))
    {
      if VariedStart().Err? then Err(TypeError) else IndexFrom(day, 0)
    }
  }

  /** An occurrence whose varied fields copy its unvaried ones is not moved,
      or raises because its unvaried start or end is incomplete. */
  lemma UnvariedCopyIsNotMoved(o: Occurrence)
    requires o.variedStartDate == o.unvariedStartDate && o.variedStartTime == o.unvariedStartTime
    requires o.variedEndDate == o.unvariedEndDate && o.variedEndTime == o.unvariedEndTime
    ensures o.IsMoved() == if o.UnvariedStart().Ok? && o.UnvariedEnd().Ok? then Ok(false) else Err(TypeError)
  {
  }

  /** Swapping the operands of Compare negates its result and keeps its
      exception. */
  lemma CompareAntisymmetric(a: Occurrence, b: Occurrence)
    ensures b.Compare(a) == Negated(a.Compare(b))
  {
  }

  /** Compare is transitive where it is defined, so it sorts consistently. */
  lemma CompareTransitive(a: Occurrence, b: Occurrence, c: Occurrence)
    requires a.Compare(b).Ok? && a.Compare(b).value <= 0
    requires b.Compare(c).Ok? && b.Compare(c).value <= 0
    ensures a.Compare(c).Ok? && a.Compare(c).value <= 0
  {
  }

  /** Equals is symmetric: swapping the operands changes neither the answer
      nor the exception. */
  lemma EqualsSymmetric(a: Occurrence, b: Occurrence)
    ensures a.Equals(b) == b.Equals(a)
  {
  }

  /** Equals is reflexive wherever the unvaried start and end exist. */
  lemma EqualsReflexive(a: Occurrence)
    ensures a.Equals(a) == if a.UnvariedStart().Ok? && a.UnvariedEnd().Ok? then Ok(true) else Err(TypeError)
  {
  }

  lemma EqualsTransitive(a: Occurrence, b: Occurrence, c: Occurrence)
    requires a.Equals(b) == Ok(true) && b.Equals(c) == Ok(true)
    ensures a.Equals(c) == Ok(true)
  {
  }

  /** Equals sees only the event and the unvaried start and end: two
      occurrences that agree on those compare alike against any third,
      whatever their varied fields, flags and variations. */
  lemma EqualsDependsOnlyOnKey(a: Occurrence, a': Occurrence, b: Occurrence)
    requires a.generator.event == a'.generator.event
    requires a.UnvariedStart() == a'.UnvariedStart() && a.UnvariedEnd() == a'.UnvariedEnd()
    ensures a.Equals(b) == a'.Equals(b)
  {
  }

  /** Equality is not the sort order's tie: equal occurrences whose varied
      starts differ do not compare as 0 ... */
  lemma EqualButNotTied(a: Occurrence, b: Occurrence)
    requires a.Equals(b) == Ok(true)
    requires a.VariedStart().Ok? && b.VariedStart().Ok? && a.VariedStart() != b.VariedStart()
    ensures a.Compare(b).Ok? && a.Compare(b) != Ok(0)
  {
  }

  /** ... and occurrences of different events with the same varied timing
      compare as 0 but are not equal. */
  lemma TiedButNotEqual(a: Occurrence, b: Occurrence)
    requires a.generator.event != b.generator.event
    requires a.VariedStart().Ok? && a.VariedEnd().Ok?
    requires a.VariedStart() == b.VariedStart() && a.VariedEnd() == b.VariedEnd()
    ensures a.Compare(b) == Ok(0) && a.Equals(b) == Ok(false)
  {
  }

  /** When no two entries of the day's list are the same object or equal,
      every entry whose start exists finds its own position. */
  lemma GeneratedIdOfDistinctDay(day: seq<Occurrence>, n: nat)
    requires n < |day|
    requires day[n].VariedStart().Ok?
    requires forall i, j | 0 <= i < j < |day| :: day[i] != day[j] && day[i].Equals(day[j]) == Ok(false)
    ensures day[n].GeneratedId(day) == Ok(n)
  {
  }
}
