# Occurrences of recurring events, in Dafny

This project models `OccurrenceBase` from the eventtools Django application
(`eventtools/models/occurrences.py`). An occurrence is one instance of a
recurring event. It stores two copies of its timing. The *unvaried* start and
end date and time are what the generator produced, and with the event they
form the occurrence's identity. The *varied* copy may be overridden to move
or retime that one instance. An occurrence also has a `cancelled` flag, a
`hide_from_lists` flag and, for event classes that have variations, an
optional link to an event variation.

The model is a Dafny class, `Occurrences.Occurrence`, with the same stored
attributes. The derived Python properties are functions that read the
object, except `reason`, a method that builds its list of messages by
appends as the source does (`occurrences.py:212-226`). The operations that assign to it are methods with `modifies this`.
The source's Python 2 semantics are modelled explicitly:

- `datetime.combine` raises `TypeError` when the date or the time is None,
  so every derived datetime is a `Result` (`Temporal.Combine`).
- `varied_end_date or varied_start_date` falls back to the start date,
  because Python dates are always true.
- The end *time* has no fallback. When it is None, the end cannot be
  combined.
- `date != None` is simply True. Ordering a `time` against None raises
  `TypeError`, while `None < None` is False (`Temporal.PyLess`). The
  `reason` property depends on this.
- `cmp` on datetimes is lexicographic on (date, time)
  (`Temporal.CompareDateTime`).
- `list.index(self)` matches an identical object at once. Any other entry
  `x` is asked `x == self`. The lookup raises `ValueError` when nothing
  matches.

Dates are `int` ordinals, times are microseconds since midnight, and a
datetime is a (date, time) pair. The constructor takes its keyword
arguments as a `map<Field, Value>`. `Kwargs.BackFill` is the constructor's
loop that fills in every missing varied key. `save()` is modelled as a
ghost counter, `saves`. The generator's `get_occurrences` is outside the
model, so `GeneratedId` is given that day's list as a parameter.

Two points where the model follows the code rather than what its
documentation suggests:

- The help texts of the varied end fields (`occurrences.py:33-34`) read as
  if a missing end date defaulted to the start date and a missing end time
  to the start time. The unvaried end fields (`occurrences.py:27-28`) carry
  the same two texts swapped: the end date says the start time is assumed,
  the end time that the start date is assumed. The code has the date
  fallback only: `UnvariedEnd` and `VariedEnd` raise `TypeError` when the
  end time is None.
- The unvaried start date and time are required model fields, but the
  constructor does not reject their absence. The fields stay None, and
  every getter that combines them raises later.

## Model

| member | source | states |
|---|---|---|
| `Temporal.Combine` | eventtools/models/occurrences.py:70 | `datetime.combine` succeeds exactly when both the date and the time are present, keeps both, and otherwise raises TypeError |
| `Temporal.CompareDateTime` | eventtools/models/occurrences.py:155-157 | `cmp` on datetimes is -1, 0 or 1; negative exactly when the first is chronologically before (by date, then time), and 0 exactly when they are equal |
| `Temporal.PyLess` | eventtools/models/occurrences.py:216-224 | Python 2 `<` on optional times raises exactly when one side is None, and is true exactly when both are present and the first is earlier |
| `Temporal.FormatHHMM` | eventtools/models/occurrences.py:217 | `strftime("%H:%M")` gives five characters: two digits, a colon, two digits |
| `Temporal.FormatHHMMRoundTrip` | eventtools/models/occurrences.py:217 | reading the formatted text back gives the time's hour and minute |
| `Temporal.FormatHHMMInjective` | eventtools/models/occurrences.py:217 | two times have the same text exactly when they agree on hour and minute |
| `Kwargs.BackFill` | eventtools/models/occurrences.py:43-53 | afterwards every varied key is present; supplied arguments (an explicit None included) are kept; a missing varied key takes its unvaried key's value, or None when that is missing too |
| `Occurrences.Occurrence.constructor` | eventtools/models/occurrences.py:40-55 | every stored field is the supplied or back-filled argument; the flags default to false; there is no variation yet; with no varied arguments the occurrence is not moved, or raises when its unvaried start or end is incomplete |
| `Occurrences.Occurrence.UnvariedStart` | eventtools/models/occurrences.py:83-84 | the unvaried start is the unvaried start date with the unvaried start time, defined exactly when both are present |
| `Occurrences.Occurrence.UnvariedEnd` | eventtools/models/occurrences.py:90-91 | the unvaried end uses the end date, or the start date when the end date is None, with the end time as is; a missing end time raises, and the only error is TypeError |
| `Occurrences.Occurrence.VariedStart` | eventtools/models/occurrences.py:69-70 | the canonical `start` is exactly the varied start date with the varied start time |
| `Occurrences.Occurrence.VariedEnd` | eventtools/models/occurrences.py:76-77 | the canonical `end` uses the varied end date, or the varied start date when that is None, with the varied end time as is; a missing end time raises, and the only error is TypeError |
| `Occurrences.Occurrence.SetUnvariedStart` | eventtools/models/occurrences.py:85-87 | stores the date and time of the value, so the unvaried start becomes that value; no other field changes |
| `Occurrences.Occurrence.VariedEvent` | eventtools/models/occurrences.py:99-103 | the getter yields None when the class has no variation slot, and the slot's content otherwise |
| `Occurrences.Occurrence.SetVariedEvent` | eventtools/models/occurrences.py:104-108 | without a slot it raises AttributeError and the object is unchanged; with one the getter afterwards returns the value set and nothing else changes |
| `Occurrences.Occurrence.IsMoved` | eventtools/models/occurrences.py:115-116 | true exactly when the varied start differs from the unvaried one, or the starts agree and the ends differ; false exactly when both pairs exist and agree; otherwise TypeError |
| `Occurrences.Occurrence.IsVaried` | eventtools/models/occurrences.py:119-120 | `is_varied` is `is_moved` or `cancelled`, and raises exactly when `is_moved` does |
| `Occurrences.Occurrence.Cancel` | eventtools/models/occurrences.py:140-142 | sets only `cancelled` to true and saves once; `is_moved` is unchanged and `is_varied` becomes true; calling it again changes no field |
| `Occurrences.Occurrence.Uncancel` | eventtools/models/occurrences.py:144-146 | sets only `cancelled` to false and saves once; `is_varied` becomes `is_moved`; calling it again changes no field |
| `Occurrences.Occurrence.Compare` | eventtools/models/occurrences.py:154-158 | `__cmp__` is the lexicographic order on (varied start, varied end); 0 exactly when both agree; the ends are needed only on a tie of the starts |
| `Occurrences.Occurrence.Equals` | eventtools/models/occurrences.py:160-161 | `__eq__` is true exactly when the events agree and the unvaried starts and ends exist and agree; different events are never equal; with the same event it raises TypeError exactly when a start is incomplete, or the starts agree and an end is incomplete |
| `Occurrences.Occurrence.Reason` | eventtools/models/occurrences.py:193-226 | a variation's reason wins over everything; otherwise "Cancelled" wins over the timing; otherwise the clauses joined with ", "; the result is "" for an occurrence that is not moved |
| `Occurrences.Occurrence.Matches` | eventtools/models/occurrences.py:235 | the `x == self` test of `list.index`: an identical object matches; any other matches exactly when it has the same event and the same complete unvaried start and end; it can raise only TypeError, never for the object itself |
| `Occurrences.Occurrence.IndexFrom` | eventtools/models/occurrences.py:235 | `list.index` returns the first match, raises ValueError exactly when nothing matches, and otherwise raises what the first failing comparison raised |
| `Occurrences.Occurrence.GeneratedId` | eventtools/models/occurrences.py:228-235 | a result is a valid index of the day's list where the occurrence matches, with no earlier match; raises TypeError when the start is incomplete, and ValueError exactly when nothing matches; any other error is the TypeError of an incomplete start or of the first comparison that raises before a match |
| `Occurrences.UnvariedCopyIsNotMoved` | eventtools/models/occurrences.py:115-116 | an occurrence whose varied fields copy its unvaried ones is not moved, or raises because its unvaried timing is incomplete |
| `Occurrences.CompareAntisymmetric` | eventtools/models/occurrences.py:154-158 | `cmp(b, a) == -cmp(a, b)`, with the same exception when one is raised |
| `Occurrences.CompareTransitive` | eventtools/models/occurrences.py:154-158 | if a sorts no later than b and b no later than c, then a sorts no later than c |
| `Occurrences.EqualsSymmetric` | eventtools/models/occurrences.py:160-161 | swapping the operands of equality changes neither the answer nor the exception |
| `Occurrences.EqualsReflexive` | eventtools/models/occurrences.py:160-161 | an occurrence equals itself whenever its unvaried start and end exist |
| `Occurrences.EqualsTransitive` | eventtools/models/occurrences.py:160-161 | equality is transitive |
| `Occurrences.EqualsDependsOnlyOnKey` | eventtools/models/occurrences.py:160-161 | equality depends only on the event and the unvaried start and end, not on varied fields, flags or variation |
| `Occurrences.EqualButNotTied` | eventtools/models/occurrences.py:154-161 | equal occurrences with different varied starts do not compare as 0 |
| `Occurrences.TiedButNotEqual` | eventtools/models/occurrences.py:154-161 | occurrences of different events with the same varied timing compare as 0 but are not equal |
| `Occurrences.GeneratedIdOfDistinctDay` | eventtools/models/occurrences.py:233-235 | when no two entries of the day's list are identical or equal, the entry at position n gets id n |
| `Reasons.ShiftOf` | eventtools/models/occurrences.py:216-224 | the earlier/later test raises exactly when one time is None; it yields earlier exactly when the varied time is smaller, later exactly when it is larger, and nothing exactly when both are equal |
| `Reasons.Clauses` | eventtools/models/occurrences.py:212-226 | the clause list raises exactly when the start times or the end times disagree on being None; it never looks at the end dates |
| `Reasons.ClausesShape` | eventtools/models/occurrences.py:212-224 | at most three clauses, in the order date, start, end, at most one of each; "new date" exactly when the start date changed; a start or end clause exactly when that time shifted, carrying the shift and the varied time |
| `Reasons.ClausesOfUnmoved` | eventtools/models/occurrences.py:212-226 | unchanged timing gives no clauses |
| `Reasons.ClausesExample` | eventtools/models/occurrences.py:212-224 | 09:00-10:00 moved to 08:00-10:30 on the same day gives a start shifted earlier and an end shifted later |
| `Reasons.StartsExampleText` | eventtools/models/occurrences.py:216-217 | that start clause reads "starts earlier at 08:00" |
| `Reasons.EndsExampleText` | eventtools/models/occurrences.py:223-224 | that end clause reads "ends later at 10:30" |
| `Reasons.ClausesExampleText` | eventtools/models/occurrences.py:226 | the two clauses join to "starts earlier at 08:00, ends later at 10:30" |
| `Reasons.Message` | eventtools/models/occurrences.py:214-224 | the text of a clause is never empty |
| `Reasons.Join` | eventtools/models/occurrences.py:226 | `", ".join` of a non-empty list starts with the first part |
| `Reasons.JoinAppend` | eventtools/models/occurrences.py:226 | joining two non-empty lists one after the other is the two joins with one separator between them, so the joined text is every part in order with a separator between each two |
| `Reasons.JoinLength` | eventtools/models/occurrences.py:226 | the joined text is as long as all parts together plus one separator between each two |
| `Reasons.JoinEmpty` | eventtools/models/occurrences.py:226 | joining non-empty clause texts gives "" only when there are no clauses |

## Left out

- Field declarations, the Django metaclass, `Meta` and
  `unique_together` (`occurrences.py:25-37`, `:58-62`) are persistence:
  only the stored attributes are modelled. `save()` is the ghost counter
  `saves`; the database write behind it is not modelled.
- `merged_event` (`occurrences.py:64-66`) is left out: it builds a
  `MergedObject` from a helper module that is not part of this model.
- `as_icalendar` (`occurrences.py:182-191`) is left out: it is a thin wrapper
  over the vobject library. It combines `end_date` without the start-date
  fallback.
- `__unicode__`, `unvaried_range_string`, `varied_range_string` and
  `date_description` (`occurrences.py:148-180`) are left out: they are
  gettext and locale-dependent `strftime` output. Of the time formatting,
  only the `%H:%M` that `reason` uses is modelled.
- The varied start, varied end and unvaried end setters
  (`occurrences.py:71-73`, `:78-80`, `:92-94`) are left out. They assign
  the bound methods `value.date` and `value.time` without calling them, so
  the stored field is a method object, not a date or time.
- The canonical aliases `start_time`, `end_time`, `start_date` and
  `end_date` (`occurrences.py:123-137`) are not separate members. They
  return the varied fields unchanged, and the model reads those fields
  directly. `unvaried_event` (`occurrences.py:111-113`) is `generator.event`,
  read directly.
- Occurrences.Occurrence.constructor: modelled for keyword arguments only.
  Positional `*args` (`occurrences.py:40`, `:55`) are not modelled; the
  back-fill (`occurrences.py:49-50`) looks only at the keyword dictionary,
  so an unvaried value given positionally would not be copied and its
  varied key would be set to None. Ill-typed values, such as
  `cancelled=None`, which the source accepts without complaint, are
  excluded by `WellTyped`.
- The initial `_varied_event` value cannot be given to the constructor:
  every occurrence starts without a variation and gets one through
  `SetVariedEvent`.
- Occurrences.Occurrence.GeneratedId: the generator's `get_occurrences`
  (`occurrences.py:234`) is outside the model, so the day's list is a
  parameter. The day bucketing (`occurrences.py:233`) is left to the caller,
  including the fact that it clears only the hour and the minute. Only the
  TypeError that computing that day raises is modelled.
- Event equality is modelled as equality of primary keys, which is how
  Django compares model instances. Events and variations carry only what
  this class reads: the key, and a variation's `reason`.
