/** The keyword arguments of the occurrence constructor and the back-fill
    it applies to them before handing them to the model base class. */
module Kwargs {
  import opened Wrappers
  import opened Temporal

  /** The keyword arguments the constructor gives a meaning to. */
  datatype Field =
    | UnvariedStartDate | UnvariedStartTime | UnvariedEndDate | UnvariedEndTime
    | VariedStartDate | VariedStartTime | VariedEndDate | VariedEndTime
    | Cancelled | HideFromLists

  /** A keyword argument's value; `Nil` is an explicit None. */
  datatype Value = Nil | DateVal(date: Date) | TimeVal(time: Time) | BoolVal(flag: bool)

  /** The (unvaried key, varied key) pairs, in the order the constructor
      visits them. */
  const KeyPairs: seq<(Field, Field)> := [
    (UnvariedStartDate, VariedStartDate),
    (UnvariedStartTime, VariedStartTime),
    (UnvariedEndDate, VariedEndDate),
    (UnvariedEndTime, VariedEndTime)
  ]

  const VariedKeys: set<Field> := {VariedStartDate, VariedStartTime, VariedEndDate, VariedEndTime}

  /** The value each field declaration accepts: a date or None for the date
      fields, a time or None for the time fields, a boolean for the flags. */
  predicate Fits(k: Field, v: Value) {
    match k
    case UnvariedStartDate | UnvariedEndDate | VariedStartDate | VariedEndDate => v.Nil? || v.DateVal?
    case UnvariedStartTime | UnvariedEndTime | VariedStartTime | VariedEndTime => v.Nil? || v.TimeVal?
    case Cancelled | HideFromLists => v.BoolVal?
  }

  predicate WellTyped(kwargs: map<Field, Value>) {
    forall k | k in kwargs :: Fits(k, kwargs[k])
  }

  /** The value a field takes from the arguments: the supplied one, or None
      when the key is absent. */
  function Arg(kwargs: map<Field, Value>, k: Field): Value {
    if k in kwargs then kwargs[k] else Nil
  }

  /** What the varied key holds once the back-fill is done: its own supplied
      value if there is one (None included), else the unvaried key's value,
      else None. */
  function BackFilled(kwargs: map<Field, Value>, uvKey: Field, vKey: Field): Value {
    if vKey in kwargs then kwargs[vKey] else Arg(kwargs, uvKey)
  }

  /** The constructor's loop over KeyPairs, which adds every missing varied
      key to the argument dictionary. */
  method BackFill(kwargs: map<Field, Value>) returns (filled: map<Field, Value>)
    ensures filled.Keys == kwargs.Keys + VariedKeys
    ensures forall k | k in kwargs :: filled[k] == kwargs[k]
    ensures forall p | p in KeyPairs :: filled[p.1] == BackFilled(kwargs, p.0, p.1)
    ensures WellTyped(kwargs) ==> WellTyped(filled)
  {
    filled := kwargs;
    for n := 0 to |KeyPairs|
      invariant forall k | k !in VariedKeys :: k in filled <==> k in kwargs
      invariant forall k | k in kwargs :: k in filled && filled[k] == kwargs[k]
      invariant forall j | 0 <= j < n :: KeyPairs[j].1 in filled
      invariant forall j | 0 <= j < n :: filled[KeyPairs[j].1] == BackFilled(kwargs, KeyPairs[j].0, KeyPairs[j].1)
      invariant forall j | n <= j < |KeyPairs| :: KeyPairs[j].1 in filled <==> KeyPairs[j].1 in kwargs
    {
      var (uvKey, vKey) := KeyPairs[n];
      if vKey !in filled {
        if uvKey in filled {
          filled := filled[vKey := filled[uvKey]];
        } else {
          filled := filled[vKey := Nil];
        }
      }
    }
    assert KeyPairs[0].1 in filled && KeyPairs[1].1 in filled;
    assert KeyPairs[2].1 in filled && KeyPairs[3].1 in filled;
  }
}
