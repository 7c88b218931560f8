/**
 * The program's React-style state hooks over a mutable reference cell.
 *
 * The setter of `useState` takes either a new value or a function of the
 * previous value and tells them apart with `typeof action === "function"`;
 * here the two cases are the constructors of `SetAction`, which also makes
 * a state cell whose value type is itself a function unambiguous.
 */
module ReactHooks {

  datatype SetAction<!T> = Value(value: T) | Update(updater: T -> T)

  /** The cell behind `useState`: `inner.value` and the setter that assigns it. */
  class StateCell<T> {
    var value: T

    constructor (initValue: T)
      ensures value == initValue
    {
      value := initValue;
    }

    /** The setter; like the assignment expression it is made of, it yields the stored value. */
    method Set(action: SetAction<T>) returns (r: T)
      modifies this
      ensures action.Value? ==> value == action.value
      ensures action.Update? ==> value == action.updater(old(value))
      ensures r == value
    {
      match action {
        case Value(v) => value := v;
        case Update(f) => value := f(value);
      }
      r := value;
    }
  }

  /** The cell behind `useReducer`: dispatching replaces the value by `reducer` of it. */
  class ReducerCell<T> {
    const reducer: T -> T
    var value: T

    constructor (reducer: T -> T, initialValue: T)
      ensures forall x :: this.reducer(x) == reducer(x)
      ensures value == initialValue
    {
      this.reducer := reducer;
      value := initialValue;
    }

    method Dispatch() returns (r: T)
      modifies this
      ensures value == reducer(old(value))
      ensures r == value
    {
      value := reducer(value);
      r := value;
    }
  }
}
