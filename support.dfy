/** Types shared by the pallets: an optional value, the result every
    dispatchable operation returns, and the pair (result, new state) that
    the pure transition functions produce. */
module Support {

  datatype Option<T> = None | Some(value: T)

  /** Success, or failure carrying a human-readable reason. */
  datatype DispatchResult = Ok | Err(reason: string)

  /** What one operation returns together with the state it leaves behind. */
  datatype Step<S> = Step(result: DispatchResult, state: S)
}
