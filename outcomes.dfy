/** Outcomes of calls into code outside the model (spotipy, SoCo, the
    environment): a value, or an exception whose type does not matter. */
module Outcomes {

  datatype Option<+T> = None | Some(value: T)

  /** The outcome of a foreign call: it returned `value`, or it raised. */
  datatype Query<+T> = Returned(value: T) | Raised

  /** Python's `dict.get(key, default)` on a string-valued dictionary. */
  function Get(m: map<string, string>, key: string, default: string): string {
    if key in m then m[key] else default
  }
}
