/** The optional-value type used across the model for JavaScript's `undefined`/`null`. */
module Wrappers {

  datatype Option<+T> = None | Some(value: T) {

    /** The wrapped value, or `default` when there is none. */
    function GetOr(default: T): T {
      match this
      case Some(v) => v
      case None => default
    }
  }

  /** `Object.keys(m).length === 0` holds exactly for the empty map. */
  lemma EmptyMapHasNoKeys<K, V>(m: map<K, V>)
    ensures |m| == 0 <==> m == map[]
  {
  }
}
