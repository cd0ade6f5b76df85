/** The exceptions the converters raise, and a Result to carry them. */
module Errors {
  import opened Json

  datatype Option<+T> = None | Some(value: T)

  /** Why a ValueError was raised; each case carries what the source's message names. */
  datatype Reason =
    | InvalidUrl(url: string)                    // url_to_did_web: no network location
    | InvalidDidWeb(did: string)                 // did_web_to_url: empty or not 'did:web:'
    | UnknownAs1Type(objectType: Json, verb: Json)  // from_as1: unsupported combination
    | NotActorType(objectType: Json)             // as1_to_profile
    | MissingBskyType                            // to_as1: no '$type'
    | UnknownBskyType(bskyType: Json)            // to_as1: unsupported '$type'

  /** Python exceptions that escape the converters. AttributeError and TypeError stand for
      the interpreter's own failures: `.get` on a value that is not a dict, arithmetic or
      iteration on a value of the wrong type. */
  datatype Error =
    | ValueError(reason: Reason)
    | AssertionError
    | NotImplementedError
    | AttributeError
    | TypeError

  datatype Result<+T> = Ok(value: T) | Err(error: Error) {
    predicate IsFailure() {
      Err?
    }

    function PropagateFailure<U>(): Result<U>
      requires Err?
    {
      Err(error)
    }

    function Extract(): T
      requires Ok?
    {
      value
    }
  }
}
