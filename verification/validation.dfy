/** A small Option type shared by the modules below. */
module Optional {

  datatype Option<+T> = None | Some(value: T)
}

/**
 The validator package the feedback rules are written against. Its source is
 not part of this model, so only what every caller relies on is fixed here:

 - the three rule primitives (not blank, maximum length, email syntax) are
   left uninterpreted, as function-valued fields of `Primitives`;
 - `Check` does nothing when its condition holds and records the key when it
   does not; which message survives when one key fails twice is the
   parameter `Policy`;
 - `ValidData` holds exactly when no key has been recorded.
 */
module Validation {

  /** What `Check` does with a second failure for a key that already holds a message. */
  datatype Policy = FirstWins | LastWins

  /** The accumulated error map, from field key to message. */
  datatype Validator = Validator(errors: map<string, string>)

  /** The uninterpreted rule primitives: NotBlank, MaxLength and IsValidEmail. */
  datatype Primitives = Primitives(
    notBlank: string -> bool,
    maxLength: (string, int) -> bool,
    isValidEmail: string -> bool)

  function NewValidator(): (v: Validator)
    ensures v.errors == map[]
  {
    Validator(map[])
  }

  /** The data is valid exactly when no key has been recorded. */
  predicate ValidData(v: Validator): (valid: bool)
    ensures valid <==> v.errors == map[]
  {
    |v.errors| == 0
  }

  /**
   Records `message` under `key`, keeping an earlier message when the policy
   says so.
   */
  function AddError(policy: Policy, v: Validator, key: string, message: string): (r: Validator)
    ensures r.errors.Keys == v.errors.Keys + {key}
    ensures r.errors[key] == (if policy == FirstWins && key in v.errors then v.errors[key] else message)
  {
    match policy
    case FirstWins => if key in v.errors then v else Validator(v.errors[key := message])
    case LastWins => Validator(v.errors[key := message])
  }

  /** Every other key keeps what it held. */
  lemma AddErrorKeepsOtherKeys(policy: Policy, v: Validator, key: string, message: string, other: string)
    requires other != key
    ensures other in AddError(policy, v, key, message).errors <==> other in v.errors
    ensures other in v.errors ==> AddError(policy, v, key, message).errors[other] == v.errors[other]
  {
  }

  /** A passing check changes nothing; a failing one records its key. */
  function Check(policy: Policy, v: Validator, ok: bool, key: string, message: string): (r: Validator)
    ensures ok ==> r == v
    ensures !ok ==> key in r.errors
  {
    if ok then v else AddError(policy, v, key, message)
  }
}
