/** Result types shared by the model, and Python's slicing. */
module Outcomes {

  datatype Option<+T> = None | Some(value: T)

  /** The exception classes that the modelled code raises, mostly those of src/cueflow/errors.py. */
  datatype Error =
    | ContractError
    | IntegrityError
    | ProviderError
    | AccountNotFoundError
    | AccountStateError
    | AuthenticationError
    | SessionStateError
    | IdentityConflictError
    | PhoneBlockedError
    | StorageError           // an sqlite3.IntegrityError that the code does not translate
    | CancelledError

  datatype Result<+T> = Ok(value: T) | Err(error: Error)

  function Min(x: int, y: int): int {
    if x < y then x else y
  }

  function Max(x: int, y: int): int {
    if x < y then y else x
  }

  /** `s[i:j]` for non-negative bounds: Python clips instead of failing. */
  function Slice<T>(s: seq<T>, i: nat, j: nat): (r: seq<T>)
    ensures i <= j <= |s| ==> r == s[i..j]
    ensures j <= i || |s| <= i ==> r == []
  {
    if i < j && i < |s| then s[i..Min(j, |s|)] else []
  }

  function Flatten<T>(ss: seq<seq<T>>): seq<T> {
    if ss == [] then [] else Flatten(ss[..|ss| - 1]) + ss[|ss| - 1]
  }

  lemma {:induction false} TakeSnoc<T>(s: seq<T>, i: nat)
    requires i < |s|
    ensures s[..i + 1] == s[..i] + [s[i]]
  {
  }
}
