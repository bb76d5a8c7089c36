/** The errors the modelled code can return. */
module Errors {

  /** A Go `error`. Every error the modelled code builds itself is a plain message
      (`errors.New`, `fmt.Errorf`); `ArgCount` stands for the command framework's own
      rejection of an argument count outside `[min, max]`, whose wording belongs to
      the framework rather than to this program. */
  datatype Error =
    | Message(text: string)
    | ArgCount(min: nat, max: nat, received: nat)
}
