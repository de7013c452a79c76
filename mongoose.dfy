/** The parts of the document store's behaviour that the schemas and controllers
    rely on: document identifiers and the wording of validation errors. */
module Mongoose {
  import Text

  /** A document identifier. Identifiers are opaque and unique; the model uses
      naturals handed out by a counter (see `Store.Database`). */
  type Id = nat

  /** The text of an identifier, as it appears in error messages. */
  function IdText(id: Id): string {
    Text.NatToString(id)
  }

  /** One failed validator: the field path and its message. */
  datatype FieldError = FieldError(path: string, message: string)

  function JoinErrors(errs: seq<FieldError>): string {
    if |errs| == 0 then ""
    else if |errs| == 1 then errs[0].path + ": " + errs[0].message
    else errs[0].path + ": " + errs[0].message + ", " + JoinErrors(errs[1..])
  }

  /** The message of a failed `Model.create`: "<Model> validation failed: path: message, ...". */
  function DocumentValidationMessage(model: string, errs: seq<FieldError>): (r: string)
    ensures |r| > |model| && r[..|model|] == model
  {
    model + " validation failed: " + JoinErrors(errs)
  }

  /** The message of a failed update run with `runValidators`. */
  function UpdateValidationMessage(errs: seq<FieldError>): (r: string)
    ensures r != ""
  {
    "Validation failed: " + JoinErrors(errs)
  }

  /** The built-in message of a `required` validator without a custom message. */
  function RequiredMessage(path: string): string {
    "Path `" + path + "` is required."
  }

  /** The built-in message of a failed `enum` validator. */
  function EnumMessage(value: string, path: string): string {
    "`" + value + "` is not a valid enum value for path `" + path + "`."
  }
}
