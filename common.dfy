/** Values shared by the two controllers: request fields that may be missing,
    read with JavaScript's truthiness, document identifiers, uploaded files
    and the reasons a request is refused. */
module Common {

  /** A request field that was not sent (`undefined`) or was sent with a value. */
  datatype Option<T> = None | Some(value: T)

  /** A document identifier in its string form, as it appears in a request
      path or in the `_id` of a stored record. */
  type Id = string

  /** `!field` is false for a string field: it was sent and is not "". */
  predicate Truthy(field: Option<string>)
  {
    field.Some? && field.value != ""
  }

  /** `!field` is false for a numeric field: it was sent and is not 0.
      Any other number, a negative one included, passes. */
  predicate TruthyNumber(field: Option<real>)
  {
    field.Some? && field.value != 0.0
  }

  /** A file accepted by the upload middleware; only its stored name is used. */
  datatype UploadedFile = UploadedFile(filename: string)

  /** Why a request was answered with status 422. */
  datatype Reason =
    | NameRequired
    | EmailRequired
    | PhoneRequired
    | PasswordRequired
    | ConfirmationRequired
    | PasswordsDiffer
    | EmailInUse
    | NoSuchEmail
    | WrongPassword
    | NoSuchUser
    | SpeciesRequired
    | DescriptionRequired
    | AgeRequired
    | WeightRequired
    | ImageRequired
    | InvalidId
    | NotOwner
    | OwnPet
    | AlreadyScheduled
}
