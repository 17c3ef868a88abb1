/** The exceptions the interaction core raises. */
module Errors {
  import opened Entities

  /** A callback field that may not be set together with `choices`. */
  datatype CallbackField = TtsField | ContentField | EmbedsField | FlagsField | ComponentsField

  datatype Error =
    /** KeyError: a payload lacks a key the decoder reads unconditionally. */
    | MissingKey(key: string)
    /** TypeError: the value under `key` has a JSON shape the decoder cannot use. */
    | WrongType(key: string)
    /** ValueError: the value under `key` is not a member of its enumeration. */
    | UnknownEnumValue(key: string)
    /** ValueError: a SUB_COMMAND option carries a value. */
    | ValueOnSubCommand
    /** ValueError: a SUB_COMMAND_GROUP option carries a value. */
    | ValueOnSubCommandGroup
    /** ValueError: an entity-typed option value arrived without a `resolved` table. */
    | MissingResolution
    /** KeyError: the entity an option names is not in its category. */
    | MissingReference(category: Category, key: string)
    /** TypeError: `resolved` holds a category the core does not know, with
        entries, or a category whose value is not a mapping. */
    | UnresolvableCategory
    /** RuntimeError: a second initial response. */
    | AlreadyResponded
    /** RuntimeError: a followup before the initial response. */
    | NotYetResponded
    /** AttributeError: a response or followup generated from an interaction
        whose token was never decoded, or a followup sent, edited or deleted
        without an interaction token. */
    | MissingToken
    /** AttributeError: a response without a type. */
    | MissingResponseType
    /** AttributeError: an autocomplete result without a choices list. */
    | MissingChoices
    /** AttributeError: an autocomplete result with more than 25 choices. */
    | TooManyChoices
    /** AttributeError: `choices` is set together with `field`. */
    | ConflictingPayload(field: CallbackField)
    /** TypeError: callback flags that are neither the flag enumeration nor an int. */
    | InvalidFlagsType
    /** ValueError: edit or delete with no message given and none sent. */
    | NoTargetMessage
}
