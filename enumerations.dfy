/** The enumerations the interaction core switches on, as closed datatypes.
    Their numeric wire tags belong to the enumerations module, which is not
    part of this model: every decoder and encoder receives them as `Codes`. */
module Enumerations {
  import opened Wrappers

  /** COMMAND_OPTION: the kind of one node of a command's option tree. */
  datatype OptionKind =
    | SubCommand | SubCommandGroup
    | String | Integer | Boolean | Number
    | User | Channel | Role | Mentionable
  {
    /** Kinds whose raw value is stored as received. */
    predicate IsPrimitive() { String? || Integer? || Boolean? || Number? }

    /** Kinds that never carry a value. */
    predicate IsGroup() { SubCommand? || SubCommandGroup? }

    /** Kinds whose value names an entity of the resolution table. */
    predicate IsEntity() { User? || Channel? || Role? || Mentionable? }
  }

  /** INTERACTION_TYPES: what the user did. */
  datatype InteractionType =
    | Ping | ApplicationCommand | MessageComponent | ApplicationCommandAutocomplete | ModalSubmit

  /** COMMAND_TYPE: slash command, or a user or message context-menu command. */
  datatype CommandType = ChatInput | UserCommand | MessageCommand

  /** COMPONENT_TYPES: the kind of component that produced the interaction. */
  datatype ComponentType = ActionRow | Button | SelectMenu | TextInput

  /** INTERACTION_RESPONSE_TYPES: the kind of an initial response. */
  datatype ResponseType =
    | Pong
    | ChannelMessageWithSource
    | DeferredChannelMessageWithSource
    | DeferredUpdateMessage
    | UpdateMessage
    | ApplicationCommandAutocompleteResult
    | Modal

  /** A flag bit: a positive integer. */
  type FlagBit = n: int | n > 0 witness 1

  /** The numeric side of the enumerations: each enumeration's constructor
      (None where Python's would raise ValueError), the wire value of each
      response type, and the value of the EPHEMERAL callback flag. */
  datatype Codes = Codes(
    optionKind: int -> Option<OptionKind>,
    interactionType: int -> Option<InteractionType>,
    commandType: int -> Option<CommandType>,
    componentType: int -> Option<ComponentType>,
    responseValue: ResponseType -> int,
    ephemeral: FlagBit)
}
