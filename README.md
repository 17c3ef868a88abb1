# dyscord interactions in Dafny

A model of the interaction core of the dyscord Discord client library
(`src/dyscord/objects/interactions/interaction.py`). Discord sends an
interaction when a user runs an application command, presses a component or
asks for autocomplete. The bot answers with one initial response and then any
number of followup messages. The model covers:

- decoding the interaction payload (`Interaction.from_dict`), its `data`
  object (`InteractionData.from_dict`) with the `resolved` entity table, and
  the recursive option tree (`InteractionDataOptionStructure.from_dict`);
- the response phase: `can_respond`, `can_followup`, `generate_response` and
  `generate_followup`, as a class and as a pure phase machine over traces of
  requests;
- the outgoing callback (`InteractionCallback`): `generate`, `validate` and
  `to_dict`;
- the response and followup builders (`InteractionResponse`,
  `InteractionFollowup`): their `to_dict`, `validate`, the webhook payload and
  the choice of target message for edits and deletes.

Files, one module each:

- `wrappers.dfy` holds `Option`, `Result` and `Outcome`.
- `raw_json.dfy` holds the JSON value type. It also holds Python's `str()` and
  `int()` on JSON scalars, which the decoders use for keys and numbers.
- `enumerations.dfy` holds the enumerations as closed datatypes. `Codes` maps
  wire tags to members; the numeric tables are not part of the source, so they
  are a parameter.
- `entities.dfy` holds snowflakes and the leaf entities (users, members,
  messages, channels, roles, embeds, components, choices) as opaque values.
  `Encoders` stands for their `to_dict`.
- `errors.dfy` holds one constructor for each exception the core raises.
- `option_tree.dfy` holds the resolution table and the option-tree decoder.
- `interaction_data.dfy` holds the `data` decoder.
- `callback.dfy` holds `InteractionCallback`.
- `responses.dfy` holds `InteractionResponse` and `InteractionFollowup`.
- `interaction.dfy` holds `Interaction` and the phase machine.

How each part is modelled:

- **Exceptions.** Every Python exception becomes a `Failure` or `Fail` value.
- **Decoders.** Each decoder is a function. Next to it is a method with the
  source's own loops. The method is proved to compute exactly that function.
- **Objects updated in place.** These are classes with `modifies` contracts.
- **Network calls.** In `send` and `edit_followup_message` the API's reply is a
  parameter, so what is modelled is the payload sent, the chosen target and the
  update of `last_followup_message`.

Two behaviours of the code are kept as written:

- An autocomplete response with an empty choices list passes validation. Only
  a missing list and more than 25 entries are refused.
- `generate_response` sets the response flag before it reads `token`.
  `Interaction.GenerateResponse` therefore leaves the flag set even when it
  fails with `MissingToken`. That happens on an interaction that was never
  decoded, and on one whose decode failed before `token` was assigned (a
  missing `application_id`, `id` or `token`; `Interaction.FromDict` states
  that `token` is then unchanged).
- A followup built directly, not by `generate_followup`, has no interaction
  token. Its `send`, `edit_followup_message` and `delete_followup_message`
  fail with `MissingToken`, as reading the unset attribute does in Python.
  Edit and delete choose their target first, so a missing target is reported
  before a missing token.

## Model

| member | source | states |
|---|---|---|
| RawJson.IntRoundTrip | src/dyscord/objects/interactions/interaction.py:219 | `int(str(n)) == n` for every integer, so the string key of an integer option value names it exactly |
| RawJson.StrKeyInjective | src/dyscord/objects/interactions/interaction.py:219 | distinct integer values give distinct resolution keys |
| Entities.CategoryOf | src/dyscord/objects/interactions/interaction.py:155-167 | a category name is recognised exactly when it is one of members, users, messages, channels, roles |
| OptionTree.Table.Put | src/dyscord/objects/interactions/interaction.py:156-164 | storing an entry changes only its own category's map |
| OptionTree.MentionableValue | src/dyscord/objects/interactions/interaction.py:226-234 | a mentionable value is never a raw value; it is unset exactly when no category of users, members, roles, channels holds the key, and a user entry wins |
| OptionTree.ValueOf | src/dyscord/objects/interactions/interaction.py:209-234 | no value key leaves the value unset; a decoded group or sub-command value is unset; a raw value only on a primitive kind and equal to the payload's; a reference only on an entity kind with a table |
| OptionTree.KindOf | src/dyscord/objects/interactions/interaction.py:208 | the type tag decodes exactly when it is an enumeration tag of a known option kind, to that kind; otherwise an unknown-enum error on `type` |
| OptionTree.OptionOf | src/dyscord/objects/interactions/interaction.py:203-241 | a decoded node comes from a mapping whose `name` is the node's name as a string, and is focused exactly when the `focused` key is present |
| OptionTree.OptionsOf | src/dyscord/objects/interactions/interaction.py:237-240 | an empty options list decodes to no options |
| OptionTree.DecodeOption | src/dyscord/objects/interactions/interaction.py:203-241 | the option decoder with its child loop computes the option-tree function |
| OptionTree.DecodeOptionList | src/dyscord/objects/interactions/interaction.py:237-240 | the loop over option entries computes the left fold that keys each node by name |
| OptionTree.PrefixFailure | src/dyscord/objects/interactions/interaction.py:238-240 | once an entry fails, the whole list fails with that error |
| OptionTree.ValueRules | src/dyscord/objects/interactions/interaction.py:209-234 | no value key leaves the value unset; a value on a sub-command or group is an error; primitives keep the raw value unchanged; an entity kind without a table is an error; user, channel and role look up their own category by `str(value)` and a missing key is an error |
| OptionTree.OwnCategoryOnly | src/dyscord/objects/interactions/interaction.py:219-225 | a user, channel or role value depends only on its own category of the table |
| OptionTree.MentionablePriority | src/dyscord/objects/interactions/interaction.py:226-234 | a mentionable value is the first hit in the order users, members, roles, channels, and stays unset without error exactly when no category holds the key |
| OptionTree.DecodedNode | src/dyscord/objects/interactions/interaction.py:207-240 | a decoded node has the payload's name and kind, the value the value rules give, `focused` exactly when the key is present, and children decoded against the same table |
| OptionTree.OptionsFailFirst | src/dyscord/objects/interactions/interaction.py:238-240 | a list decodes exactly when every entry does; otherwise it fails with the first failing entry's error |
| OptionTree.OptionsKeys | src/dyscord/objects/interactions/interaction.py:237-240 | the keys of a decoded option map are exactly the entries' names |
| OptionTree.OptionsLastWriteWins | src/dyscord/objects/interactions/interaction.py:237-240 | for a repeated name the map holds the last entry with that name |
| OptionTree.DecodedTreeWellFormed | src/dyscord/objects/interactions/interaction.py:203-241 | with a category-consistent table, every decoded tree has values fitting their kinds (entities of the right category, groups unset) at every depth, and children keyed by their own names |
| OptionTree.DecodedListWellFormed | src/dyscord/objects/interactions/interaction.py:237-240 | every node of a decoded option map is well formed and stored under its own name |
| InteractionDataDecoder.StoreCategory | src/dyscord/objects/interactions/interaction.py:154-164 | the inner loop stores every entry of one category as an entity of that category and touches no other category |
| InteractionDataDecoder.ResolvedOf | src/dyscord/objects/interactions/interaction.py:151-169 | a `resolved` payload gives a table exactly when it is a mapping with no bad category; a non-mapping is a type error and a bad category the unresolvable-category error; the table holds per category exactly that category's entries |
| InteractionDataDecoder.ResolvedOfFails | src/dyscord/objects/interactions/interaction.py:165-167 | one unknown category with entries, or a category that is not a mapping, makes the whole table fail |
| InteractionDataDecoder.DecodeResolved | src/dyscord/objects/interactions/interaction.py:151-169 | the nested loops over categories and ids compute the resolution-table function |
| InteractionDataDecoder.ResolvedTable | src/dyscord/objects/interactions/interaction.py:151-169 | without a bad category the table succeeds, is category-consistent, and holds an id under a category exactly when the payload does, as an entity of the raw entry |
| InteractionDataDecoder.DecodeData | src/dyscord/objects/interactions/interaction.py:143-181 | the data method computes the data decoder |
| InteractionDataDecoder.DataOf | src/dyscord/objects/interactions/interaction.py:143-181 | a non-mapping `data` is a type error; a decoded `data` has its type, resolved table, custom id and component type exactly when their keys are present |
| InteractionDataDecoder.DataDecoded | src/dyscord/objects/interactions/interaction.py:143-181 | `resolved` is present exactly when its key is; the options are decoded against that same table and are well-formed trees |
| Callbacks.Generated | src/dyscord/objects/interactions/interaction.py:466-488 | tts and content are overwritten only by non-None arguments; a given `ephemeral` makes the flags a flag value whose truthiness is `ephemeral`, a None one keeps them; components become an empty list; embeds and choices are untouched |
| Callbacks.Check | src/dyscord/objects/interactions/interaction.py:490-502 | passes exactly when choices is None or no other field is set; otherwise names a set field, the first in the order tts, content, embeds, flags, components |
| Callbacks.Truthy | src/dyscord/objects/interactions/interaction.py:435 | None, the NONE flag and the integer 0 are false; the EPHEMERAL flag is true |
| Callbacks.FlagsWire | src/dyscord/objects/interactions/interaction.py:435-441 | flags encode exactly when they are the enum or an int, otherwise a flags type error; the wire value is an integer that is nonzero exactly when the flags are truthy; EPHEMERAL encodes as its value |
| Callbacks.MapSeq | src/dyscord/objects/interactions/interaction.py:447-463 | encoding a list keeps its length and encodes each element in place |
| Callbacks.Encode | src/dyscord/objects/interactions/interaction.py:431-464 | fails exactly for truthy flags that are neither the enum nor an int; emits flags exactly when truthy, with their wire value; emits tts and content exactly when set; no other keys than the six fields |
| Callbacks.EncodedLists | src/dyscord/objects/interactions/interaction.py:446-463 | components, embeds and choices appear exactly when set, each as the encoded list in the same order |
| Callbacks.Webhook | src/dyscord/objects/interactions/interaction.py:374-388 | the webhook payload always has content (null for None), has embeds and components exactly when set, and no other key |
| Callbacks.EncodeList | src/dyscord/objects/interactions/interaction.py:447-463 | the append loop computes the element-wise encoding |
| Callbacks.InteractionCallback.constructor | src/dyscord/objects/interactions/interaction.py:423-429 | a new callback has every field None |
| Callbacks.InteractionCallback.Generate | src/dyscord/objects/interactions/interaction.py:466-488 | the fields after `generate` are the generated body of the fields before it |
| Callbacks.InteractionCallback.Validate | src/dyscord/objects/interactions/interaction.py:490-502 | passes exactly when choices is None or none of tts, content, embeds, flags, components is set |
| Callbacks.InteractionCallback.ToDict | src/dyscord/objects/interactions/interaction.py:431-464 | the method's loops compute the callback encoding |
| Callbacks.GenerateIdempotent | src/dyscord/objects/interactions/interaction.py:478-488 | generating twice with the same arguments equals generating once |
| Callbacks.GeneratedEphemeralOnWire | src/dyscord/objects/interactions/interaction.py:482-487 | after `generate(ephemeral=True)` the wire flags are EPHEMERAL; after `generate(ephemeral=False)` the NONE flags are omitted |
| Callbacks.GeneratedConflictsWithChoices | src/dyscord/objects/interactions/interaction.py:488-502 | a callback holding choices never validates after `generate`, since components are reset to a list |
| Callbacks.ListRoundTrip | src/dyscord/objects/interactions/interaction.py:447-463 | with a left inverse of the element encoder, an encoded list decodes back to itself |
| Callbacks.EncodedListsRoundTrip | src/dyscord/objects/interactions/interaction.py:446-457 | the emitted components and embeds decode back to the staged lists, in order |
| Responses.ResponseCheck | src/dyscord/objects/interactions/interaction.py:296-307 | a missing type fails; an autocomplete result fails without a choices list or with more than 25 choices; it passes exactly when the type is set, the autocomplete rule holds and the callback check passes; other types defer to the callback check |
| Responses.ResponseWire | src/dyscord/objects/interactions/interaction.py:261-266 | a response encodes exactly when its type is set and its callback encodes, as an object of exactly `type` (the type's wire value) and `data` (the callback encoding) |
| Responses.FollowupWire | src/dyscord/objects/interactions/interaction.py:324-328 | a followup encodes exactly when its callback does, as an object of exactly `data` |
| Responses.TargetOf | src/dyscord/objects/interactions/interaction.py:352-356 | the target is the given message, else the last followup sent, and it fails exactly when there is neither |
| Responses.WebhookPayload | src/dyscord/objects/interactions/interaction.py:374-388 | the webhook builder with its loops computes the webhook payload |
| Responses.InteractionResponse.constructor | src/dyscord/objects/interactions/interaction.py:256-259 | a new response has a fresh empty callback, no type and no last followup |
| Responses.InteractionResponse.ToDict | src/dyscord/objects/interactions/interaction.py:261-266 | the method computes the response encoding |
| Responses.InteractionResponse.Generate | src/dyscord/objects/interactions/interaction.py:272-278 | passes its arguments through to the callback's generate |
| Responses.InteractionResponse.AddChoices | src/dyscord/objects/interactions/interaction.py:288-290 | starts an empty choices list and changes nothing else |
| Responses.InteractionResponse.Validate | src/dyscord/objects/interactions/interaction.py:296-307 | a missing type fails; an autocomplete result without choices fails; it passes exactly when the type is set, an autocomplete result has at most 25 choices, and the callback validates; other types give the callback's verdict |
| Responses.InteractionFollowup.constructor | src/dyscord/objects/interactions/interaction.py:319-322 | a new followup has a fresh empty callback and no last followup |
| Responses.InteractionFollowup.ToDict | src/dyscord/objects/interactions/interaction.py:324-328 | the method computes the followup encoding |
| Responses.InteractionFollowup.Validate | src/dyscord/objects/interactions/interaction.py:413-415 | passes exactly when the callback has no choices or none of its other fields set; a failure is a conflicting-payload error |
| Responses.InteractionFollowup.WebhookData | src/dyscord/objects/interactions/interaction.py:374-388 | the payload is the webhook flattening of the callback |
| Responses.InteractionFollowup.Generate | src/dyscord/objects/interactions/interaction.py:390-403 | generates the callback with no ephemeral argument, so the flags are untouched |
| Responses.InteractionFollowup.Send | src/dyscord/objects/interactions/interaction.py:330-337 | without an interaction token fails and leaves the last followup; otherwise posts the webhook payload and records the returned message as the last followup |
| Responses.InteractionFollowup.EditFollowupMessage | src/dyscord/objects/interactions/interaction.py:348-360 | without a target, or then without an interaction token, fails and leaves the last followup; otherwise edits the target with the webhook payload and records the edited message as the last followup |
| Responses.InteractionFollowup.DeleteFollowupMessage | src/dyscord/objects/interactions/interaction.py:362-372 | deletes the given message, else the last followup; fails when there is neither, and then when there is no interaction token |
| Responses.EmptyChoicesAccepted | src/dyscord/objects/interactions/interaction.py:301-305 | an autocomplete result with an empty choices list validates |
| Responses.GeneratedAutocompleteRejected | src/dyscord/objects/interactions/interaction.py:296-307 | an autocomplete response whose callback went through `generate` never validates |
| Interactions.HeaderOf | src/dyscord/objects/interactions/interaction.py:69-73 | the required attributes are read in the order application_id, id, token, version, type: the first missing key gives its missing-key error, a token without `str()` or a version without `int()` a type error, an unknown type tag an unknown-enum error; a decoded header holds exactly those values |
| Interactions.InteractionOf | src/dyscord/objects/interactions/interaction.py:67-91 | a non-mapping payload is a type error; a decoded interaction has a decodable header, and data, channel_id and guild_id exactly when their keys are present |
| Interactions.InteractionDecoded | src/dyscord/objects/interactions/interaction.py:67-91 | the decoder fails on the first missing required key, and otherwise with the header's error in the order `HeaderOf` states, then with the data decoder's error; it succeeds when both succeed; a decoded interaction holds the payload's ids, `str(token)`, `int(version)` and type, has each optional attribute exactly when its key is present, with data decoded by the data decoder and leaf entities of the right category |
| Interactions.HeaderRoundTrip | src/dyscord/objects/interactions/interaction.py:69-73 | the required attributes decode back from a payload built from them |
| Interactions.InteractionRoundTrip | src/dyscord/objects/interactions/interaction.py:67-91 | every decodable interaction decodes back from the payload built from it |
| Interactions.Applied | src/dyscord/objects/interactions/interaction.py:67-89 | a decode overwrites id, token and type and keeps data, user, member and message when their keys are absent |
| Interactions.Accepts | src/dyscord/objects/interactions/interaction.py:55-65 | a request is accepted exactly when it matches the phase: a response before the flag is set, a followup after |
| Interactions.After | src/dyscord/objects/interactions/interaction.py:103-106 | the flag is never cleared, a response request sets it, and a followup request leaves it |
| Interactions.StateAfter | src/dyscord/objects/interactions/interaction.py:103-122 | once set, the flag stays set through any trace, and a trace starting with a response request always ends with it set |
| Interactions.AtMostOneResponse | src/dyscord/objects/interactions/interaction.py:103-106 | in any trace of requests at most one response request uses up the flag, and none once a response was generated; so at most one initial response is generated |
| Interactions.StateAfterRespond | src/dyscord/objects/interactions/interaction.py:103-106 | the response flag is set after a trace exactly when it was set before or the trace asked for a response |
| Interactions.FollowupNeedsEarlierRespond | src/dyscord/objects/interactions/interaction.py:121-122 | from a fresh interaction a followup succeeds exactly when an earlier request asked for the response |
| Interactions.Interaction.constructor | src/dyscord/objects/interactions/interaction.py:50-53 | a new interaction can respond, cannot follow up, and has no attributes |
| Interactions.Interaction.CanRespond | src/dyscord/objects/interactions/interaction.py:55-59 | true exactly when a response request would be accepted, and always the negation of `can_followup` |
| Interactions.Interaction.CanFollowup | src/dyscord/objects/interactions/interaction.py:61-65 | true exactly when a followup request would be accepted |
| Interactions.Interaction.FromDict | src/dyscord/objects/interactions/interaction.py:67-91 | succeeds exactly when the payload decodes, fails with the decoder's error, leaves the attributes as the decode applied to the old ones, leaves `token` as it was when the decode failed before reading it, and never touches the response flag |
| Interactions.Interaction.ReadHeader | src/dyscord/objects/interactions/interaction.py:69-73 | assigns the required attributes as decoded, or fails with the decoder's error; a failure before `token` is read leaves `token` as it was |
| Interactions.Interaction.ReadIdentity | src/dyscord/objects/interactions/interaction.py:69-71 | assigns application_id, id and token as decoded, or fails with the decoder's error and leaves `token` as it was |
| Interactions.Interaction.ReadOptional | src/dyscord/objects/interactions/interaction.py:74-89 | assigns each optional attribute whose key is present and keeps the others |
| Interactions.Interaction.ReadData | src/dyscord/objects/interactions/interaction.py:78-81 | decodes `data` when present, or fails with the data decoder's error |
| Interactions.Interaction.GenerateResponse | src/dyscord/objects/interactions/interaction.py:93-114 | fails once a response was generated; otherwise sets the flag and returns a fresh response with the interaction's id and token, the requested type, and EPHEMERAL flags exactly when asked |
| Interactions.Interaction.GenerateFollowup | src/dyscord/objects/interactions/interaction.py:116-127 | fails before a response; otherwise returns a fresh followup with the interaction's id and token whose callback was generated with the given content and tts, and leaves the flag |
| Interactions.FollowupBody | src/dyscord/objects/interactions/interaction.py:116-127 | a followup's callback has empty components, no flags, validates, and carries no flags on the wire |
| Interactions.ResponseFlagsOnWire | src/dyscord/objects/interactions/interaction.py:112-113 | an ephemeral response emits the EPHEMERAL value; a non-ephemeral one emits no flags |

## Left out

- Network I/O: `InteractionResponse.send`, `edit_original_response`, `delete_initial_response` and the API calls of the followup methods. The API reply is a parameter, and only the payload, the target and `last_followup_message` are modelled.
- The leaf decoders (`User`, `Member`, `Message`, `ChannelImporter`, `Role`) and the `to_dict` of embeds, components and choices are not part of this model. Entities are opaque raw values, and the encoders are a parameter. The repeated `from_dict` on a resolved entry is a no-op on such a value.
- `Snowflake` and its validation are not part of this model; a snowflake is its raw JSON value.
- The enumerations module is not part of this model. Tag decoding and the values of response types and of EPHEMERAL are the `Codes` parameter.
- Floating-point JSON numbers (a NUMBER option's value) are not in the JSON type.
- `str()` of a list or a mapping (its repr) is not modelled. Such a token, custom id or option value is treated as a type error.
- Option names must be JSON strings. Python keys the options map by any hashable name.
- A payload or an option entry that is not a mapping is a type error, as in Python, where lines 69 and 207 subscript it.
- A `data` value that is not a mapping is a type error here, which fails the whole decode. Python only tests keys with `in` there (lines 145-178), so it accepts as data with empty options any list or string in which no key name occurs as an element or substring.
- A `resolved` value, or a category's value, that is not a mapping is a type error here. Python iterates it (lines 153-154): an empty list or an empty string stores nothing, and most other non-mapping values raise TypeError.
- An `options` value that is not a list is decoded as Python iterates it: an empty mapping or an empty string gives no options. Any other non-list value is a type error on `options`. That matches Python, where a non-empty mapping or string yields string entries that fail on `['name']`, and a scalar is not iterable.
- `CallbackFlags` holds only the NONE and EPHEMERAL members of the callback flag enumeration. Other members, and combinations of them, are not modelled. An int flags value stands for any other number.
- Interaction.FromDict: after a failure it promises only that the response flag is unchanged and, for a failure before `token` is read, that `token` is unchanged. The other attributes the source assigned before raising are not described. The same holds for its helpers `ReadHeader` and `ReadIdentity`. `ReadOptional` and `ReadData` promise the required attributes unchanged, but not which optional ones were assigned before a failure.
- The `guild_id` argument passed down the option decoders is unused by them and is not modelled.
- `InteractionData.values` is never assigned by the source and is not modelled.
- `__getitem__` and `__contains__` of the option structure are not modelled; the children are a map.
- Logging (`_log.critical`) has no behaviour to state.
- The `add_components`, `add_embeds` and `add_choice` mixins come from other files and are not part of this model.
- Whitespace, underscores and non-ASCII decimal digits that Python's `int()` accepts in a string (as for `version`, line 72) are not accepted by the model's integer parser, which takes an optional sign and ASCII digits only.
- Dropping a Python object's attribute (a missing `type` on a response) is modelled as an `Option` field that is None.
