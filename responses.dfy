/** The builders for the initial response (`InteractionResponse`) and for
    followup messages (`InteractionFollowup`), both wrapping a callback. */
module Responses {
  import opened Wrappers
  import opened RawJson
  import opened Enumerations
  import opened Entities
  import opened Errors
  import opened Callbacks

  /** The most choices an autocomplete result may carry. */
  const MaxChoices := 25

  /** `InteractionResponse.validate()`: a type must be set; an autocomplete
      result needs a choices list (possibly empty) of at most 25 entries;
      then the callback's own check applies, for every type. */
  function ResponseCheck(kind: Option<ResponseType>, b: Body): (r: Outcome<Error>)
    ensures kind.None? ==> r == Fail(MissingResponseType)
    ensures kind == Some(ApplicationCommandAutocompleteResult) && b.choices.None? ==> r == Fail(MissingChoices)
    ensures kind == Some(ApplicationCommandAutocompleteResult) && b.choices.Some? && |b.choices.value| > MaxChoices ==>
              r == Fail(TooManyChoices)
    ensures r.Pass? <==>
              && kind.Some?
              && (kind.value.ApplicationCommandAutocompleteResult? ==> b.choices.Some? && |b.choices.value| <= MaxChoices)
              && Check(b).Pass?
    ensures kind.Some? && !kind.value.ApplicationCommandAutocompleteResult? ==> r == Check(b)
  {
    if kind.None? then Fail(MissingResponseType)
    else if kind.value.ApplicationCommandAutocompleteResult? && b.choices.None? then Fail(MissingChoices)
    else if kind.value.ApplicationCommandAutocompleteResult? && |b.choices.value| > MaxChoices then Fail(TooManyChoices)
    else Check(b)
  }

  /** `InteractionResponse.to_dict()`: the type's wire value and the callback. */
  function ResponseWire(codes: Codes, enc: Encoders, kind: Option<ResponseType>, b: Body): (r: Result<Json, Error>)
    ensures kind.None? ==> r == Failure(MissingResponseType)
    ensures kind.Some? && Encode(codes, enc, b).Failure? ==> r == Failure(Encode(codes, enc, b).error)
    ensures r.Success? <==> kind.Some? && Encode(codes, enc, b).Success?
    ensures r.Success? ==>
              && r.value.JObj?
              && r.value.fields.Keys == {"type", "data"}
              && r.value.fields["type"] == JInt(codes.responseValue(kind.value))
              && Success(r.value.fields["data"]) == Encode(codes, enc, b)
  {
    if kind.None? then Failure(MissingResponseType)
    else
      var data :- Encode(codes, enc, b);
      Success(JObj(map["type" := JInt(codes.responseValue(kind.value)), "data" := data]))
  }

  /** `InteractionFollowup.to_dict()`: the callback under `data`. */
  function FollowupWire(codes: Codes, enc: Encoders, b: Body): (r: Result<Json, Error>)
    ensures r.Success? <==> Encode(codes, enc, b).Success?
    ensures r.Failure? ==> r.error == Encode(codes, enc, b).error
    ensures r.Success? ==>
              r.value.JObj? && r.value.fields.Keys == {"data"} && Success(r.value.fields["data"]) == Encode(codes, enc, b)
  {
    var data :- Encode(codes, enc, b);
    Success(JObj(map["data" := data]))
  }

  /** The message an edit or delete of a followup acts on: the given one,
      else the last followup sent, else an error. */
  function TargetOf(message: Option<Entity>, last: Option<Entity>): (r: Result<Entity, Error>)
    ensures message.Some? ==> r == Success(message.value)
    ensures message.None? && last.Some? ==> r == Success(last.value)
    ensures r.Failure? <==> message.None? && last.None?
    ensures r.Failure? ==> r.error == NoTargetMessage
  {
    if message.Some? then Success(message.value)
    else if last.Some? then Success(last.value)
    else Failure(NoTargetMessage)
  }

  /** The webhook payload for a followup, built with the list loops. */
  method WebhookPayload(enc: Encoders, b: Body) returns (w: Json)
    ensures w == Webhook(enc, b)
  {
    var fields := map["content" := ContentJson(b.content)];
    if b.embeds.Some? {
      var items := EncodeList(enc.embed, b.embeds.value);
      fields := fields["embeds" := JArr(items)];
    }
    if b.components.Some? {
      var items := EncodeList(enc.component, b.components.value);
      fields := fields["components" := JArr(items)];
    }
    w := JObj(fields);
  }

  /** A followup edit as sent: the message it targets, the webhook payload,
      and the message the API returned. */
  datatype Edit = Edit(target: Entity, payload: Json, updated: Entity)

  class InteractionResponse {
    var kind: Option<ResponseType>
    const data: InteractionCallback
    var interactionId: Option<Snowflake>
    var interactionToken: Option<string>
    var lastFollowupMessage: Option<Entity>

    constructor ()
      ensures fresh(data) && data.Fields() == EmptyBody
      ensures kind.None? && interactionId.None? && interactionToken.None? && lastFollowupMessage.None?
    {
      data := new InteractionCallback();
      kind, interactionId, interactionToken, lastFollowupMessage := None, None, None, None;
    }

    /** `to_dict()`. */
    method ToDict(codes: Codes, enc: Encoders) returns (r: Result<Json, Error>)
      ensures r == ResponseWire(codes, enc, kind, data.Fields())
    {
      if kind.None? {
        return Failure(MissingResponseType);
      }
      var body :- data.ToDict(codes, enc);
      return Success(JObj(map["type" := JInt(codes.responseValue(kind.value)), "data" := body]));
    }

    /** `generate(content, tts, ephemeral)`, passed through to the callback. */
    method Generate(content: Option<string>, tts: Option<bool>, ephemeral: Option<bool>)
      modifies data
      ensures data.Fields() == Generated(old(data.Fields()), tts, content, ephemeral)
    {
      data.Generate(tts, content, ephemeral);
    }

    /** `add_choices()`: start an empty choices list. */
    method AddChoices()
      modifies data
      ensures data.Fields() == old(data.Fields()).(choices := Some([]))
    {
      data.choices := Some([]);
    }

    /** `validate()`. */
    function Validate(): (r: Outcome<Error>)
      reads this, data
      ensures kind.None? ==> r == Fail(MissingResponseType)
      ensures kind == Some(ApplicationCommandAutocompleteResult) && data.choices.None? ==> r == Fail(MissingChoices)
      ensures r.Pass? <==>
                && kind.Some?
                && (kind.value.ApplicationCommandAutocompleteResult? ==>
                      data.choices.Some? && |data.choices.value| <= MaxChoices)
                && data.Validate().Pass?
      ensures kind.Some? && !kind.value.ApplicationCommandAutocompleteResult? ==> r == data.Validate()
    {
      ResponseCheck(kind, data.Fields())
    }
  }

  class InteractionFollowup {
    const data: InteractionCallback
    var interactionId: Option<Snowflake>
    var interactionToken: Option<string>
    var lastFollowupMessage: Option<Entity>

    constructor ()
      ensures fresh(data) && data.Fields() == EmptyBody
      ensures interactionId.None? && interactionToken.None? && lastFollowupMessage.None?
    {
      data := new InteractionCallback();
      interactionId, interactionToken, lastFollowupMessage := None, None, None;
    }

    /** `to_dict()`. */
    method ToDict(codes: Codes, enc: Encoders) returns (r: Result<Json, Error>)
      ensures r == FollowupWire(codes, enc, data.Fields())
    {
      var body :- data.ToDict(codes, enc);
      return Success(JObj(map["data" := body]));
    }

    /** `_generate_webhook_data()`. */
    method WebhookData(enc: Encoders) returns (w: Json)
      ensures w == Webhook(enc, data.Fields())
    {
      w := WebhookPayload(enc, data.Fields());
    }

    /** `generate(content, tts)`: the callback's generate, never touching
        the flags. */
    method Generate(content: Option<string>, tts: Option<bool>)
      modifies data
      ensures data.Fields() == Generated(old(data.Fields()), tts, content, None)
    {
      data.Generate(tts, content, None);
    }

    /** `validate()`. */
    function Validate(): (r: Outcome<Error>)
      reads this, data
      ensures r.Pass? <==>
                (data.choices.None? ||
                 (data.tts.None? && data.content.None? && data.embeds.None? && data.flags.None? && data.components.None?))
      ensures r.Fail? ==> r.error.ConflictingPayload? && data.choices.Some?
    {
      data.Validate()
    }

    /** `send()`, with the API's reply as a parameter: the payload posted and
        the new message, which becomes the last followup. Posting needs the
        interaction token, which a followup built directly does not have. */
    method Send(enc: Encoders, reply: Json) returns (r: Result<(Json, Entity), Error>)
      modifies this
      ensures interactionToken.None? ==>
                r == Failure(MissingToken) && lastFollowupMessage == old(lastFollowupMessage)
      ensures interactionToken.Some? ==>
                && r == Success((Webhook(enc, data.Fields()), Entity(Messages, reply)))
                && lastFollowupMessage == Some(Entity(Messages, reply))
      ensures interactionId == old(interactionId) && interactionToken == old(interactionToken)
    {
      var payload := WebhookData(enc);
      if interactionToken.None? {
        return Failure(MissingToken);
      }
      var sent := Entity(Messages, reply);
      lastFollowupMessage := Some(sent);
      return Success((payload, sent));
    }

    /** `edit_followup_message(message)`, with the API's reply as a parameter.
        Without a target, or then without a token, it fails and changes
        nothing; otherwise the edited message becomes the last followup. */
    method EditFollowupMessage(enc: Encoders, message: Option<Entity>, reply: Json) returns (r: Result<Edit, Error>)
      modifies this
      ensures var target := TargetOf(message, old(lastFollowupMessage));
              && (target.Failure? ==> r == Failure(NoTargetMessage))
              && (target.Success? && interactionToken.None? ==> r == Failure(MissingToken))
              && (r.Failure? ==> lastFollowupMessage == old(lastFollowupMessage))
              && (target.Success? && interactionToken.Some? ==>
                    && r == Success(Edit(target.value, Webhook(enc, data.Fields()), Entity(Messages, reply)))
                    && lastFollowupMessage == Some(Entity(Messages, reply)))
      ensures interactionId == old(interactionId) && interactionToken == old(interactionToken)
    {
      var payload := WebhookData(enc);
      var target :- TargetOf(message, lastFollowupMessage);
      if interactionToken.None? {
        return Failure(MissingToken);
      }
      var updated := Entity(Messages, reply);
      lastFollowupMessage := Some(updated);
      return Success(Edit(target, payload, updated));
    }

    /** `delete_followup_message(message)`: the message whose id is deleted,
        chosen before the token is read. */
    method DeleteFollowupMessage(message: Option<Entity>) returns (r: Result<Entity, Error>)
      ensures TargetOf(message, lastFollowupMessage).Failure? ==> r == Failure(NoTargetMessage)
      ensures TargetOf(message, lastFollowupMessage).Success? && interactionToken.None? ==> r == Failure(MissingToken)
      ensures r.Success? <==> TargetOf(message, lastFollowupMessage).Success? && interactionToken.Some?
      ensures r.Success? ==> r.value == TargetOf(message, lastFollowupMessage).value
    {
      var target :- TargetOf(message, lastFollowupMessage);
      if interactionToken.None? {
        return Failure(MissingToken);
      }
      return Success(target);
    }
  }

  /** An autocomplete response that called `add_choices()` and nothing else
      validates: the empty list is accepted. */
  lemma EmptyChoicesAccepted()
    ensures ResponseCheck(Some(ApplicationCommandAutocompleteResult), EmptyBody.(choices := Some([]))).Pass?
  {
  }

  /** A response generated for autocomplete (components reset to a list)
      can never validate once it has choices. */
  lemma GeneratedAutocompleteRejected(b: Body, content: Option<string>, tts: Option<bool>, ephemeral: Option<bool>)
    ensures ResponseCheck(Some(ApplicationCommandAutocompleteResult), Generated(b, tts, content, ephemeral)).Fail?
  {
    if b.choices.Some? {
      GeneratedConflictsWithChoices(b, tts, content, ephemeral);
    }
  }
}
