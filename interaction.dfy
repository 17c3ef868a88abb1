/** The incoming interaction (`Interaction`): decoding its payload and the
    response phase that allows one initial response and then any number of
    followups. */
module Interactions {
  import opened Wrappers
  import opened RawJson
  import opened Enumerations
  import opened Entities
  import opened Errors
  import opened OptionTree
  import opened InteractionDataDecoder
  import opened Callbacks
  import opened Responses

  /** What a successful `Interaction.from_dict` reads from its payload. */
  datatype InteractionFields = InteractionFields(
    applicationId: Snowflake,
    id: Snowflake,
    token: string,
    version: int,
    kind: InteractionType,
    channelId: Option<Snowflake>,
    guildId: Option<Snowflake>,
    data: Option<InteractionData>,
    user: Option<Entity>,
    member: Option<Entity>,
    message: Option<Entity>)

  /** `d[key]`, which raises KeyError when the key is absent. */
  function Required(m: map<string, Json>, key: string): (r: Result<Json, Error>)
    ensures r.Success? <==> key in m
    ensures r.Success? ==> r.value == m[key]
    ensures r.Failure? ==> r.error == MissingKey(key)
  {
    if key in m then Success(m[key]) else Failure(MissingKey(key))
  }

  /** A leaf entity of the given category, decoded when its key is present. */
  function OptionalEntity(m: map<string, Json>, key: string, c: Category): Option<Entity>
  {
    if key in m then Some(Entity(c, m[key])) else None
  }

  /** The attributes `from_dict` reads unconditionally. */
  datatype Header = Header(applicationId: Snowflake, id: Snowflake, token: string, version: int, kind: InteractionType)

  /** `str(d[key])`. */
  function StringField(m: map<string, Json>, key: string): (r: Result<string, Error>)
  {
    var v :- Required(m, key);
    if PyStr(v).Some? then Success(PyStr(v).value) else Failure(WrongType(key))
  }

  /** `int(d[key])`. */
  function IntField(m: map<string, Json>, key: string): (r: Result<int, Error>)
  {
    var v :- Required(m, key);
    if PyInt(v).Some? then Success(PyInt(v).value) else Failure(WrongType(key))
  }

  /** The identifying attributes, read first: application_id, id, token. */
  function IdentityOf(m: map<string, Json>): (r: Result<(Snowflake, Snowflake, string), Error>)
  {
    var app :- Required(m, "application_id");
    var id :- Required(m, "id");
    var token :- StringField(m, "token");
    Success((Snowflake(app), Snowflake(id), token))
  }

  /** The required attributes, in the order they are read: application_id,
      id, token, version, type. */
  function HeaderOf(codes: Codes, m: map<string, Json>): (r: Result<Header, Error>)
    ensures "application_id" !in m ==> r == Failure(MissingKey("application_id"))
    ensures "application_id" in m && "id" !in m ==> r == Failure(MissingKey("id"))
    ensures "application_id" in m && "id" in m && "token" !in m ==> r == Failure(MissingKey("token"))
    ensures ("application_id" in m && "id" in m && "token" in m && PyStr(m["token"]).None?) ==>
              r == Failure(WrongType("token"))
    ensures ("application_id" in m && "id" in m && "token" in m && PyStr(m["token"]).Some? &&
             "version" !in m) ==>
              r == Failure(MissingKey("version"))
    ensures ("application_id" in m && "id" in m && "token" in m && PyStr(m["token"]).Some? &&
             "version" in m && PyInt(m["version"]).None?) ==>
              r == Failure(WrongType("version"))
    ensures ("application_id" in m && "id" in m && "token" in m && PyStr(m["token"]).Some? &&
             "version" in m && PyInt(m["version"]).Some? && "type" !in m) ==>
              r == Failure(MissingKey("type"))
    ensures ("application_id" in m && "id" in m && "token" in m && PyStr(m["token"]).Some? &&
             "version" in m && PyInt(m["version"]).Some? && "type" in m &&
             (EnumTag(m["type"]).None? || codes.interactionType(EnumTag(m["type"]).value).None?)) ==>
              r == Failure(UnknownEnumValue("type"))
    ensures r.Success? ==>
              && "application_id" in m && r.value.applicationId == Snowflake(m["application_id"])
              && "id" in m && r.value.id == Snowflake(m["id"])
              && "token" in m && Some(r.value.token) == PyStr(m["token"])
              && "version" in m && Some(r.value.version) == PyInt(m["version"])
              && "type" in m && EnumTag(m["type"]).Some?
              && codes.interactionType(EnumTag(m["type"]).value) == Some(r.value.kind)
  {
    var ident :- IdentityOf(m);
    var version :- IntField(m, "version");
    var _ :- Required(m, "type");
    var kind :- OptionalEnum(codes.interactionType, m, "type");
    Success(Header(ident.0, ident.1, ident.2, version, kind.value))
  }

  /** The optional `data` attribute. */
  function DataField(codes: Codes, m: map<string, Json>): (r: Result<Option<InteractionData>, Error>)
  {
    if "data" in m then (var d :- DataOf(codes, m["data"]); Success(Some(d))) else Success(None)
  }

  /** The interaction payload decoded in the order `from_dict` reads it:
      the header, then channel_id, guild_id, data, user, member and message,
      of which only data can fail. */
  function InteractionOf(codes: Codes, raw: Json): (r: Result<InteractionFields, Error>)
    ensures !raw.JObj? ==> r == Failure(WrongType("interaction"))
    ensures r.Success? ==> raw.JObj? && HeaderOf(codes, raw.fields).Success?
    ensures r.Success? ==> (r.value.data.Some? <==> "data" in raw.fields)
    ensures r.Success? ==> (r.value.channelId.Some? <==> "channel_id" in raw.fields)
    ensures r.Success? ==> (r.value.guildId.Some? <==> "guild_id" in raw.fields)
  {
    if !raw.JObj? then Failure(WrongType("interaction"))
    else
      var m := raw.fields;
      var h :- HeaderOf(codes, m);
      var data :- DataField(codes, m);
      Success(InteractionFields(
        h.applicationId, h.id, h.token, h.version, h.kind,
        OptionalSnowflake(m, "channel_id"), OptionalSnowflake(m, "guild_id"), data,
        OptionalEntity(m, "user", Users), OptionalEntity(m, "member", Members), OptionalEntity(m, "message", Messages)))
  }

  /** The decoder's contract: it fails with the header's error when a
      required attribute cannot be read (see `HeaderOf` for which key in which
      order), then with the error of `data`, and otherwise every field of the
      decoded interaction holds what its key held. */
  lemma InteractionDecoded(codes: Codes, raw: Json)
    requires raw.JObj?
    ensures var m := raw.fields;
            var r := InteractionOf(codes, raw);
            && ("application_id" !in m ==> r == Failure(MissingKey("application_id")))
            && ("application_id" in m && "id" !in m ==> r == Failure(MissingKey("id")))
            && ("application_id" in m && "id" in m && "token" !in m ==> r == Failure(MissingKey("token")))
            && (HeaderOf(codes, m).Failure? ==> r == Failure(HeaderOf(codes, m).error))
            && (HeaderOf(codes, m).Success? && "data" in m && DataOf(codes, m["data"]).Failure? ==>
                  r == Failure(DataOf(codes, m["data"]).error))
            && (HeaderOf(codes, m).Success? && ("data" !in m || DataOf(codes, m["data"]).Success?) ==> r.Success?)
            && (r.Success? ==>
                  && r.value.applicationId == Snowflake(m["application_id"])
                  && r.value.id == Snowflake(m["id"])
                  && Some(r.value.token) == PyStr(m["token"])
                  && Some(r.value.version) == PyInt(m["version"])
                  && EnumTag(m["type"]).Some? && codes.interactionType(EnumTag(m["type"]).value) == Some(r.value.kind)
                  && (r.value.channelId.Some? <==> "channel_id" in m)
                  && (r.value.guildId.Some? <==> "guild_id" in m)
                  && (r.value.data.Some? <==> "data" in m)
                  && ("data" in m ==> DataOf(codes, m["data"]) == Success(r.value.data.value))
                  && (r.value.user.Some? <==> "user" in m)
                  && (r.value.member.Some? <==> "member" in m)
                  && (r.value.message.Some? <==> "message" in m)
                  && (r.value.user.Some? ==> r.value.user.value == Entity(Users, m["user"]))
                  && (r.value.member.Some? ==> r.value.member.value == Entity(Members, m["member"]))
                  && (r.value.message.Some? ==> r.value.message.value == Entity(Messages, m["message"])))
  {
  }

  /** `m` with `key` added when there is a value for it. */
  function WithOptional(m: map<string, Json>, key: string, v: Option<Json>): (r: map<string, Json>)
    ensures key in r <==> v.Some? || key in m
    ensures v.Some? ==> r[key] == v.value
    ensures forall k :: k != key ==> (k in r <==> k in m)
    ensures forall k :: k != key && k in m ==> r[k] == m[k]
  {
    if v.Some? then m[key := v.value] else m
  }

  function SnowflakeJson(s: Option<Snowflake>): Option<Json>
  {
    if s.Some? then Some(s.value.raw) else None
  }

  function EntityJson(e: Option<Entity>): Option<Json>
  {
    if e.Some? then Some(e.value.raw) else None
  }

  /** A payload for the given fields, carrying `dataRaw` under `data`. */
  function InteractionJson(typeTag: InteractionType -> int, f: InteractionFields, dataRaw: Option<Json>): Json
  {
    var m1 := WithOptional(map[], "channel_id", SnowflakeJson(f.channelId));
    var m2 := WithOptional(m1, "guild_id", SnowflakeJson(f.guildId));
    var m3 := WithOptional(m2, "data", dataRaw);
    var m4 := WithOptional(m3, "user", EntityJson(f.user));
    var m5 := WithOptional(m4, "member", EntityJson(f.member));
    var m6 := WithOptional(m5, "message", EntityJson(f.message));
    JObj(m6 + map[
      "application_id" := f.applicationId.raw, "id" := f.id.raw, "token" := JStr(f.token),
      "version" := JInt(f.version), "type" := JInt(typeTag(f.kind))])
  }

  /** The required keys of a payload built by `InteractionJson`. */
  lemma PayloadRequiredKeys(typeTag: InteractionType -> int, f: InteractionFields, dataRaw: Option<Json>)
    ensures var m := InteractionJson(typeTag, f, dataRaw).fields;
            && "application_id" in m && m["application_id"] == f.applicationId.raw
            && "id" in m && m["id"] == f.id.raw
            && "token" in m && m["token"] == JStr(f.token)
            && "version" in m && m["version"] == JInt(f.version)
            && "type" in m && m["type"] == JInt(typeTag(f.kind))
  {
  }

  /** The optional id keys of a payload built by `InteractionJson`. */
  lemma PayloadIdKeys(typeTag: InteractionType -> int, f: InteractionFields, dataRaw: Option<Json>)
    ensures var m := InteractionJson(typeTag, f, dataRaw).fields;
            && ("channel_id" in m <==> f.channelId.Some?) && (f.channelId.Some? ==> m["channel_id"] == f.channelId.value.raw)
            && ("guild_id" in m <==> f.guildId.Some?) && (f.guildId.Some? ==> m["guild_id"] == f.guildId.value.raw)
            && ("data" in m <==> dataRaw.Some?) && (dataRaw.Some? ==> m["data"] == dataRaw.value)
  {
  }

  /** The optional entity keys of a payload built by `InteractionJson`. */
  lemma PayloadEntityKeys(typeTag: InteractionType -> int, f: InteractionFields, dataRaw: Option<Json>)
    ensures var m := InteractionJson(typeTag, f, dataRaw).fields;
            && ("user" in m <==> f.user.Some?) && (f.user.Some? ==> m["user"] == f.user.value.raw)
            && ("member" in m <==> f.member.Some?) && (f.member.Some? ==> m["member"] == f.member.value.raw)
            && ("message" in m <==> f.message.Some?) && (f.message.Some? ==> m["message"] == f.message.value.raw)
  {
  }

  /** The required attributes decode back from a built payload. */
  lemma HeaderRoundTrip(codes: Codes, typeTag: InteractionType -> int, f: InteractionFields, dataRaw: Option<Json>)
    requires forall k :: codes.interactionType(typeTag(k)) == Some(k)
    ensures HeaderOf(codes, InteractionJson(typeTag, f, dataRaw).fields) == Success(Header(f.applicationId, f.id, f.token, f.version, f.kind))
  {
    PayloadRequiredKeys(typeTag, f, dataRaw);
    assert codes.interactionType(typeTag(f.kind)) == Some(f.kind);
  }

  /** Every interaction the decoder can produce is decoded back from its
      payload: the decoder loses nothing it keeps. */
  lemma InteractionRoundTrip(codes: Codes, typeTag: InteractionType -> int, f: InteractionFields, dataRaw: Option<Json>)
    requires forall k :: codes.interactionType(typeTag(k)) == Some(k)
    requires dataRaw.Some? <==> f.data.Some?
    requires dataRaw.Some? ==> DataOf(codes, dataRaw.value) == Success(f.data.value)
    requires f.user.Some? ==> f.user.value.category == Users
    requires f.member.Some? ==> f.member.value.category == Members
    requires f.message.Some? ==> f.message.value.category == Messages
    ensures InteractionOf(codes, InteractionJson(typeTag, f, dataRaw)) == Success(f)
  {
    var m := InteractionJson(typeTag, f, dataRaw).fields;
    HeaderRoundTrip(codes, typeTag, f, dataRaw);
    PayloadIdKeys(typeTag, f, dataRaw);
    PayloadEntityKeys(typeTag, f, dataRaw);
    assert DataField(codes, m) == Success(f.data);
    assert OptionalSnowflake(m, "channel_id") == f.channelId;
    assert OptionalSnowflake(m, "guild_id") == f.guildId;
    assert OptionalEntity(m, "user", Users) == f.user;
    assert OptionalEntity(m, "member", Members) == f.member;
    assert OptionalEntity(m, "message", Messages) == f.message;
  }

  /** The attributes of an `Interaction` object, each None until assigned. */
  datatype Attributes = Attributes(
    applicationId: Option<Snowflake>,
    id: Option<Snowflake>,
    token: Option<string>,
    version: Option<int>,
    kind: Option<InteractionType>,
    channelId: Option<Snowflake>,
    guildId: Option<Snowflake>,
    data: Option<InteractionData>,
    user: Option<Entity>,
    member: Option<Entity>,
    message: Option<Entity>)

  const Unassigned := Attributes(None, None, None, None, None, None, None, None, None, None, None)

  /** An optional attribute after `from_dict`: the decoded value when the
      key was present, the previous value otherwise. */
  function Keep<T>(previous: Option<T>, decoded: Option<T>): (r: Option<T>)
  {
    if decoded.Some? then decoded else previous
  }

  /** The attributes after a successful `from_dict`: required attributes are
      overwritten, optional ones only when their key was present. */
  function Applied(a: Attributes, f: InteractionFields): (r: Attributes)
    ensures r.id == Some(f.id) && r.token == Some(f.token) && r.kind == Some(f.kind)
    ensures f.data.None? ==> r.data == a.data
    ensures f.user.None? ==> r.user == a.user
    ensures f.member.None? ==> r.member == a.member
    ensures f.message.None? ==> r.message == a.message
  {
    Attributes(
      Some(f.applicationId), Some(f.id), Some(f.token), Some(f.version), Some(f.kind),
      Keep(a.channelId, f.channelId), Keep(a.guildId, f.guildId), Keep(a.data, f.data),
      Keep(a.user, f.user), Keep(a.member, f.member), Keep(a.message, f.message))
  }

  /** One request against the response phase. */
  datatype Request = Respond | Followup

  /** Whether a request succeeds in the given phase: a respond request
      before the flag is set, a followup request after. */
  function Accepts(generated: bool, q: Request): (ok: bool)
    ensures ok <==> (generated <==> q == Followup)
  {
    match q
    case Respond => !generated
    case Followup => generated
  }

  /** The phase after a request: a respond request sets the flag (even the
      one that is refused, which finds it already set); a followup leaves it. */
  function After(generated: bool, q: Request): (g: bool)
    ensures generated ==> g
    ensures q == Respond ==> g
    ensures q == Followup ==> g == generated
  {
    generated || q == Respond
  }

  /** The phase after a trace of requests; once set, the flag stays set. */
  function StateAfter(generated: bool, trace: seq<Request>): (g: bool)
    ensures generated ==> g
    ensures trace != [] && trace[0] == Respond ==> g
    decreases |trace|
  {
    if trace == [] then generated else StateAfter(After(generated, trace[0]), trace[1..])
  }

  /** How many requests of a trace are accepted as initial responses, that
      is, find the flag clear and use it up. This counts a respond request
      that then fails for want of a token, since it has set the flag too. */
  function AcceptedResponds(generated: bool, trace: seq<Request>): nat
    decreases |trace|
  {
    if trace == [] then 0
    else (if trace[0] == Respond && Accepts(generated, Respond) then 1 else 0) +
         AcceptedResponds(After(generated, trace[0]), trace[1..])
  }

  /** At most one respond request ever uses up the flag, and none once it is
      set; so at most one initial response is ever generated. */
  lemma {:induction false} AtMostOneResponse(generated: bool, trace: seq<Request>)
    ensures AcceptedResponds(generated, trace) <= (if generated then 0 else 1)
    decreases |trace|
  {
    if trace != [] {
      AtMostOneResponse(After(generated, trace[0]), trace[1..]);
    }
  }

  /** The flag is set after a trace exactly when it was set before or the
      trace holds a respond request. */
  lemma {:induction false} StateAfterRespond(generated: bool, trace: seq<Request>)
    ensures StateAfter(generated, trace) <==> generated || Respond in trace
    decreases |trace|
  {
    if trace != [] {
      StateAfterRespond(After(generated, trace[0]), trace[1..]);
      assert trace == [trace[0]] + trace[1..];
    }
  }

  /** From a fresh interaction, a followup succeeds exactly when an earlier
      request asked for the initial response. */
  lemma FollowupNeedsEarlierRespond(trace: seq<Request>, i: nat)
    requires i <= |trace|
    ensures Accepts(StateAfter(false, trace[..i]), Followup) <==> Respond in trace[..i]
  {
    StateAfterRespond(false, trace[..i]);
  }

  class Interaction {
    var responseGenerated: bool
    var applicationId: Option<Snowflake>
    var id: Option<Snowflake>
    var token: Option<string>
    var version: Option<int>
    var kind: Option<InteractionType>
    var channelId: Option<Snowflake>
    var guildId: Option<Snowflake>
    var data: Option<InteractionData>
    var user: Option<Entity>
    var member: Option<Entity>
    var message: Option<Entity>

    /** The attributes as a value. */
    function Attrs(): Attributes
      reads this
    {
      Attributes(applicationId, id, token, version, kind, channelId, guildId, data, user, member, message)
    }

    constructor ()
      ensures !responseGenerated && Attrs() == Unassigned
      ensures CanRespond() && !CanFollowup()
    {
      responseGenerated := false;
      applicationId, id, token, version, kind := None, None, None, None, None;
      channelId, guildId, data, user, member, message := None, None, None, None, None, None;
    }

    /** `can_respond`: no response generated yet. */
    function CanRespond(): (b: bool)
      reads this
      ensures b <==> Accepts(responseGenerated, Respond)
      ensures b <==> !CanFollowup()
    {
      !responseGenerated
    }

    /** `can_followup`: a response has been generated. */
    function CanFollowup(): (b: bool)
      reads this
      ensures b <==> Accepts(responseGenerated, Followup)
    {
      responseGenerated
    }

    /** `from_dict(raw)`: assigns attributes as it reads them. On failure the
        attributes read so far stay assigned and the response phase is
        untouched. */
    method FromDict(codes: Codes, raw: Json) returns (r: Outcome<Error>)
      modifies this
      ensures r.Pass? <==> InteractionOf(codes, raw).Success?
      ensures r.Fail? ==> r.error == InteractionOf(codes, raw).error
      ensures r.Pass? ==> Attrs() == Applied(old(Attrs()), InteractionOf(codes, raw).value)
      ensures (!raw.JObj? || IdentityOf(raw.fields).Failure?) ==> token == old(token)
      ensures responseGenerated == old(responseGenerated)
    {
      if !raw.JObj? {
        return Fail(WrongType("interaction"));
      }
      r := ReadHeader(codes, raw.fields);
      if r.Fail? {
        return;
      }
      r := ReadOptional(codes, raw.fields);
    }

    /** The first half of `from_dict`: the required attributes. */
    method ReadHeader(codes: Codes, m: map<string, Json>) returns (r: Outcome<Error>)
      modifies this
      ensures r.Pass? <==> HeaderOf(codes, m).Success?
      ensures r.Fail? ==> r.error == HeaderOf(codes, m).error
      ensures r.Pass? ==>
                var h := HeaderOf(codes, m).value;
                && applicationId == Some(h.applicationId) && id == Some(h.id) && token == Some(h.token)
                && version == Some(h.version) && kind == Some(h.kind)
      ensures IdentityOf(m).Failure? ==> token == old(token)
      ensures channelId == old(channelId) && guildId == old(guildId) && data == old(data)
      ensures user == old(user) && member == old(member) && message == old(message)
      ensures responseGenerated == old(responseGenerated)
    {
      r := ReadIdentity(m);
      if r.Fail? {
        return;
      }
      if "version" !in m {
        return Fail(MissingKey("version"));
      }
      if PyInt(m["version"]).None? {
        return Fail(WrongType("version"));
      }
      version := PyInt(m["version"]);
      if "type" !in m {
        return Fail(MissingKey("type"));
      }
      var k := OptionalEnum(codes.interactionType, m, "type");
      if k.Failure? {
        return Fail(k.error);
      }
      kind := k.value;
      return Pass;
    }

    /** application_id, id and token, the first attributes `from_dict` reads. */
    method ReadIdentity(m: map<string, Json>) returns (r: Outcome<Error>)
      modifies this
      ensures r.Pass? <==> IdentityOf(m).Success?
      ensures r.Fail? ==> r.error == IdentityOf(m).error
      ensures r.Pass? ==>
                var ident := IdentityOf(m).value;
                applicationId == Some(ident.0) && id == Some(ident.1) && token == Some(ident.2)
      ensures r.Fail? ==> token == old(token)
      ensures version == old(version) && kind == old(kind)
      ensures channelId == old(channelId) && guildId == old(guildId) && data == old(data)
      ensures user == old(user) && member == old(member) && message == old(message)
      ensures responseGenerated == old(responseGenerated)
    {
      if "application_id" !in m {
        return Fail(MissingKey("application_id"));
      }
      applicationId := Some(Snowflake(m["application_id"]));
      if "id" !in m {
        return Fail(MissingKey("id"));
      }
      id := Some(Snowflake(m["id"]));
      if "token" !in m {
        return Fail(MissingKey("token"));
      }
      if PyStr(m["token"]).None? {
        return Fail(WrongType("token"));
      }
      token := PyStr(m["token"]);
      return Pass;
    }

    /** The second half of `from_dict`: the optional attributes, of which
        only `data` can fail to decode. */
    method ReadOptional(codes: Codes, m: map<string, Json>) returns (r: Outcome<Error>)
      modifies this
      ensures r.Pass? <==> DataField(codes, m).Success?
      ensures r.Fail? ==> r.error == DataField(codes, m).error
      ensures r.Pass? ==>
                && channelId == Keep(old(channelId), OptionalSnowflake(m, "channel_id"))
                && guildId == Keep(old(guildId), OptionalSnowflake(m, "guild_id"))
                && data == Keep(old(data), DataField(codes, m).value)
                && user == Keep(old(user), OptionalEntity(m, "user", Users))
                && member == Keep(old(member), OptionalEntity(m, "member", Members))
                && message == Keep(old(message), OptionalEntity(m, "message", Messages))
      ensures applicationId == old(applicationId) && id == old(id) && token == old(token)
      ensures version == old(version) && kind == old(kind)
      ensures responseGenerated == old(responseGenerated)
    {
      if "channel_id" in m {
        channelId := Some(Snowflake(m["channel_id"]));
      }
      if "guild_id" in m {
        guildId := Some(Snowflake(m["guild_id"]));
      }
      r := ReadData(codes, m);
      if r.Fail? {
        return;
      }
      if "channel_id" in m {
        channelId := Some(Snowflake(m["channel_id"]));
      }
      if "user" in m {
        user := Some(Entity(Users, m["user"]));
      }
      if "member" in m {
        member := Some(Entity(Members, m["member"]));
      }
      if "message" in m {
        message := Some(Entity(Messages, m["message"]));
      }
      return Pass;
    }

    /** The `data` attribute, decoded when its key is present. */
    method ReadData(codes: Codes, m: map<string, Json>) returns (r: Outcome<Error>)
      modifies this
      ensures r.Pass? <==> DataField(codes, m).Success?
      ensures r.Fail? ==> r.error == DataField(codes, m).error
      ensures r.Pass? ==> data == Keep(old(data), DataField(codes, m).value)
      ensures Attrs() == old(Attrs()).(data := data)
      ensures responseGenerated == old(responseGenerated)
    {
      if "data" in m {
        var d := DecodeData(codes, m["data"]);
        if d.Failure? {
          return Fail(d.error);
        }
        data := Some(d.value);
      }
      return Pass;
    }

    /** `generate_response(type, ephemeral)`. The flag is set before the
        token is read, so it is set whenever this returns. */
    method GenerateResponse(responseKind: ResponseType := ChannelMessageWithSource, ephemeral: bool := false)
      returns (r: Result<InteractionResponse, Error>)
      modifies this
      ensures responseGenerated == After(old(responseGenerated), Respond)
      ensures Attrs() == old(Attrs())
      ensures old(responseGenerated) ==> r == Failure(AlreadyResponded)
      ensures !old(responseGenerated) && token.None? ==> r == Failure(MissingToken)
      ensures r.Success? <==> Accepts(old(responseGenerated), Respond) && token.Some?
      ensures r.Success? ==>
                && fresh(r.value) && fresh(r.value.data)
                && r.value.interactionId == id && r.value.interactionToken == token
                && r.value.kind == Some(responseKind) && r.value.lastFollowupMessage.None?
                && r.value.data.Fields() == EmptyBody.(flags := if ephemeral then Some(CallbackFlags(true)) else None)
    {
      if responseGenerated {
        return Failure(AlreadyResponded);
      }
      responseGenerated := true;
      var response := new InteractionResponse();
      response.interactionId := id;
      if token.None? {
        return Failure(MissingToken);
      }
      response.interactionToken := token;
      response.kind := Some(responseKind);
      if ephemeral {
        response.data.flags := Some(CallbackFlags(true));
      }
      return Success(response);
    }

    /** `generate_followup(content, tts)`; it leaves the phase as it is. */
    method GenerateFollowup(content: Option<string> := None, tts: Option<bool> := None)
      returns (r: Result<InteractionFollowup, Error>)
      ensures !responseGenerated ==> r == Failure(NotYetResponded)
      ensures responseGenerated && token.None? ==> r == Failure(MissingToken)
      ensures r.Success? <==> Accepts(responseGenerated, Followup) && token.Some?
      ensures r.Success? ==>
                && fresh(r.value) && fresh(r.value.data)
                && r.value.interactionId == id && r.value.interactionToken == token
                && r.value.lastFollowupMessage.None?
                && r.value.data.Fields() == Generated(EmptyBody, tts, content, None)
    {
      if !responseGenerated {
        return Failure(NotYetResponded);
      }
      var followup := new InteractionFollowup();
      followup.interactionId := id;
      if token.None? {
        return Failure(MissingToken);
      }
      followup.interactionToken := token;
      followup.Generate(content, tts);
      return Success(followup);
    }
  }

  /** A followup's callback has components reset to an empty list and no
      flags, so it is never ephemeral on the wire. */
  lemma FollowupBody(codes: Codes, enc: Encoders, content: Option<string>, tts: Option<bool>)
    ensures var b := Generated(EmptyBody, tts, content, None);
            && b.components == Some([]) && b.flags.None? && b.choices.None?
            && Check(b).Pass?
            && Encode(codes, enc, b).Success? && "flags" !in Encode(codes, enc, b).value.fields
  {
  }

  /** An ephemeral initial response carries EPHEMERAL on the wire; a
      non-ephemeral one carries no flags. */
  lemma ResponseFlagsOnWire(codes: Codes, enc: Encoders, ephemeral: bool)
    ensures var b := EmptyBody.(flags := if ephemeral then Some(CallbackFlags(true)) else None);
            var r := Encode(codes, enc, b);
            && r.Success?
            && ("flags" in r.value.fields <==> ephemeral)
            && (ephemeral ==> r.value.fields["flags"] == JInt(codes.ephemeral))
  {
  }
}
