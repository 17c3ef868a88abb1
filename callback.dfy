/** The outgoing payload body shared by initial responses and followups
    (`InteractionCallback`): staging of its fields, the check that `choices`
    excludes every other field, and its wire form. */
module Callbacks {
  import opened Wrappers
  import opened RawJson
  import opened Enumerations
  import opened Entities
  import opened Errors

  /** What the `flags` attribute can hold: a member of the callback flag
      enumeration (of which only EPHEMERAL is meaningful), a plain int, or
      any other Python value, of which only its truthiness matters. */
  datatype FlagsValue = CallbackFlags(ephemeral: bool) | IntFlags(n: int) | OtherFlags(truthy: bool)

  /** The fields of a callback; None is Python's None. */
  datatype Body = Body(
    tts: Option<bool>,
    content: Option<string>,
    embeds: Option<seq<Embed>>,
    flags: Option<FlagsValue>,
    components: Option<seq<Component>>,
    choices: Option<seq<Choice>>)

  /** A new callback: every field at its class default, None. */
  const EmptyBody := Body(None, None, None, None, None, None)

  /** The callback after `generate(tts, content, ephemeral)`. A given
      `ephemeral` first resets the flags to NONE and then sets (true) or
      clears (false) the EPHEMERAL bit. */
  function Generated(b: Body, tts: Option<bool>, content: Option<string>, ephemeral: Option<bool>): (r: Body)
    ensures r.tts == (if tts.Some? then tts else b.tts)
    ensures r.content == (if content.Some? then content else b.content)
    ensures ephemeral.None? ==> r.flags == b.flags
    ensures ephemeral.Some? ==> r.flags.Some? && r.flags.value.CallbackFlags? && (Truthy(r.flags) <==> ephemeral.value)
    ensures r.components == Some([])
    ensures r.embeds == b.embeds && r.choices == b.choices
  {
    b.(tts := if tts.Some? then tts else b.tts,
       content := if content.Some? then content else b.content,
       flags := if ephemeral.Some? then Some(CallbackFlags(ephemeral.value)) else b.flags,
       components := Some([]))
  }

  /** Whether a field other than `choices` is set (is not None). */
  predicate IsSet(b: Body, f: CallbackField)
  {
    match f
    case TtsField => b.tts.Some?
    case ContentField => b.content.Some?
    case EmbedsField => b.embeds.Some?
    case FlagsField => b.flags.Some?
    case ComponentsField => b.components.Some?
  }

  /** The order in which `validate` looks at the fields. */
  const FieldOrder: seq<CallbackField> := [TtsField, ContentField, EmbedsField, FlagsField, ComponentsField]

  /** `InteractionCallback.validate()`. */
  function Check(b: Body): (r: Outcome<Error>)
    ensures r.Pass? <==> b.choices.None? || forall f :: !IsSet(b, f)
    ensures r.Fail? ==> r.error.ConflictingPayload? && b.choices.Some? && IsSet(b, r.error.field)
    ensures r.Fail? ==> forall i :: 0 <= i < |FieldOrder| && FieldOrder[i] == r.error.field ==>
              forall j :: 0 <= j < i ==> !IsSet(b, FieldOrder[j])
  {
    if b.choices.None? then Pass
    else if b.tts.Some? then assert IsSet(b, TtsField); Fail(ConflictingPayload(TtsField))
    else if b.content.Some? then assert IsSet(b, ContentField); Fail(ConflictingPayload(ContentField))
    else if b.embeds.Some? then assert IsSet(b, EmbedsField); Fail(ConflictingPayload(EmbedsField))
    else if b.flags.Some? then assert IsSet(b, FlagsField); Fail(ConflictingPayload(FlagsField))
    else if b.components.Some? then assert IsSet(b, ComponentsField); Fail(ConflictingPayload(ComponentsField))
    else Pass
  }

  /** Python truthiness of the `flags` attribute: None, the NONE flag and
      the integer 0 are false. */
  function Truthy(f: Option<FlagsValue>): (t: bool)
    ensures t ==> f.Some?
    ensures f == Some(CallbackFlags(false)) ==> !t
    ensures f == Some(IntFlags(0)) ==> !t
    ensures f == Some(CallbackFlags(true)) ==> t
  {
    match f
    case None => false
    case Some(CallbackFlags(e)) => e
    case Some(IntFlags(n)) => n != 0
    case Some(OtherFlags(t)) => t
  }

  /** The wire value of the flags: the enumeration's value, or the int itself. */
  function FlagsWire(codes: Codes, f: FlagsValue): (r: Result<Json, Error>)
    ensures r.Failure? <==> f.OtherFlags?
    ensures r.Failure? ==> r.error == InvalidFlagsType
    ensures r.Success? ==> r.value.JInt? && (r.value.i != 0 <==> Truthy(Some(f)))
    ensures f == CallbackFlags(true) ==> r == Success(JInt(codes.ephemeral))
  {
    match f
    case CallbackFlags(e) => Success(JInt(if e then codes.ephemeral else 0))
    case IntFlags(n) => Success(JInt(n))
    case OtherFlags(_) => Failure(InvalidFlagsType)
  }

  /** `[f(x) for x in xs]`. */
  function MapSeq<A, B>(f: A -> B, xs: seq<A>): (r: seq<B>)
    ensures |r| == |xs|
    ensures forall i :: 0 <= i < |xs| ==> r[i] == f(xs[i])
  {
    if xs == [] then [] else MapSeq(f, xs[..|xs| - 1]) + [f(xs[|xs| - 1])]
  }

  /** The keys a callback's wire form may have. */
  const CallbackKeys: set<string> := {"flags", "tts", "content", "components", "embeds", "choices"}

  /** `InteractionCallback.to_dict()`. */
  function Encode(codes: Codes, enc: Encoders, b: Body): (r: Result<Json, Error>)
    ensures r.Failure? <==> Truthy(b.flags) && b.flags.value.OtherFlags?
    ensures r.Failure? ==> r.error == InvalidFlagsType
    ensures r.Success? ==> r.value.JObj? && r.value.fields.Keys <= CallbackKeys
    ensures r.Success? ==> var w := r.value.fields;
              && ("flags" in w <==> Truthy(b.flags))
              && ("flags" in w ==> FlagsWire(codes, b.flags.value) == Success(w["flags"]))
              && ("tts" in w <==> b.tts.Some?)
              && (b.tts.Some? ==> w["tts"] == JBool(b.tts.value))
              && ("content" in w <==> b.content.Some?)
              && (b.content.Some? ==> w["content"] == JStr(b.content.value))
  {
    var w0: map<string, Json> :-
      if Truthy(b.flags) then (var v :- FlagsWire(codes, b.flags.value); Success(map["flags" := v]))
      else Success(map[]);
    var w1 := if b.tts.Some? then w0["tts" := JBool(b.tts.value)] else w0;
    var w2 := if b.content.Some? then w1["content" := JStr(b.content.value)] else w1;
    var w3 := if b.components.Some? then w2["components" := JArr(MapSeq(enc.component, b.components.value))] else w2;
    var w4 := if b.embeds.Some? then w3["embeds" := JArr(MapSeq(enc.embed, b.embeds.value))] else w3;
    var w5 := if b.choices.Some? then w4["choices" := JArr(MapSeq(enc.choice, b.choices.value))] else w4;
    Success(JObj(w5))
  }

  /** The three list fields of a callback keep their order and length on
      the wire. */
  lemma EncodedLists(codes: Codes, enc: Encoders, b: Body)
    requires Encode(codes, enc, b).Success?
    ensures var w := Encode(codes, enc, b).value.fields;
            && ("components" in w <==> b.components.Some?)
            && (b.components.Some? ==> w["components"] == JArr(MapSeq(enc.component, b.components.value)))
            && ("embeds" in w <==> b.embeds.Some?)
            && (b.embeds.Some? ==> w["embeds"] == JArr(MapSeq(enc.embed, b.embeds.value)))
            && ("choices" in w <==> b.choices.Some?)
            && (b.choices.Some? ==> w["choices"] == JArr(MapSeq(enc.choice, b.choices.value)))
  {
  }

  /** `content` on the wire: the string, or null for None. */
  function ContentJson(content: Option<string>): Json
  {
    if content.Some? then JStr(content.value) else JNull
  }

  /** `InteractionFollowup._generate_webhook_data()`: the callback body
      flattened to `content` (always present), `embeds` and `components`. */
  function Webhook(enc: Encoders, b: Body): (w: Json)
    ensures w.JObj? && w.fields.Keys <= {"content", "embeds", "components"}
    ensures "content" in w.fields && w.fields["content"] == ContentJson(b.content)
    ensures ("embeds" in w.fields <==> b.embeds.Some?)
    ensures b.embeds.Some? ==> w.fields["embeds"] == JArr(MapSeq(enc.embed, b.embeds.value))
    ensures ("components" in w.fields <==> b.components.Some?)
    ensures b.components.Some? ==> w.fields["components"] == JArr(MapSeq(enc.component, b.components.value))
  {
    var w0 := map["content" := ContentJson(b.content)];
    var w1 := if b.embeds.Some? then w0["embeds" := JArr(MapSeq(enc.embed, b.embeds.value))] else w0;
    var w2 := if b.components.Some? then w1["components" := JArr(MapSeq(enc.component, b.components.value))] else w1;
    JObj(w2)
  }

  /** The loop `for x in xs: out.append(x.to_dict())`. */
  method EncodeList<A>(f: A -> Json, xs: seq<A>) returns (out: seq<Json>)
    ensures out == MapSeq(f, xs)
  {
    out := [];
    var i := 0;
    while i < |xs|
      invariant 0 <= i <= |xs|
      invariant out == MapSeq(f, xs[..i])
    {
      assert xs[..i + 1][..i] == xs[..i];
      out := out + [f(xs[i])];
      i := i + 1;
    }
    assert xs[..i] == xs;
  }

  class InteractionCallback {
    var tts: Option<bool>
    var content: Option<string>
    var embeds: Option<seq<Embed>>
    var flags: Option<FlagsValue>
    var components: Option<seq<Component>>
    var choices: Option<seq<Choice>>

    /** The callback's fields as a value. */
    function Fields(): Body
      reads this
    {
      Body(tts, content, embeds, flags, components, choices)
    }

    constructor ()
      ensures Fields() == EmptyBody
    {
      tts, content, embeds, flags, components, choices := None, None, None, None, None, None;
    }

    /** `generate(tts, content, ephemeral)`. */
    method Generate(tts: Option<bool>, content: Option<string>, ephemeral: Option<bool>)
      modifies this
      ensures Fields() == Generated(old(Fields()), tts, content, ephemeral)
    {
      if tts.Some? {
        this.tts := tts;
      }
      if content.Some? {
        this.content := content;
      }
      if ephemeral.Some? {
        flags := Some(CallbackFlags(false));
      }
      if ephemeral == Some(true) {
        flags := Some(CallbackFlags(true));
      } else if ephemeral == Some(false) {
        flags := Some(CallbackFlags(false));
      }
      components := Some([]);
    }

    /** `validate()`: raises exactly when `choices` is set together with
        another field. */
    function Validate(): (r: Outcome<Error>)
      reads this
      ensures r.Pass? <==>
                (choices.None? || (tts.None? && content.None? && embeds.None? && flags.None? && components.None?))
    {
      var r := Check(Fields());
      assert r.Fail? ==> IsSet(Fields(), r.error.field);
      assert choices.Some? && r.Pass? ==> forall f :: !IsSet(Fields(), f);
      assert (!IsSet(Fields(), TtsField) && !IsSet(Fields(), ContentField) && !IsSet(Fields(), EmbedsField) &&
              !IsSet(Fields(), FlagsField) && !IsSet(Fields(), ComponentsField))
             ==> forall f :: !IsSet(Fields(), f);
      r
    }

    /** `to_dict()`. */
    method ToDict(codes: Codes, enc: Encoders) returns (r: Result<Json, Error>)
      ensures r == Encode(codes, enc, Fields())
    {
      var w: map<string, Json> := map[];
      if Truthy(flags) {
        var v :- FlagsWire(codes, flags.value);
        w := w["flags" := v];
      }
      if tts.Some? {
        w := w["tts" := JBool(tts.value)];
      }
      if content.Some? {
        w := w["content" := JStr(content.value)];
      }
      if components.Some? {
        var items := EncodeList(enc.component, components.value);
        w := w["components" := JArr(items)];
      }
      if embeds.Some? {
        var items := EncodeList(enc.embed, embeds.value);
        w := w["embeds" := JArr(items)];
      }
      if choices.Some? {
        var items := EncodeList(enc.choice, choices.value);
        w := w["choices" := JArr(items)];
      }
      return Success(JObj(w));
    }
  }

  /** Regenerating with the same arguments changes nothing more. */
  lemma GenerateIdempotent(b: Body, tts: Option<bool>, content: Option<string>, ephemeral: Option<bool>)
    ensures Generated(Generated(b, tts, content, ephemeral), tts, content, ephemeral) == Generated(b, tts, content, ephemeral)
  {
  }

  /** After `generate(ephemeral=true)` the wire flags are EPHEMERAL; after
      `generate(ephemeral=false)` they are NONE, which is falsy and so omitted. */
  lemma GeneratedEphemeralOnWire(codes: Codes, enc: Encoders, b: Body, tts: Option<bool>, content: Option<string>, ephemeral: bool)
    ensures var r := Encode(codes, enc, Generated(b, tts, content, Some(ephemeral)));
            && r.Success?
            && (ephemeral ==> "flags" in r.value.fields && r.value.fields["flags"] == JInt(codes.ephemeral))
            && (!ephemeral ==> "flags" !in r.value.fields)
  {
  }

  /** Because `generate` always resets `components` to a list, a callback
      that holds choices no longer validates after it. */
  lemma GeneratedConflictsWithChoices(b: Body, tts: Option<bool>, content: Option<string>, ephemeral: Option<bool>)
    requires b.choices.Some?
    ensures Check(Generated(b, tts, content, ephemeral)).Fail?
  {
    assert IsSet(Generated(b, tts, content, ephemeral), ComponentsField);
  }

  /** Encoding a list and decoding it with a left inverse of the encoder
      gives back the list, in order. */
  lemma {:induction false} ListRoundTrip<A>(f: A -> Json, g: Json -> A, xs: seq<A>)
    requires forall x :: g(f(x)) == x
    ensures MapSeq(g, MapSeq(f, xs)) == xs
  {
    if xs != [] {
      ListRoundTrip(f, g, xs[..|xs| - 1]);
      assert xs == xs[..|xs| - 1] + [xs[|xs| - 1]];
    }
  }

  /** The components and embeds a callback emits decode back to the staged
      lists, in order and with the same count. */
  lemma EncodedListsRoundTrip(codes: Codes, enc: Encoders, b: Body, decodeComponent: Json -> Component, decodeEmbed: Json -> Embed)
    requires Encode(codes, enc, b).Success?
    requires forall x :: decodeComponent(enc.component(x)) == x
    requires forall x :: decodeEmbed(enc.embed(x)) == x
    ensures var w := Encode(codes, enc, b).value.fields;
            && (b.components.Some? ==> MapSeq(decodeComponent, w["components"].items) == b.components.value)
            && (b.embeds.Some? ==> MapSeq(decodeEmbed, w["embeds"].items) == b.embeds.value)
  {
    EncodedLists(codes, enc, b);
    if b.components.Some? {
      ListRoundTrip(enc.component, decodeComponent, b.components.value);
    }
    if b.embeds.Some? {
      ListRoundTrip(enc.embed, decodeEmbed, b.embeds.value);
    }
  }
}
