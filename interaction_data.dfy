/** Decoding of an interaction's `data` payload (`InteractionData.from_dict`):
    the resolution table, then the top-level options decoded against it. */
module InteractionDataDecoder {
  import opened Wrappers
  import opened RawJson
  import opened Enumerations
  import opened Entities
  import opened Errors
  import opened OptionTree

  /** A decoded `data` payload. Fields whose key was absent are None. */
  datatype InteractionData = InteractionData(
    id: Option<Snowflake>,
    name: Option<Json>,
    kind: Option<CommandType>,
    resolved: Option<Table>,
    options: map<string, OptionNode>,
    customId: Option<string>,
    componentType: Option<ComponentType>,
    targetId: Option<Snowflake>)

  /** A category of a `resolved` payload that the loop raises on: its value
      is not a mapping, or its name is unknown and it has an entry. */
  predicate BadCategory(name: string, v: Json)
  {
    !v.JObj? || (CategoryOf(name).None? && |v.fields| > 0)
  }

  /** The entities of category `c` once the categories `done` of `cats` have
      been stored. */
  function EntriesOver(cats: map<string, Json>, done: set<string>, c: Category): map<string, Entity>
  {
    var n := CategoryName(c);
    if n in done && n in cats && cats[n].JObj? then
      map k | k in cats[n].fields :: Entity(c, cats[n].fields[k])
    else map[]
  }

  function TableOver(cats: map<string, Json>, done: set<string>): (t: Table)
    ensures forall c :: t.Entries(c) == EntriesOver(cats, done, c)
  {
    Table(EntriesOver(cats, done, Members), EntriesOver(cats, done, Users), EntriesOver(cats, done, Messages),
          EntriesOver(cats, done, Channels), EntriesOver(cats, done, Roles))
  }

  /** The resolution table of a `resolved` payload. */
  function ResolvedOf(raw: Json): (r: Result<Table, Error>)
    ensures r.Success? <==> raw.JObj? && forall n :: n in raw.fields ==> !BadCategory(n, raw.fields[n])
    ensures !raw.JObj? ==> r == Failure(WrongType("resolved"))
    ensures raw.JObj? && r.Failure? ==> r.error == UnresolvableCategory
    ensures r.Success? ==> forall c :: r.value.Entries(c) == EntriesOver(raw.fields, raw.fields.Keys, c)
  {
    if !raw.JObj? then Failure(WrongType("resolved"))
    else if exists name :: name in raw.fields && BadCategory(name, raw.fields[name]) then Failure(UnresolvableCategory)
    else Success(TableOver(raw.fields, raw.fields.Keys))
  }

  /** An optional enumeration-typed key. */
  function OptionalEnum<T>(decode: int -> Option<T>, m: map<string, Json>, key: string): Result<Option<T>, Error>
  {
    if key !in m then Success(None)
    else match EnumTag(m[key])
      case None => Failure(UnknownEnumValue(key))
      case Some(n) =>
        match decode(n)
        case None => Failure(UnknownEnumValue(key))
        case Some(v) => Success(Some(v))
  }

  function OptionalSnowflake(m: map<string, Json>, key: string): Option<Snowflake>
  {
    if key in m then Some(Snowflake(m[key])) else None
  }

  /** `str(data['custom_id'])` when the key is present. */
  function OptionalString(m: map<string, Json>, key: string): Result<Option<string>, Error>
  {
    if key !in m then Success(None)
    else match PyStr(m[key])
      case None => Failure(WrongType(key))
      case Some(s) => Success(Some(s))
  }

  /** Decoding of a `data` payload. */
  function DataOf(codes: Codes, raw: Json): (r: Result<InteractionData, Error>)
    ensures !raw.JObj? ==> r == Failure(WrongType("data"))
    ensures r.Success? ==> raw.JObj?
    ensures r.Success? ==> (r.value.kind.Some? <==> "type" in raw.fields)
    ensures r.Success? ==> (r.value.resolved.Some? <==> "resolved" in raw.fields)
    ensures r.Success? ==> (r.value.customId.Some? <==> "custom_id" in raw.fields)
    ensures r.Success? ==> (r.value.componentType.Some? <==> "component_type" in raw.fields)
  {
    if !raw.JObj? then Failure(WrongType("data"))
    else
      var m := raw.fields;
      var kind :- OptionalEnum(codes.commandType, m, "type");
      var resolved :-
        if "resolved" in m then (var t :- ResolvedOf(m["resolved"]); Success(Some(t)))
        else Success(None);
      var componentType :- OptionalEnum(codes.componentType, m, "component_type");
      var customId :- OptionalString(m, "custom_id");
      var options :-
        if "options" !in m then Success(map[])
        else if m["options"].JArr? then OptionsOf(codes, m["options"].items, resolved)
        else if IteratesNothing(m["options"]) then Success(map[])
        else Failure(WrongType("options"));
      Success(InteractionData(
        OptionalSnowflake(m, "id"), if "name" in m then Some(m["name"]) else None, kind,
        resolved, options, customId, componentType, OptionalSnowflake(m, "target_id")))
  }

  /** Storing one more category leaves the other categories as they were
      and fills that category with its entries. */
  lemma TableOverStep(cats: map<string, Json>, done: set<string>, name: string)
    requires name in cats && name !in done && cats[name].JObj?
    ensures forall d :: CategoryName(d) != name ==> EntriesOver(cats, done + {name}, d) == EntriesOver(cats, done, d)
    ensures forall d :: CategoryName(d) == name ==>
              EntriesOver(cats, done + {name}, d) == map k | k in cats[name].fields :: Entity(d, cats[name].fields[k])
  {
  }

  /** The inner loop over one known category's entries. */
  method StoreCategory(table: Table, c: Category, entries: map<string, Json>) returns (t: Table)
    requires table.Entries(c) == map[]
    ensures t.Entries(c) == map k | k in entries :: Entity(c, entries[k])
    ensures forall d :: d != c ==> t.Entries(d) == table.Entries(d)
  {
    t := table;
    var ids := entries.Keys;
    while ids != {}
      invariant ids <= entries.Keys
      invariant forall d :: d != c ==> t.Entries(d) == table.Entries(d)
      invariant t.Entries(c) == map k | k in entries.Keys - ids :: Entity(c, entries[k])
      decreases ids
    {
      var id :| id in ids;
      t := t.Put(c, id, Entity(c, entries[id]));
      ids := ids - {id};
    }
  }

  lemma ResolvedOfFails(raw: Json, name: string)
    requires raw.JObj? && name in raw.fields && BadCategory(name, raw.fields[name])
    ensures ResolvedOf(raw) == Failure(UnresolvableCategory)
  {
  }

  lemma ResolvedOfSucceeds(raw: Json, table: Table)
    requires raw.JObj?
    requires forall n :: n in raw.fields ==> !BadCategory(n, raw.fields[n])
    requires forall d :: table.Entries(d) == EntriesOver(raw.fields, raw.fields.Keys, d)
    ensures ResolvedOf(raw) == Success(table)
  {
    var t := TableOver(raw.fields, raw.fields.Keys);
    assert t.Entries(Members) == table.Entries(Members);
    assert t.Entries(Users) == table.Entries(Users);
    assert t.Entries(Messages) == table.Entries(Messages);
    assert t.Entries(Channels) == table.Entries(Channels);
    assert t.Entries(Roles) == table.Entries(Roles);
  }

  /** The loop over `data['resolved']`: every entry of a known category is
      stored at `resolved[category][id]`; a bad category raises. */
  method DecodeResolved(raw: Json) returns (r: Result<Table, Error>)
    ensures r == ResolvedOf(raw)
  {
    if !raw.JObj? {
      return Failure(WrongType("resolved"));
    }
    var cats := raw.fields;
    var table := EmptyTable;
    var todo := cats.Keys;
    while todo != {}
      invariant todo <= cats.Keys
      invariant forall n :: n in cats && n !in todo ==> !BadCategory(n, cats[n])
      invariant forall d :: table.Entries(d) == EntriesOver(cats, cats.Keys - todo, d)
      decreases todo
    {
      var name :| name in todo;
      var v := cats[name];
      if !v.JObj? || (CategoryOf(name).None? && v.fields != map[]) {
        ResolvedOfFails(raw, name);
        return Failure(UnresolvableCategory);
      }
      var done := cats.Keys - todo;
      TableOverStep(cats, done, name);
      var category := CategoryOf(name);
      if category.Some? {
        table := StoreCategory(table, category.value, v.fields);
      }
      todo := todo - {name};
      assert cats.Keys - todo == done + {name};
    }
    assert cats.Keys - todo == cats.Keys;
    ResolvedOfSucceeds(raw, table);
    return Success(table);
  }

  /** `InteractionData().from_dict(raw, guild_id)`. */
  method DecodeData(codes: Codes, raw: Json) returns (r: Result<InteractionData, Error>)
    ensures r == DataOf(codes, raw)
  {
    if !raw.JObj? {
      return Failure(WrongType("data"));
    }
    var m := raw.fields;
    var kind :- OptionalEnum(codes.commandType, m, "type");
    var resolved: Option<Table> := None;
    if "resolved" in m {
      var t :- DecodeResolved(m["resolved"]);
      resolved := Some(t);
    }
    var componentType :- OptionalEnum(codes.componentType, m, "component_type");
    var customId :- OptionalString(m, "custom_id");
    var options: map<string, OptionNode> := map[];
    if "options" in m {
      if m["options"].JArr? {
        options :- DecodeOptionList(codes, m["options"].items, resolved);
      } else if !IteratesNothing(m["options"]) {
        return Failure(WrongType("options"));
      }
    }
    return Success(InteractionData(
      OptionalSnowflake(m, "id"), if "name" in m then Some(m["name"]) else None, kind,
      resolved, options, customId, componentType, OptionalSnowflake(m, "target_id")));
  }

  /** A `resolved` payload with no bad category gives the table that holds
      each entry at `resolved[category][id]`, and nothing else. */
  lemma ResolvedTable(raw: Json)
    requires raw.JObj? && forall n :: n in raw.fields ==> !BadCategory(n, raw.fields[n])
    ensures ResolvedOf(raw).Success?
    ensures Consistent(ResolvedOf(raw).value)
    ensures forall c, id :: id in ResolvedOf(raw).value.Entries(c) <==>
              CategoryName(c) in raw.fields && id in raw.fields[CategoryName(c)].fields
    ensures forall c, id :: id in ResolvedOf(raw).value.Entries(c) ==>
              ResolvedOf(raw).value.Entries(c)[id] == Entity(c, raw.fields[CategoryName(c)].fields[id])
  {
  }

  /** What a decoded `data` payload holds: `resolved` is None exactly when
      the key is absent and is otherwise the table of that payload, and the
      top-level options are decoded against that same table, so every option
      tree is well formed. */
  lemma {:induction false} DataDecoded(codes: Codes, raw: Json)
    requires DataOf(codes, raw).Success?
    ensures raw.JObj?
    ensures var d, m := DataOf(codes, raw).value, raw.fields;
            && (d.resolved.Some? <==> "resolved" in m)
            && ("resolved" in m ==> ResolvedOf(m["resolved"]) == Success(d.resolved.value))
            && ("options" in m && m["options"].JArr? ==> OptionsOf(codes, m["options"].items, d.resolved) == Success(d.options))
            && ("options" in m && !m["options"].JArr? ==> IteratesNothing(m["options"]))
            && ("options" !in m || !m["options"].JArr? ==> d.options == map[])
            && (forall k :: k in d.options ==> d.options[k].name == k && WellFormedTree(d.options[k]))
  {
    var d, m := DataOf(codes, raw).value, raw.fields;
    if "resolved" in m {
      var rr := m["resolved"];
      assert rr.JObj? && forall n :: n in rr.fields ==> !BadCategory(n, rr.fields[n]);
      ResolvedTable(rr);
    }
    if "options" in m && m["options"].JArr? {
      DecodedListWellFormed(codes, m["options"].items, d.resolved);
    }
  }
}
