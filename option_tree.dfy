/** The decoder of a command's nested option tree
    (`InteractionDataOptionStructure.from_dict`): per-kind value rules, lookup
    of entity-typed values in the resolution table, and recursion into child
    options keyed by name. */
module OptionTree {
  import opened Wrappers
  import opened RawJson
  import opened Enumerations
  import opened Entities
  import opened Errors

  /** A resolution table: for each category, the decoded entities by id
      string. Every category is present; one that was never filled is empty
      (the source's `defaultdict(dict)`). */
  datatype Table = Table(
    members: map<string, Entity>,
    users: map<string, Entity>,
    messages: map<string, Entity>,
    channels: map<string, Entity>,
    roles: map<string, Entity>)
  {
    function Entries(c: Category): map<string, Entity>
    {
      match c
      case Members => members
      case Users => users
      case Messages => messages
      case Channels => channels
      case Roles => roles
    }

    /** `resolved[c][key] = e`. */
    function Put(c: Category, key: string, e: Entity): (t: Table)
      ensures t.Entries(c) == Entries(c)[key := e]
      ensures forall d :: d != c ==> t.Entries(d) == Entries(d)
    {
      match c
      case Members => this.(members := members[key := e])
      case Users => this.(users := users[key := e])
      case Messages => this.(messages := messages[key := e])
      case Channels => this.(channels := channels[key := e])
      case Roles => this.(roles := roles[key := e])
    }
  }

  const EmptyTable := Table(map[], map[], map[], map[], map[])

  /** Every entity is filed under its own category. */
  ghost predicate Consistent(t: Table)
  {
    forall c, k :: k in t.Entries(c) ==> t.Entries(c)[k].category == c
  }

  /** The `value` attribute of an option node: never assigned, the raw JSON
      value, or an entity of the resolution table. */
  datatype OptionValue = Unset | Scalar(raw: Json) | Reference(entity: Entity)

  /** A decoded option node. */
  datatype OptionNode = OptionNode(
    name: string,
    kind: OptionKind,
    value: OptionValue,
    focused: bool,
    options: map<string, OptionNode>)

  /** The order in which a MENTIONABLE value probes the categories. */
  const MentionableOrder: seq<Category> := [Users, Members, Roles, Channels]

  /** A USER, CHANNEL or ROLE value: the entity under `key` in exactly the
      category `c`. */
  function Resolve(t: Table, c: Category, key: string): Result<OptionValue, Error>
  {
    if key in t.Entries(c) then Success(Reference(t.Entries(c)[key]))
    else Failure(MissingReference(c, key))
  }

  /** A MENTIONABLE value: users, then members, then roles, then channels;
      left unset when no category holds `key`. */
  function MentionableValue(t: Table, key: string): (v: OptionValue)
    ensures !v.Scalar?
    ensures v.Unset? <==>
              key !in t.Entries(Users) && key !in t.Entries(Members) && key !in t.Entries(Roles) && key !in t.Entries(Channels)
    ensures key in t.Entries(Users) ==> v == Reference(t.Entries(Users)[key])
  {
    if key in t.Entries(Users) then Reference(t.Entries(Users)[key])
    else if key in t.Entries(Members) then Reference(t.Entries(Members)[key])
    else if key in t.Entries(Roles) then Reference(t.Entries(Roles)[key])
    else if key in t.Entries(Channels) then Reference(t.Entries(Channels)[key])
    else Unset
  }

  /** The `value` of a node of kind `kind` whose raw fields are `m`. */
  function ValueOf(kind: OptionKind, m: map<string, Json>, resolved: Option<Table>): (r: Result<OptionValue, Error>)
    ensures "value" !in m ==> r == Success(Unset)
    ensures r.Success? && kind.IsGroup() ==> r.value.Unset?
    ensures r.Success? && r.value.Scalar? ==> kind.IsPrimitive() && r.value.raw == m["value"]
    ensures r.Success? && r.value.Reference? ==> kind.IsEntity() && resolved.Some?
  {
    if "value" !in m then Success(Unset)
    else if kind == SubCommand then Failure(ValueOnSubCommand)
    else if kind == SubCommandGroup then Failure(ValueOnSubCommandGroup)
    else if kind.IsPrimitive() then Success(Scalar(m["value"]))
    else if resolved.None? then Failure(MissingResolution)
    else match PyStr(m["value"])
      case None => Failure(WrongType("value"))
      case Some(key) =>
        if kind == User then Resolve(resolved.value, Users, key)
        else if kind == Channel then Resolve(resolved.value, Channels, key)
        else if kind == Role then Resolve(resolved.value, Roles, key)
        else Success(MentionableValue(resolved.value, key))
  }

  /** The option kind under the `type` key. */
  function KindOf(codes: Codes, j: Json): (r: Result<OptionKind, Error>)
    ensures r.Success? <==> EnumTag(j).Some? && codes.optionKind(EnumTag(j).value).Some?
    ensures r.Success? ==> codes.optionKind(EnumTag(j).value) == Some(r.value)
    ensures r.Failure? ==> r.error == UnknownEnumValue("type")
  {
    match EnumTag(j)
    case None => Failure(UnknownEnumValue("type"))
    case Some(n) =>
      match codes.optionKind(n)
      case None => Failure(UnknownEnumValue("type"))
      case Some(k) => Success(k)
  }

  /** What `for x in j` visits when `j` is no array and decodes: nothing,
      for an empty mapping or an empty string. A non-empty mapping or string
      yields strings, which no option decoder accepts, and any other value
      is not iterable. */
  predicate IteratesNothing(j: Json)
  {
    j == JObj(map[]) || j == JStr("")
  }

  /** Decoding of one option node against the resolution table `resolved`. */
  function OptionOf(codes: Codes, raw: Json, resolved: Option<Table>): (r: Result<OptionNode, Error>)
    ensures r.Success? ==> raw.JObj? && "name" in raw.fields && raw.fields["name"] == JStr(r.value.name)
    ensures r.Success? ==> (r.value.focused <==> "focused" in raw.fields)
    decreases raw
  {
    if !raw.JObj? then Failure(WrongType("options"))
    else if "name" !in raw.fields then Failure(MissingKey("name"))
    else if !raw.fields["name"].JStr? then Failure(WrongType("name"))
    else if "type" !in raw.fields then Failure(MissingKey("type"))
    else
      var kind :- KindOf(codes, raw.fields["type"]);
      var value :- ValueOf(kind, raw.fields, resolved);
      var children :-
        if "options" !in raw.fields then Success(map[])
        else if raw.fields["options"].JArr? then OptionsOf(codes, raw.fields["options"].items, resolved)
        else if IteratesNothing(raw.fields["options"]) then Success(map[])
        else Failure(WrongType("options"));
      Success(OptionNode(raw.fields["name"].s, kind, value, "focused" in raw.fields, children))
  }

  /** Decoding of an `options` array, in order, into a map keyed by name:
      the first failing entry raises, and a later entry replaces an earlier
      one of the same name. */
  function OptionsOf(codes: Codes, items: seq<Json>, resolved: Option<Table>): (r: Result<map<string, OptionNode>, Error>)
    ensures items == [] ==> r == Success(map[])
    decreases items
  {
    if items == [] then Success(map[])
    else
      var before :- OptionsOf(codes, items[..|items| - 1], resolved);
      var node :- OptionOf(codes, items[|items| - 1], resolved);
      Success(before[node.name := node])
  }

  /** `InteractionDataOptionStructure().from_dict(raw, guild_id, resolved)`. */
  method DecodeOption(codes: Codes, raw: Json, resolved: Option<Table>) returns (r: Result<OptionNode, Error>)
    ensures r == OptionOf(codes, raw, resolved)
    decreases raw
  {
    if !raw.JObj? {
      return Failure(WrongType("options"));
    }
    var m := raw.fields;
    if "name" !in m {
      return Failure(MissingKey("name"));
    }
    if !m["name"].JStr? {
      return Failure(WrongType("name"));
    }
    if "type" !in m {
      return Failure(MissingKey("type"));
    }
    var kind :- KindOf(codes, m["type"]);
    var value :- ValueOf(kind, m, resolved);
    var children: map<string, OptionNode> := map[];
    if "options" in m {
      if m["options"].JArr? {
        children :- DecodeOptionList(codes, m["options"].items, resolved);
      } else if !IteratesNothing(m["options"]) {
        return Failure(WrongType("options"));
      }
    }
    return Success(OptionNode(m["name"].s, kind, value, "focused" in m, children));
  }

  /** The loop `for option_dict in data['options']: options[name] = ...`,
      passing the same table to every child. */
  method DecodeOptionList(codes: Codes, items: seq<Json>, resolved: Option<Table>)
    returns (r: Result<map<string, OptionNode>, Error>)
    ensures r == OptionsOf(codes, items, resolved)
    decreases items
  {
    var options: map<string, OptionNode> := map[];
    var i := 0;
    while i < |items|
      invariant 0 <= i <= |items|
      invariant OptionsOf(codes, items[..i], resolved) == Success(options)
    {
      assert items[..i + 1][..i] == items[..i];
      var node := DecodeOption(codes, items[i], resolved);
      if node.Failure? {
        PrefixFailure(codes, items, i + 1, resolved);
        return Failure(node.error);
      }
      options := options[node.value.name := node.value];
      i := i + 1;
    }
    assert items[..i] == items;
    return Success(options);
  }

  /** Once a prefix of the array fails, the whole array fails the same way. */
  lemma {:induction false} PrefixFailure(codes: Codes, items: seq<Json>, i: nat, resolved: Option<Table>)
    requires i <= |items|
    requires OptionsOf(codes, items[..i], resolved).Failure?
    ensures OptionsOf(codes, items, resolved) == OptionsOf(codes, items[..i], resolved)
    decreases |items| - i
  {
    if i < |items| {
      assert items[..i + 1][..i] == items[..i];
      PrefixFailure(codes, items, i + 1, resolved);
    } else {
      assert items[..i] == items;
    }
  }

  /** The single category a USER, CHANNEL or ROLE value is looked up in. */
  function OwnCategory(kind: OptionKind): Category
    requires kind.User? || kind.Channel? || kind.Role?
  {
    if kind.User? then Users else if kind.Channel? then Channels else Roles
  }

  /** The per-kind value rules. */
  lemma ValueRules(kind: OptionKind, m: map<string, Json>, resolved: Option<Table>)
    ensures "value" !in m ==> ValueOf(kind, m, resolved) == Success(Unset)
    ensures "value" in m && kind.SubCommand? ==> ValueOf(kind, m, resolved) == Failure(ValueOnSubCommand)
    ensures "value" in m && kind.SubCommandGroup? ==> ValueOf(kind, m, resolved) == Failure(ValueOnSubCommandGroup)
    ensures "value" in m && kind.IsPrimitive() ==> ValueOf(kind, m, resolved) == Success(Scalar(m["value"]))
    ensures "value" in m && kind.IsEntity() && resolved.None? ==> ValueOf(kind, m, resolved) == Failure(MissingResolution)
    ensures "value" in m && kind.IsEntity() && resolved.Some? && PyStr(m["value"]).None? ==>
              ValueOf(kind, m, resolved) == Failure(WrongType("value"))
    ensures "value" in m && (kind.User? || kind.Channel? || kind.Role?) && resolved.Some? && PyStr(m["value"]).Some? ==>
              var c, key := OwnCategory(kind), PyStr(m["value"]).value;
              ValueOf(kind, m, resolved) ==
                if key in resolved.value.Entries(c) then Success(Reference(resolved.value.Entries(c)[key]))
                else Failure(MissingReference(c, key))
    ensures "value" in m && kind.Mentionable? && resolved.Some? && PyStr(m["value"]).Some? ==>
              ValueOf(kind, m, resolved) == Success(MentionableValue(resolved.value, PyStr(m["value"]).value))
  {
  }

  /** A USER, CHANNEL or ROLE value depends on no category but its own. */
  lemma OwnCategoryOnly(kind: OptionKind, m: map<string, Json>, t: Table, t': Table)
    requires kind.User? || kind.Channel? || kind.Role?
    requires t.Entries(OwnCategory(kind)) == t'.Entries(OwnCategory(kind))
    ensures ValueOf(kind, m, Some(t)) == ValueOf(kind, m, Some(t'))
  {
  }

  /** A MENTIONABLE value is the first hit in the order users, members, roles,
      channels, and stays unset, without error, when there is none. */
  lemma MentionablePriority(t: Table, key: string)
    ensures MentionableValue(t, key).Unset? <==>
              forall i :: 0 <= i < |MentionableOrder| ==> key !in t.Entries(MentionableOrder[i])
    ensures forall i :: 0 <= i < |MentionableOrder| && key in t.Entries(MentionableOrder[i]) &&
              (forall j :: 0 <= j < i ==> key !in t.Entries(MentionableOrder[j]))
              ==> MentionableValue(t, key) == Reference(t.Entries(MentionableOrder[i])[key])
  {
    assert MentionableOrder[0] == Users && MentionableOrder[1] == Members;
    assert MentionableOrder[2] == Roles && MentionableOrder[3] == Channels;
  }

  /** What a successfully decoded node holds: the raw name and kind, the value
      the rules give, `focused` exactly when the key is present, and the
      children decoded against the same table. */
  lemma DecodedNode(codes: Codes, raw: Json, resolved: Option<Table>)
    requires OptionOf(codes, raw, resolved).Success?
    ensures raw.JObj? && "name" in raw.fields && raw.fields["name"].JStr? && "type" in raw.fields
    ensures KindOf(codes, raw.fields["type"]).Success?
    ensures var n, m := OptionOf(codes, raw, resolved).value, raw.fields;
            && n.name == m["name"].s
            && n.kind == KindOf(codes, m["type"]).value
            && ValueOf(n.kind, m, resolved) == Success(n.value)
            && (n.focused <==> "focused" in m)
            && ("options" in m && m["options"].JArr? ==> OptionsOf(codes, m["options"].items, resolved) == Success(n.options))
            && ("options" in m && !m["options"].JArr? ==> IteratesNothing(m["options"]))
            && ("options" !in m || !m["options"].JArr? ==> n.options == map[])
  {
  }

  /** Every entry of an options array decodes. */
  ghost predicate AllDecode(codes: Codes, items: seq<Json>, resolved: Option<Table>)
  {
    forall i :: 0 <= i < |items| ==> OptionOf(codes, items[i], resolved).Success?
  }

  ghost function NodeAt(codes: Codes, items: seq<Json>, resolved: Option<Table>, i: int): OptionNode
    requires AllDecode(codes, items, resolved) && 0 <= i < |items|
  {
    OptionOf(codes, items[i], resolved).value
  }

  /** No later entry of the array has the name of entry `i`. */
  ghost predicate LastOfItsName(codes: Codes, items: seq<Json>, resolved: Option<Table>, i: int)
    requires AllDecode(codes, items, resolved) && 0 <= i < |items|
  {
    forall j :: i < j < |items| ==> NodeAt(codes, items, resolved, j).name != NodeAt(codes, items, resolved, i).name
  }

  /** The options map exists exactly when every entry decodes; otherwise
      the first failing entry's error is raised. */
  lemma {:induction false} OptionsFailFirst(codes: Codes, items: seq<Json>, resolved: Option<Table>)
    ensures OptionsOf(codes, items, resolved).Success? <==> AllDecode(codes, items, resolved)
    ensures OptionsOf(codes, items, resolved).Failure? ==>
              exists i :: 0 <= i < |items| && OptionOf(codes, items[i], resolved).Failure? &&
                (forall j :: 0 <= j < i ==> OptionOf(codes, items[j], resolved).Success?) &&
                OptionsOf(codes, items, resolved).error == OptionOf(codes, items[i], resolved).error
  {
    if items != [] {
      var p := items[..|items| - 1];
      assert forall i :: 0 <= i < |p| ==> p[i] == items[i];
      OptionsFailFirst(codes, p, resolved);
      if OptionsOf(codes, p, resolved).Failure? {
        var i :| 0 <= i < |p| && OptionOf(codes, p[i], resolved).Failure? &&
          (forall j :: 0 <= j < i ==> OptionOf(codes, p[j], resolved).Success?) &&
          OptionsOf(codes, p, resolved).error == OptionOf(codes, p[i], resolved).error;
        assert OptionOf(codes, items[i], resolved).Failure?;
      }
    }
  }

  /** Dropping the last entry of an array that decodes leaves an array that
      decodes to the same nodes. */
  lemma PrefixNodes(codes: Codes, items: seq<Json>, resolved: Option<Table>)
    requires AllDecode(codes, items, resolved) && items != []
    ensures AllDecode(codes, items[..|items| - 1], resolved)
    ensures forall i :: 0 <= i < |items| - 1 ==>
              NodeAt(codes, items, resolved, i) == NodeAt(codes, items[..|items| - 1], resolved, i)
  {
    var p := items[..|items| - 1];
    assert forall i :: 0 <= i < |p| ==> p[i] == items[i];
  }

  /** The keys of the options map are the names of the entries. */
  lemma {:induction false} OptionsKeys(codes: Codes, items: seq<Json>, resolved: Option<Table>)
    requires AllDecode(codes, items, resolved)
    ensures OptionsOf(codes, items, resolved).Success?
    ensures forall k :: k in OptionsOf(codes, items, resolved).value <==>
              exists i :: 0 <= i < |items| && NodeAt(codes, items, resolved, i).name == k
  {
    OptionsFailFirst(codes, items, resolved);
    if items != [] {
      var p := items[..|items| - 1];
      PrefixNodes(codes, items, resolved);
      OptionsKeys(codes, p, resolved);
      var last := |items| - 1;
      forall k | k in OptionsOf(codes, items, resolved).value
        ensures exists i :: 0 <= i < |items| && NodeAt(codes, items, resolved, i).name == k
      {
        if k != NodeAt(codes, items, resolved, last).name {
          var i :| 0 <= i < |p| && NodeAt(codes, p, resolved, i).name == k;
          assert NodeAt(codes, items, resolved, i).name == k;
        }
      }
    }
  }

  /** Each name of the options map is bound to the last entry that has it. */
  lemma {:induction false} OptionsLastWriteWins(codes: Codes, items: seq<Json>, resolved: Option<Table>, i: int)
    requires AllDecode(codes, items, resolved)
    requires 0 <= i < |items| && LastOfItsName(codes, items, resolved, i)
    ensures OptionsOf(codes, items, resolved).Success?
    ensures NodeAt(codes, items, resolved, i).name in OptionsOf(codes, items, resolved).value
    ensures OptionsOf(codes, items, resolved).value[NodeAt(codes, items, resolved, i).name] == NodeAt(codes, items, resolved, i)
  {
    OptionsFailFirst(codes, items, resolved);
    var p := items[..|items| - 1];
    var last := |items| - 1;
    if i < last {
      PrefixNodes(codes, items, resolved);
      assert NodeAt(codes, items, resolved, last).name != NodeAt(codes, items, resolved, i).name;
      forall j | i < j < |p|
        ensures NodeAt(codes, p, resolved, j).name != NodeAt(codes, p, resolved, i).name
      {
        assert NodeAt(codes, items, resolved, j) == NodeAt(codes, p, resolved, j);
      }
      OptionsLastWriteWins(codes, p, resolved, i);
    }
  }

  /** A value agrees with the node's kind: only primitive kinds hold raw
      values, only entity kinds hold references, and each reference comes from
      a category the kind may resolve to. */
  ghost predicate ValueFitsKind(kind: OptionKind, v: OptionValue)
  {
    match v
    case Unset => true
    case Scalar(_) => kind.IsPrimitive()
    case Reference(e) =>
      && kind.IsEntity()
      && (kind.User? ==> e.category == Users)
      && (kind.Channel? ==> e.category == Channels)
      && (kind.Role? ==> e.category == Roles)
      && (kind.Mentionable? ==> e.category != Messages)
  }

  /** Every node of the tree agrees with its kind, and every child is filed
      under its own name. */
  ghost predicate WellFormedTree(n: OptionNode)
  {
    && ValueFitsKind(n.kind, n.value)
    && forall k :: k in n.options ==> n.options[k].name == k && WellFormedTree(n.options[k])
  }

  /** Decoding against a consistent table yields a well-formed tree at every depth. */
  lemma {:induction false} DecodedTreeWellFormed(codes: Codes, raw: Json, resolved: Option<Table>)
    requires resolved.Some? ==> Consistent(resolved.value)
    requires OptionOf(codes, raw, resolved).Success?
    ensures WellFormedTree(OptionOf(codes, raw, resolved).value)
    decreases raw
  {
    var m := raw.fields;
    if "options" in m && m["options"].JArr? {
      DecodedListWellFormed(codes, m["options"].items, resolved);
    }
  }

  lemma {:induction false} DecodedListWellFormed(codes: Codes, items: seq<Json>, resolved: Option<Table>)
    requires resolved.Some? ==> Consistent(resolved.value)
    requires OptionsOf(codes, items, resolved).Success?
    ensures var m := OptionsOf(codes, items, resolved).value;
            forall k :: k in m ==> m[k].name == k && WellFormedTree(m[k])
    decreases items
  {
    if items != [] {
      DecodedListWellFormed(codes, items[..|items| - 1], resolved);
      DecodedTreeWellFormed(codes, items[|items| - 1], resolved);
    }
  }
}
