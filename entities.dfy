/** Identifiers and the leaf objects the interaction core holds without
    looking inside them. The Snowflake class and the leaf decoders and encoders
    (User, Member, Message, channels, Role, Embed, components, choices) are not
    part of this model. */
module Entities {
  import opened Wrappers
  import opened RawJson

  /** `snowflake.Snowflake(x)`: an id built from the raw JSON value `x`. */
  datatype Snowflake = Snowflake(raw: Json)

  /** The categories of a resolution table. */
  datatype Category = Members | Users | Messages | Channels | Roles

  /** The key under which a category appears in a `resolved` payload. */
  function CategoryName(c: Category): string
  {
    match c
    case Members => "members"
    case Users => "users"
    case Messages => "messages"
    case Channels => "channels"
    case Roles => "roles"
  }

  /** The category a `resolved` key names, if it names one. */
  function CategoryOf(name: string): (r: Option<Category>)
    ensures r.Some? ==> CategoryName(r.value) == name
    ensures r.None? ==> forall c :: CategoryName(c) != name
  {
    if name == "members" then Some(Members)
    else if name == "users" then Some(Users)
    else if name == "messages" then Some(Messages)
    else if name == "channels" then Some(Channels)
    else if name == "roles" then Some(Roles)
    else None
  }

  /** The object the category's leaf decoder builds from `raw`
      (`Member().from_dict(raw)`, `User().from_dict(raw)`, ...). */
  datatype Entity = Entity(category: Category, raw: Json)

  /** Outgoing leaf objects staged on a callback. */
  datatype Embed = Embed(raw: Json)
  datatype Component = Component(raw: Json)
  datatype Choice = Choice(name: string, value: Json)

  /** The `to_dict` of each outgoing leaf object. */
  datatype Encoders = Encoders(
    embed: Embed -> Json,
    component: Component -> Json,
    choice: Choice -> Json)
}
