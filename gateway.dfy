/**
 * What the chat gateway hands the bot: guilds with their channels, roles, emojis and
 * members, presences with their activity lists, fetched messages, and the answers of the
 * fallible calls made while handling one event.
 */
module Gateway {
  import opened Common

  /** The activity kinds the gateway reports. */
  datatype ActivityType = Playing | Streaming | Listening | Watching | Custom | Competing

  datatype Activity = Activity(kind: ActivityType, name: string)

  /** A guild channel: its id, its name and whether it is a text channel. */
  datatype Channel = Channel(id: ChannelId, name: string, isText: bool)

  /** A role or a custom emoji: both are looked up by name and used by id. */
  datatype Named = Named(id: string, name: string)

  type Role = Named
  type Emoji = Named

  datatype Member = Member(user: UserId, displayName: string)

  /** A fetched guild; `members` is what a member fetch by user id resolves to. */
  datatype Guild = Guild(
    id: GuildId,
    name: string,
    channels: seq<Channel>,
    roles: seq<Role>,
    emojis: seq<Emoji>,
    members: map<UserId, Member>)

  /** A presence snapshot; `member` and `guild` may be absent. */
  datatype Presence = Presence(activities: seq<Activity>, member: Option<Member>, guild: Option<Guild>)

  /** A fetched message and the result of fetching its guild. */
  datatype Message = Message(id: MessageId, guild: Option<Guild>)

  /**
   * The collaborators' answers while one event is handled: the bot's own user, what a
   * channel fetch by id resolves to, whether sending the report notice succeeds, whether
   * the role mutation succeeds, and the current time.
   */
  datatype Env = Env(
    botUser: UserId,
    channels: map<ChannelId, Channel>,
    sendOk: bool,
    roleOk: bool,
    now: IsoTime)

  predicate HasNamed(items: seq<Named>, name: string)
  {
    exists i :: 0 <= i < |items| && items[i].name == name
  }

  /** The first item called `name`: role and emoji lookups stop at the first match. */
  function FirstNamed(items: seq<Named>, name: string): (r: Option<Named>)
    ensures r.None? <==> !HasNamed(items, name)
    ensures r.Some? ==> exists i :: 0 <= i < |items| && items[i] == r.value && r.value.name == name
                                   && forall j :: 0 <= j < i ==> items[j].name != name
  {
    if |items| == 0 then None
    else if items[0].name == name then Some(items[0])
    else
      var rest := FirstNamed(items[1..], name);
      assert forall i :: 0 <= i < |items[1..]| ==> items[1..][i] == items[i + 1];
      rest
  }

  /** The linear search with `break` that both lookups perform. */
  method FindFirstNamed(items: seq<Named>, name: string) returns (r: Option<Named>)
    ensures r == FirstNamed(items, name)
  {
    r := None;
    var i := 0;
    while i < |items|
      invariant 0 <= i <= |items|
      invariant r.None?
      invariant FirstNamed(items[i..], name) == FirstNamed(items, name)
    {
      if items[i].name == name {
        r := Some(items[i]);
        break;
      }
      assert items[i..][1..] == items[i + 1..];
      i := i + 1;
    }
  }
}
