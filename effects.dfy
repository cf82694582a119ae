/**
 * The effect trace and what the status reporter and the opt-in publisher put in it.
 * The trace holds the collaborator calls that took effect, in order: a call that fails
 * is not recorded and ends the guarded sequence it belongs to.
 */
module Effects {
  import opened Common
  import opened Gateway

  const APEXABLE_ROLE := "APEXable"
  const APEX_EMOJI := "apex"
  const START_TAIL := "を始めました"
  const STOP_TAIL := "をやめました"
  const OPT_IN_TEXT := "Apex Legends を始めたらリアクションをつけてください。"

  /** The JSON body posted to the reporting endpoint. */
  datatype Payload = Payload(inGameName: string, kind: string, time: IsoTime)

  datatype Effect =
    | Post(chan: ChannelId, text: string)
    | React(msg: MessageId, emoji: EmojiId)
    | AddRole(user: UserId, role: RoleId)
    | RemoveRole(user: UserId, role: RoleId)
    | Webhook(payload: Payload)

  /** The report notice: it names the member and ends with the start tail exactly when starting. */
  function Notice(displayName: string, isStart: bool): (r: string)
    ensures |displayName| <= |r| && r[..|displayName|] == displayName
    ensures |START_TAIL| <= |r| && (r[|r| - |START_TAIL|..] == START_TAIL <==> isStart)
  {
    var tail := if isStart then START_TAIL else STOP_TAIL;
    var r := displayName + " が Apex Legends " + tail;
    assert r[|r| - |START_TAIL|..] == tail;
    assert START_TAIL[1] != STOP_TAIL[1];
    r
  }

  /** The webhook body: the `type` field is "start" exactly when starting, "stop" otherwise. */
  function ComposePayload(inGameName: string, isStart: bool, time: IsoTime): (p: Payload)
    ensures p.inGameName == inGameName && p.time == time
    ensures p.kind == "start" || p.kind == "stop"
    ensures p.kind == "start" <==> isStart
  {
    Payload(inGameName, if isStart then "start" else "stop", time)
  }

  /** What the role toggle did, and whether it returned normally (a failed mutation throws). */
  datatype RoleOutcome = RoleOutcome(effects: seq<Effect>, completed: bool)

  /**
   * The role toggle on the first role named APEXable: added when `on`, removed otherwise.
   * Without such a role nothing is mutated and the sequence goes on.
   */
  function RoleChange(user: UserId, on: bool, roles: seq<Role>, roleOk: bool): (r: RoleOutcome)
    ensures !HasNamed(roles, APEXABLE_ROLE) ==> r == RoleOutcome([], true)
    ensures r.completed <==> !HasNamed(roles, APEXABLE_ROLE) || roleOk
    ensures |r.effects| <= 1
    ensures |r.effects| == 1 <==> HasNamed(roles, APEXABLE_ROLE) && roleOk
    ensures |r.effects| == 1 ==>
      var role := FirstNamed(roles, APEXABLE_ROLE).value;
      role.name == APEXABLE_ROLE &&
      r.effects[0] == if on then AddRole(user, role.id) else RemoveRole(user, role.id)
  {
    match FirstNamed(roles, APEXABLE_ROLE)
    case None => RoleOutcome([], true)
    case Some(role) =>
      if !roleOk then RoleOutcome([], false)
      else if on then RoleOutcome([AddRole(user, role.id)], true)
      else RoleOutcome([RemoveRole(user, role.id)], true)
  }

  /** The gate of the status report: the report channel is a text channel and the user is a member. */
  predicate ReportGate(env: Env, chanId: ChannelId, g: Guild, user: UserId)
  {
    chanId in env.channels && env.channels[chanId].isText && user in g.members
  }

  /**
   * The effects of one status report: the notice, then the role toggle, then the webhook.
   * A failed gate or a failed notice yields nothing; a failed role mutation drops the webhook.
   */
  function ReportEffects(env: Env, chanId: ChannelId, isStart: bool, g: Guild, user: UserId): (r: seq<Effect>)
    ensures r != [] <==> ReportGate(env, chanId, g, user) && env.sendOk
    ensures r != [] ==>
      ReportGate(env, chanId, g, user) && r[0] == Post(chanId, Notice(g.members[user].displayName, isStart))
    ensures forall i :: 0 < i < |r| ==> !r[i].Post? && !r[i].React?
    ensures forall i :: 0 <= i < |r| && (r[i].AddRole? || r[i].RemoveRole?) ==>
      i == 1 && ReportGate(env, chanId, g, user) && r[i].user == g.members[user].user &&
      (r[i].AddRole? <==> isStart)
    ensures forall i :: 0 <= i < |r| && r[i].Webhook? ==>
      i == |r| - 1 && ReportGate(env, chanId, g, user) &&
      r[i].payload == ComposePayload(g.members[user].displayName, isStart, env.now)
    ensures r != [] && !HasNamed(g.roles, APEXABLE_ROLE) ==>
      r == [r[0], Webhook(ComposePayload(g.members[user].displayName, isStart, env.now))]
    ensures r != [] && HasNamed(g.roles, APEXABLE_ROLE) ==>
      var role := FirstNamed(g.roles, APEXABLE_ROLE).value;
      var m := g.members[user];
      role.name == APEXABLE_ROLE &&
      r == if env.roleOk
           then [r[0], if isStart then AddRole(m.user, role.id) else RemoveRole(m.user, role.id),
                 Webhook(ComposePayload(m.displayName, isStart, env.now))]
           else [r[0]]
  {
    if !ReportGate(env, chanId, g, user) || !env.sendOk then []
    else
      var member := g.members[user];
      var roles := RoleChange(member.user, isStart, g.roles, env.roleOk);
      [Post(chanId, Notice(member.displayName, isStart))] + roles.effects +
      (if roles.completed then [Webhook(ComposePayload(member.displayName, isStart, env.now))] else [])
  }

  /** The result of publishing the opt-in message: its id when posted, and the effects. */
  datatype Published = Published(msg: Option<MessageId>, effects: seq<Effect>)

  /**
   * Publishing the opt-in message into `ch` under the id `newId` the platform assigns:
   * it happens exactly when the guild has an emoji named apex and `ch` is a text channel,
   * and then posts once and reacts with the first such emoji.
   */
  function Publish(ch: Channel, g: Guild, newId: MessageId): (p: Published)
    ensures p.msg.Some? <==> HasNamed(g.emojis, APEX_EMOJI) && ch.isText
    ensures p.msg.None? ==> p.effects == []
    ensures p.msg.Some? ==>
      var emoji := FirstNamed(g.emojis, APEX_EMOJI).value;
      p.msg.value == newId && emoji.name == APEX_EMOJI &&
      p.effects == [Post(ch.id, OPT_IN_TEXT), React(newId, emoji.id)]
  {
    match FirstNamed(g.emojis, APEX_EMOJI)
    case None => Published(None, [])
    case Some(emoji) =>
      if ch.isText then Published(Some(newId), [Post(ch.id, OPT_IN_TEXT), React(newId, emoji.id)])
      else Published(None, [])
  }
}
