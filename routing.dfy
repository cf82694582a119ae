/**
 * The event gates: whether a reaction or a presence update leads to a status report, and
 * for which guild, report channel, user and start/stop flag.
 */
module Routing {
  import opened Common
  import opened Gateway
  import opened Edges
  import opened Effects
  import opened Registry

  /** A report to make: in `guild`, on channel `reportChan`, for `user`, starting or stopping. */
  datatype Route = Route(guild: Guild, reportChan: ChannelId, isStart: bool, user: UserId)

  /**
   * The reaction gate: the bot's own reactions, unknown or untracked messages and unwatched
   * guilds are ignored; otherwise an add starts and a removal stops, in the message's guild.
   */
  function ReactionRoute(watches: map<GuildId, Watch>, msgToWatch: map<MessageId, GuildId>,
                         botUser: UserId, msg: Option<Message>, user: UserId, isAdd: bool): (r: Option<Route>)
    ensures user == botUser ==> r.None?
    ensures msg.Some? && msg.value.id !in msgToWatch ==> r.None?
    ensures msg.Some? && msg.value.guild.Some? && msg.value.guild.value.id !in watches ==> r.None?
    ensures r.Some? ==>
      user != botUser && msg.Some? && msg.value.id in msgToWatch &&
      msg.value.guild == Some(r.value.guild) && r.value.guild.id in watches &&
      r.value.reportChan == watches[r.value.guild.id].reportChan &&
      r.value.isStart == isAdd && r.value.user == user
    ensures r.None? ==>
      user == botUser || msg.None? || msg.value.id !in msgToWatch ||
      msg.value.guild.None? || msg.value.guild.value.id !in watches
  {
    if user == botUser then None
    else if msg.None? || msg.value.id !in msgToWatch then None
    else if msg.value.guild.None? then None
    else
      var g := msg.value.guild.value;
      if g.id !in watches then None
      else Some(Route(g, watches[g.id].reportChan, isAdd, user))
  }

  /**
   * When the message's guild is the one recorded for it and every tracked message is
   * owned by a watched guild, only the bot's own reactions are ignored.
   */
  lemma TrackedReactionRoutes(watches: map<GuildId, Watch>, msgToWatch: map<MessageId, GuildId>,
                              botUser: UserId, m: Message, user: UserId, isAdd: bool)
    requires Addressed(watches, msgToWatch)
    requires m.id in msgToWatch && m.guild.Some? && m.guild.value.id == msgToWatch[m.id]
    ensures ReactionRoute(watches, msgToWatch, botUser, Some(m), user, isAdd).Some? <==> user != botUser
  {
  }

  /**
   * The presence gate, including the listener's check that an old presence exists:
   * a report follows exactly when an edge is detected, the new presence has a member and
   * a guild, and the guild is watched; it starts exactly on the start edge.
   */
  function PresenceRoute(watches: map<GuildId, Watch>, oldP: Option<Presence>, newP: Presence): (r: Option<Route>)
    ensures r.Some? <==>
      oldP.Some? &&
      (ApexStarted(oldP.value.activities, newP.activities) || ApexStopped(oldP.value.activities, newP.activities)) &&
      newP.member.Some? && newP.guild.Some? && newP.guild.value.id in watches
    ensures r.Some? ==>
      oldP.Some? && newP.member.Some? && newP.guild == Some(r.value.guild) &&
      r.value.guild.id in watches &&
      r.value.reportChan == watches[r.value.guild.id].reportChan &&
      r.value.user == newP.member.value.user &&
      (r.value.isStart <==> ApexStarted(oldP.value.activities, newP.activities)) &&
      (!r.value.isStart <==> ApexStopped(oldP.value.activities, newP.activities))
  {
    match oldP
    case None => None
    case Some(oldPresence) =>
      var started := ApexStarted(oldPresence.activities, newP.activities);
      var stopped := ApexStopped(oldPresence.activities, newP.activities);
      if !started && !stopped then None
      else if newP.member.None? || newP.guild.None? then None
      else
        var g := newP.guild.value;
        if g.id !in watches then None
        else Some(Route(g, watches[g.id].reportChan, started, newP.member.value.user))
  }

  /** The effects of following a route: none without one, otherwise one status report. */
  function RouteEffects(env: Env, r: Option<Route>): (es: seq<Effect>)
    ensures r.None? ==> es == []
    ensures es != [] <==> r.Some? && ReportGate(env, r.value.reportChan, r.value.guild, r.value.user) && env.sendOk
    ensures es != [] ==>
      r.Some? && ReportGate(env, r.value.reportChan, r.value.guild, r.value.user) && env.sendOk &&
      es[0] == Post(r.value.reportChan, Notice(r.value.guild.members[r.value.user].displayName, r.value.isStart))
    ensures forall i :: 0 <= i < |es| && es[i].Webhook? ==> r.Some? && (es[i].payload.kind == "start" <==> r.value.isStart)
  {
    match r
    case None => []
    case Some(rt) => ReportEffects(env, rt.reportChan, rt.isStart, rt.guild, rt.user)
  }
}
