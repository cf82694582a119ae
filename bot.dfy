/**
 * The bot object: the guild registry `watches`, the tracked-message map `msgToWatch`, and
 * the trace of effects its handlers have caused. Each handler runs to completion.
 */
module Bot {
  import opened Common
  import opened Gateway
  import opened Edges
  import opened Effects
  import opened Registry
  import opened Routing

  class DiscordBot {
    var watches: map<GuildId, Watch>
    var msgToWatch: map<MessageId, GuildId>
    var effects: seq<Effect>

    ghost function State(): BotState
      reads this
    {
      BotState(watches, msgToWatch, effects)
    }

    /** Every tracked message is owned by a watched guild. */
    ghost predicate Valid()
      reads this
    {
      Addressed(watches, msgToWatch)
    }

    constructor ()
      ensures Valid()
      ensures watches == map[] && msgToWatch == map[] && effects == []
    {
      watches := map[];
      msgToWatch := map[];
      effects := [];
    }

    /** The `ready` handler: scan every fetched guild; `newIds[i]` is the id given to the message posted in `guilds[i]`. */
    method Ready(guilds: seq<Guild>, newIds: seq<MessageId>)
      requires Valid()
      requires |newIds| == |guilds|
      modifies this
      ensures Valid()
      ensures State() == ReadyScan(old(State()), guilds, newIds)
    {
      ghost var st0 := State();
      for i := 0 to |guilds|
        invariant State() == ReadyScan(st0, guilds[..i], newIds[..i])
      {
        var g := guilds[i];
        var selfChan, reportChan := ScanChannels(g.channels);
        if selfChan.Some? && reportChan.Some? {
          watches := watches[g.id := Watch(selfChan.value.id, reportChan.value.id)];
          var msgId := SendApexabilityMsg(selfChan.value, g, newIds[i]);
          if msgId.Some? {
            msgToWatch := msgToWatch[msgId.value := g.id];
          }
        }
        assert guilds[..i + 1][..i] == guilds[..i];
        assert newIds[..i + 1][..i] == newIds[..i];
      }
      assert guilds[..|guilds|] == guilds;
      assert newIds[..|newIds|] == newIds;
      ReadyScanAddressed(st0, guilds, newIds);
    }

    /** Looks up the first emoji named apex, then posts and reacts when the channel is a text channel. */
    method SendApexabilityMsg(ch: Channel, g: Guild, newId: MessageId) returns (msgId: Option<MessageId>)
      modifies this`effects
      ensures msgId == Publish(ch, g, newId).msg
      ensures effects == old(effects) + Publish(ch, g, newId).effects
    {
      var apexEmoji := FindFirstNamed(g.emojis, APEX_EMOJI);
      if apexEmoji.None? {
        return None;
      }
      if ch.isText {
        effects := effects + [Post(ch.id, OPT_IN_TEXT)];
        effects := effects + [React(newId, apexEmoji.value.id)];
        return Some(newId);
      } else {
        return None;
      }
    }

    /** The reaction handlers; `isAdd` tells an added reaction from a removed one. */
    method HandleReaction(env: Env, msg: Option<Message>, user: UserId, isAdd: bool)
      requires Valid()
      modifies this`effects
      ensures effects == old(effects) + RouteEffects(env, ReactionRoute(watches, msgToWatch, env.botUser, msg, user, isAdd))
      ensures msg.Some? && msg.value.id in msgToWatch && msg.value.guild.Some? &&
              msg.value.guild.value.id == msgToWatch[msg.value.id] && user != env.botUser ==>
              ReactionRoute(watches, msgToWatch, env.botUser, msg, user, isAdd).Some?
    {
      if msg.Some? && msg.value.id in msgToWatch && msg.value.guild.Some? && msg.value.guild.value.id == msgToWatch[msg.value.id] {
        TrackedReactionRoutes(watches, msgToWatch, env.botUser, msg.value, user, isAdd);
      }
      if user == env.botUser {
        return;
      }
      if msg.None? {
        return;
      }
      if msg.value.id !in msgToWatch {
        return;
      }
      if msg.value.guild.None? {
        return;
      }
      var g := msg.value.guild.value;
      if g.id !in watches {
        return;
      }
      ReportApexStatus(env, watches[g.id].reportChan, isAdd, g, user);
    }

    /** The presence listener: an update without an old presence is dropped. */
    method OnPresenceUpdate(env: Env, oldP: Option<Presence>, newP: Presence)
      modifies this`effects
      ensures effects == old(effects) + RouteEffects(env, PresenceRoute(watches, oldP, newP))
    {
      if oldP.None? {
        return;
      }
      HandlePresenceUpdate(env, oldP.value, newP);
    }

    method HandlePresenceUpdate(env: Env, oldP: Presence, newP: Presence)
      modifies this`effects
      ensures effects == old(effects) + RouteEffects(env, PresenceRoute(watches, Some(oldP), newP))
    {
      var started := IsApexStart(oldP.activities, newP.activities);
      var stopped := IsApexStop(oldP.activities, newP.activities);
      if !started && !stopped {
        return;
      }
      if newP.member.None? {
        return;
      }
      var member := newP.member.value;
      if newP.guild.None? {
        return;
      }
      var g := newP.guild.value;
      if g.id !in watches {
        return;
      }
      ReportApexStatus(env, watches[g.id].reportChan, started, g, member.user);
    }

    /** The guarded sequence: resolve the channel and the member, post the notice, toggle the role, post the webhook. */
    method ReportApexStatus(env: Env, reportChanId: ChannelId, isStart: bool, g: Guild, user: UserId)
      modifies this`effects
      ensures effects == old(effects) + ReportEffects(env, reportChanId, isStart, g, user)
    {
      if reportChanId !in env.channels {
        return;
      }
      var reportChan := env.channels[reportChanId];
      if !reportChan.isText {
        return;
      }
      if user !in g.members {
        return;
      }
      var member := g.members[user];
      if !env.sendOk {
        return;
      }
      effects := effects + [Post(reportChanId, Notice(member.displayName, isStart))];
      ghost var posted := effects;
      var completed := ApexRoleChange(env, member, isStart, g);
      ghost var roles := RoleChange(member.user, isStart, g.roles, env.roleOk);
      assert effects == posted + roles.effects;
      if !completed {
        return;
      }
      ReportToOneApex(member.displayName, isStart, env.now);
    }

    /** Toggles the first role named APEXable; `completed` is false when the mutation failed. */
    method ApexRoleChange(env: Env, member: Member, on: bool, g: Guild) returns (completed: bool)
      modifies this`effects
      ensures completed == RoleChange(member.user, on, g.roles, env.roleOk).completed
      ensures effects == old(effects) + RoleChange(member.user, on, g.roles, env.roleOk).effects
    {
      var apexRole := FindFirstNamed(g.roles, APEXABLE_ROLE);
      if apexRole.None? {
        return true;
      }
      if !env.roleOk {
        return false;
      }
      if on {
        effects := effects + [AddRole(member.user, apexRole.value.id)];
      } else {
        effects := effects + [RemoveRole(member.user, apexRole.value.id)];
      }
      return true;
    }

    method ReportToOneApex(inGameName: string, isStart: bool, time: IsoTime)
      modifies this`effects
      ensures effects == old(effects) + [Webhook(ComposePayload(inGameName, isStart, time))]
    {
      effects := effects + [Webhook(ComposePayload(inGameName, isStart, time))];
    }
  }
}
