/** Scenarios on one concrete guild, proved from the handlers' contracts alone. */
module Scenarios {
  import opened Common
  import opened Gateway
  import opened Edges
  import opened Effects
  import opened Registry
  import opened Routing
  import opened Bot

  const SELF := Channel("c-self", SELF_CHAN, true)
  const REPORT := Channel("c-report", REPORT_CHAN, true)
  const ALICE := Member("u-alice", "Alice")
  const GUILD := Guild("g1", "guild", [SELF, REPORT], [Named("r1", APEXABLE_ROLE)],
                       [Named("e1", APEX_EMOJI)], map["u-alice" := ALICE])
  const ENV := Env("u-bot", map["c-report" := REPORT], true, true, "2021-12-01T00:00:00.000Z")

  /** The startup scan registers the guild, tracks the opt-in message and records its two effects. */
  lemma ScanOfGuild()
    ensures ReadyScan(BotState(map[], map[], []), [GUILD], ["m1"]) ==
      BotState(map["g1" := Watch("c-self", "c-report")], map["m1" := "g1"], [Post("c-self", OPT_IN_TEXT), React("m1", "e1")])
  {
    assert |SELF_CHAN| != |REPORT_CHAN|;
    assert [SELF, REPORT][..1] == [SELF];
    assert [GUILD][..0] == [] && ["m1"][..0] == [];
    assert LastNamed(GUILD.channels, SELF_CHAN) == Some(SELF);
    assert LastNamed(GUILD.channels, REPORT_CHAN) == Some(REPORT);
  }

  /** A report for Alice in the guild: the notice, the role toggle on r1, then the webhook. */
  lemma AliceReport(isStart: bool)
    ensures ReportEffects(ENV, "c-report", isStart, GUILD, "u-alice") ==
      [Post("c-report", Notice("Alice", isStart)),
       if isStart then AddRole("u-alice", "r1") else RemoveRole("u-alice", "r1"),
       Webhook(Payload("Alice", if isStart then "start" else "stop", ENV.now))]
  {
    assert FirstNamed(GUILD.roles, APEXABLE_ROLE) == Some(Named("r1", APEXABLE_ROLE));
  }

  /** Startup publishes the opt-in message; a reaction add, remove and add give start, stop, start. */
  method ReactionToggle()
  {
    var bot := new DiscordBot();
    bot.Ready([GUILD], ["m1"]);
    ScanOfGuild();
    assert bot.watches == map["g1" := Watch("c-self", "c-report")];
    assert bot.msgToWatch == map["m1" := "g1"];
    assert bot.effects == [Post("c-self", OPT_IN_TEXT), React("m1", "e1")];

    var m := Some(Message("m1", Some(GUILD)));
    var route := Some(Route(GUILD, "c-report", true, "u-alice"));
    assert ReactionRoute(bot.watches, bot.msgToWatch, "u-bot", m, "u-alice", true) == route;
    assert ReactionRoute(bot.watches, bot.msgToWatch, "u-bot", m, "u-alice", false) == Some(route.value.(isStart := false));
    AliceReport(true);
    AliceReport(false);
    bot.HandleReaction(ENV, m, "u-alice", true);
    assert bot.effects[2..] == [Post("c-report", Notice("Alice", true)), AddRole("u-alice", "r1"),
                                Webhook(Payload("Alice", "start", ENV.now))];
    bot.HandleReaction(ENV, m, "u-alice", false);
    assert bot.effects[5..] == [Post("c-report", Notice("Alice", false)), RemoveRole("u-alice", "r1"),
                                Webhook(Payload("Alice", "stop", ENV.now))];
    bot.HandleReaction(ENV, m, "u-alice", true);
    assert bot.effects[8..] == [Post("c-report", Notice("Alice", true)), AddRole("u-alice", "r1"),
                                Webhook(Payload("Alice", "start", ENV.now))];
    assert |bot.effects| == 11;

    // the bot's own seed reaction and reactions on other messages change nothing
    bot.HandleReaction(ENV, m, "u-bot", true);
    bot.HandleReaction(ENV, Some(Message("m2", Some(GUILD))), "u-alice", true);
    assert |bot.effects| == 11;
  }

  /** A member going from no activity to playing the game is reported as starting. */
  method PresenceStart()
  {
    var bot := new DiscordBot();
    bot.Ready([GUILD], ["m1"]);
    ScanOfGuild();
    var before := Presence([], Some(ALICE), Some(GUILD));
    var after := Presence([Activity(Playing, APEX_GAME)], Some(ALICE), Some(GUILD));
    assert IsApex(after.activities[0]);
    assert PresenceRoute(bot.watches, Some(before), after) == Some(Route(GUILD, "c-report", true, "u-alice"));
    AliceReport(true);
    bot.OnPresenceUpdate(ENV, Some(before), after);
    assert bot.effects[2..] == [Post("c-report", Notice("Alice", true)), AddRole("u-alice", "r1"),
                                Webhook(Payload("Alice", "start", ENV.now))];
    // no baseline presence, or the game in both snapshots: nothing happens
    bot.OnPresenceUpdate(ENV, None, after);
    bot.OnPresenceUpdate(ENV, Some(after), after);
    assert |bot.effects| == 5;
  }
}
