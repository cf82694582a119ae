/**
 * The startup scan: for each guild, find the self channel and the report channel by
 * name, register the guild when both exist, and publish the opt-in message there.
 */
module Registry {
  import opened Common
  import opened Gateway
  import opened Effects

  const SELF_CHAN := "self-apexability"
  const REPORT_CHAN := "apexability-check"

  /** The registered channels of one guild. */
  datatype Watch = Watch(selfChan: ChannelId, reportChan: ChannelId)

  /** The bot's two maps and its effect trace. */
  datatype BotState = BotState(
    watches: map<GuildId, Watch>,
    msgToWatch: map<MessageId, GuildId>,
    effects: seq<Effect>)

  /** Every tracked message is owned by a registered guild. */
  predicate Addressed(watches: map<GuildId, Watch>, msgToWatch: map<MessageId, GuildId>)
  {
    forall m :: m in msgToWatch ==> msgToWatch[m] in watches
  }

  /** Like `HasNamed`, for channels, which carry a text flag besides their id and name. */
  predicate HasChannel(chs: seq<Channel>, name: string)
  {
    exists i :: 0 <= i < |chs| && chs[i].name == name
  }

  /** `id` belongs to a channel called `name` and no later channel has that name. */
  predicate IsLastNamed(chs: seq<Channel>, name: string, id: ChannelId)
  {
    exists i :: 0 <= i < |chs| && chs[i].id == id && chs[i].name == name
                && forall j :: i < j < |chs| ==> chs[j].name != name
  }

  /** The channel the scan keeps for `name`: without a `break` the last match wins. */
  function LastNamed(chs: seq<Channel>, name: string): (r: Option<Channel>)
    ensures r.None? <==> !HasChannel(chs, name)
    ensures r.Some? ==> r.value.name == name && IsLastNamed(chs, name, r.value.id)
    ensures r.Some? ==> exists i :: 0 <= i < |chs| && chs[i] == r.value && forall j :: i < j < |chs| ==> chs[j].name != name
  {
    if |chs| == 0 then None
    else if chs[|chs| - 1].name == name then Some(chs[|chs| - 1])
    else
      var rest := LastNamed(chs[..|chs| - 1], name);
      assert forall i :: 0 <= i < |chs| - 1 ==> chs[..|chs| - 1][i] == chs[i];
      rest
  }

  /** The channel loop of the startup scan: one slot per name, filled through `else if`. */
  method ScanChannels(chs: seq<Channel>) returns (selfChan: Option<Channel>, reportChan: Option<Channel>)
    ensures selfChan == LastNamed(chs, SELF_CHAN)
    ensures reportChan == LastNamed(chs, REPORT_CHAN)
  {
    assert |SELF_CHAN| != |REPORT_CHAN|;
    selfChan, reportChan := None, None;
    for i := 0 to |chs|
      invariant selfChan == LastNamed(chs[..i], SELF_CHAN)
      invariant reportChan == LastNamed(chs[..i], REPORT_CHAN)
    {
      assert chs[..i + 1][..i] == chs[..i];
      if chs[i].name == SELF_CHAN {
        selfChan := Some(chs[i]);
      } else if chs[i].name == REPORT_CHAN {
        reportChan := Some(chs[i]);
      }
    }
    assert chs[..|chs|] == chs;
  }

  predicate Registers(g: Guild)
  {
    HasChannel(g.channels, SELF_CHAN) && HasChannel(g.channels, REPORT_CHAN)
  }

  /**
   * One step of the startup scan. A guild with both channels gets an entry holding the
   * last matching channel of each name; the opt-in message is tracked only when it was
   * published. No other guild's entry changes, and the addressing invariant is kept.
   */
  function Register(st: BotState, g: Guild, newId: MessageId): (r: BotState)
    ensures !Registers(g) ==> r == st
    ensures Registers(g) ==>
      g.id in r.watches &&
      IsLastNamed(g.channels, SELF_CHAN, r.watches[g.id].selfChan) &&
      IsLastNamed(g.channels, REPORT_CHAN, r.watches[g.id].reportChan)
    ensures forall k :: k != g.id ==> (k in r.watches <==> k in st.watches)
    ensures forall k :: k != g.id && k in st.watches ==> r.watches[k] == st.watches[k]
    ensures Registers(g) ==>
      var selfChan := LastNamed(g.channels, SELF_CHAN).value;
      var pub := Publish(selfChan, g, newId);
      r.effects == st.effects + pub.effects &&
      r.msgToWatch == if pub.msg.Some? then st.msgToWatch[newId := g.id] else st.msgToWatch
    ensures Addressed(st.watches, st.msgToWatch) ==> Addressed(r.watches, r.msgToWatch)
  {
    var selfChan := LastNamed(g.channels, SELF_CHAN);
    var reportChan := LastNamed(g.channels, REPORT_CHAN);
    if selfChan.Some? && reportChan.Some? then
      var watches := st.watches[g.id := Watch(selfChan.value.id, reportChan.value.id)];
      var pub := Publish(selfChan.value, g, newId);
      var msgToWatch := if pub.msg.Some? then st.msgToWatch[pub.msg.value := g.id] else st.msgToWatch;
      BotState(watches, msgToWatch, st.effects + pub.effects)
    else
      st
  }

  /** The whole startup scan over the fetched guilds, `newIds[i]` naming the message posted in `guilds[i]`. */
  function ReadyScan(st: BotState, guilds: seq<Guild>, newIds: seq<MessageId>): (r: BotState)
    requires |newIds| == |guilds|
    ensures st.watches.Keys <= r.watches.Keys
    ensures forall k :: k in st.watches && (forall j :: 0 <= j < |guilds| ==> guilds[j].id != k) ==>
      r.watches[k] == st.watches[k]
  {
    if |guilds| == 0 then st
    else Register(ReadyScan(st, guilds[..|guilds| - 1], newIds[..|newIds| - 1]), guilds[|guilds| - 1], newIds[|newIds| - 1])
  }

  /** The scan keeps the addressing invariant. */
  lemma {:induction false} ReadyScanAddressed(st: BotState, guilds: seq<Guild>, newIds: seq<MessageId>)
    requires |newIds| == |guilds|
    requires Addressed(st.watches, st.msgToWatch)
    ensures var r := ReadyScan(st, guilds, newIds); Addressed(r.watches, r.msgToWatch)
  {
    if |guilds| > 0 {
      ReadyScanAddressed(st, guilds[..|guilds| - 1], newIds[..|newIds| - 1]);
    }
  }

  /** After the scan a guild is registered iff it was before or some scanned guild with its id has both channels. */
  lemma {:induction false} ReadyScanWatches(st: BotState, guilds: seq<Guild>, newIds: seq<MessageId>, id: GuildId)
    requires |newIds| == |guilds|
    ensures id in ReadyScan(st, guilds, newIds).watches <==>
      id in st.watches || exists k :: 0 <= k < |guilds| && guilds[k].id == id && Registers(guilds[k])
  {
    if |guilds| > 0 {
      var n := |guilds| - 1;
      ReadyScanWatches(st, guilds[..n], newIds[..n], id);
      assert forall k :: 0 <= k < n ==> guilds[..n][k] == guilds[k];
    }
  }

  /** The trace only grows during the scan: earlier effects are kept as a prefix. */
  lemma {:induction false} ReadyScanExtendsTrace(st: BotState, guilds: seq<Guild>, newIds: seq<MessageId>)
    requires |newIds| == |guilds|
    ensures var r := ReadyScan(st, guilds, newIds); |st.effects| <= |r.effects| && r.effects[..|st.effects|] == st.effects
  {
    if |guilds| > 0 {
      var n := |guilds| - 1;
      ReadyScanExtendsTrace(st, guilds[..n], newIds[..n]);
    }
  }
}
