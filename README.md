# ApexabilityBot decision logic in Dafny

A model of the `DiscordBot` class of ApexabilityBot. The bot tracks, per guild, which members are playing Apex Legends. It uses the `ready`, reaction and presence handlers. Its state is two maps: `watches` (guild to its self channel and report channel) and `msgToWatch` (opt-in message to guild). discord.js and HTTP are replaced by plain inputs. Everything the bot does to the outside world is appended to an effect trace: channel posts, reactions, role additions and removals, and the webhook payload.

Modules, one per component:

- `Common`: `Option` and the identifier kinds.
- `Gateway`: what the gateway hands the bot. This covers guilds with channels, roles, emojis and members, presences, fetched messages, and `Env`. `Env` holds the answers of the fallible calls during one event: the bot's own user, the channel directory, whether the notice send succeeds, whether the role mutation succeeds, and the clock reading. It also holds the first-match lookup used for roles and emojis.
- `Edges`: `isApexStart` / `isApexStop` as loops, proved against "the game is in the list".
- `Effects`: the trace, the notice text, the webhook payload, the role toggle, the status report sequence and the opt-in publisher, as specification functions.
- `Registry`: the startup scan (channel loop, per-guild registration, the whole scan) and the addressing invariant "every tracked message belongs to a watched guild".
- `Routing`: the reaction and presence gates.
- `Bot`: the class `DiscordBot`. Its handler methods update `watches`, `msgToWatch` and `effects`, and are proved against the functions above.
- `Scenarios`: scenarios on one concrete guild, proved from the handlers' contracts. These are startup, then reaction add/remove/add giving start/stop/start, and presence from no activity to playing.

The model follows the code in these details:

- The channel loop of the `ready` handler has no `break`, so the **last** channel with each name is registered, not the first. `Registry.LastNamed` and `Registry.Register` state this.
- `handleReaction` routes by the message's own guild, not by the guild stored in `msgToWatch`. The map is only tested for membership. `Routing.TrackedReactionRoutes` shows that when the two agree and the addressing invariant holds, only the bot's own reactions are ignored.
- The role lookup matches the name `APEXable` exactly and case-sensitively.

## Model

| member | source | states |
|---|---|---|
| `Gateway.FirstNamed` | src/index.ts:196-201 | no result iff no item has the name; otherwise the result has the name and no earlier item does (first match wins, as for roles and emojis) |
| `Gateway.FindFirstNamed` | src/index.ts:218-225 | the linear search with `break` returns exactly the first item with the name |
| `Edges.IsApexStart` | src/index.ts:99-112 | true iff no old activity is (Playing, "Apex Legends") and some new activity is |
| `Edges.IsApexStop` | src/index.ts:114-130 | true iff some old activity is (Playing, "Apex Legends") and no new activity is |
| `Edges.EdgeCases` | src/index.ts:133-138 | start and stop never both hold; neither holds when the game is in both lists or in neither; an edge holds iff the lists disagree about the game |
| `Effects.Notice` | src/index.ts:181-182 | the notice begins with the member's display name and ends with `を始めました` iff starting |
| `Effects.ComposePayload` | src/index.ts:241-247 | the payload carries the in-game name and the time; its `type` is "start" or "stop", and "start" iff starting |
| `Effects.RoleChange` | src/index.ts:193-211 | without a role named APEXable nothing changes and the sequence goes on; otherwise the first such role is added when on and removed when off; a failed mutation records nothing and stops the sequence |
| `Effects.ReportEffects` | src/index.ts:170-191 | no effect unless the report channel is a text channel, the user is a member and the notice is sent; otherwise the notice comes first, a role change can only be second, and the webhook can only be last, with the start/stop type; without the role the trace is the notice then the webhook; with it, the trace is the notice, the add (starting) or remove (stopping) of the first APEXable role on the member, then the webhook, and after a failed mutation only the notice |
| `Effects.Publish` | src/index.ts:214-239 | a message id is returned iff an emoji named apex exists and the channel is a text channel; it is the new message's id and the effects are one post then a reaction with the first apex emoji; otherwise no effect |
| `Registry.LastNamed` | src/index.ts:57-65 | no channel iff none has the name; otherwise the list element (id, name and text flag) with the name after which no channel has it |
| `Registry.ScanChannels` | src/index.ts:57-65 | the channel loop keeps the last self-apexability channel and the last apexability-check channel |
| `Registry.Register` | src/index.ts:67-78 | a guild gets an entry iff both channels exist, holding the last channel of each name; other guilds' entries are unchanged; the message is tracked iff it was published; the trace grows by the publisher's effects; the addressing invariant is kept |
| `Registry.ReadyScan` | src/index.ts:50-79 | the scan applies `Register` to each fetched guild in order; it never removes a watched guild, and a guild not among the scanned ones keeps its entry |
| `Registry.ReadyScanAddressed` | src/index.ts:50-79 | the whole startup scan keeps every tracked message owned by a watched guild |
| `Registry.ReadyScanWatches` | src/index.ts:50-79 | after the scan a guild id is watched iff it was before or some scanned guild with that id has both channels |
| `Registry.ReadyScanExtendsTrace` | src/index.ts:50-79 | the scan only appends to the effect trace |
| `Routing.ReactionRoute` | src/index.ts:149-168 | the bot's own reactions, untracked messages and unwatched guilds give no route; otherwise the route is the message's guild, its report channel, the reacting user and start iff the reaction was added |
| `Routing.RouteEffects` | src/index.ts:146 | the final `reportApexStatus` call of both handlers (also line 167): no route gives no effect; a route yields effects iff its report gate passes and the notice is sent; any effect means the route's report gate passed and the first effect is the notice on the route's report channel; a webhook's type is "start" iff the route starts |
| `Routing.TrackedReactionRoutes` | src/index.ts:159-163 | with the addressing invariant, a reaction on a tracked message in its recorded guild is routed iff the user is not the bot |
| `Routing.PresenceRoute` | src/index.ts:132-147 | a route exists iff there is an old presence (line 90), an edge, a member, a guild and a watch entry; it starts iff the game was absent and is present, and it stops iff the game was present and is absent |
| `Bot.DiscordBot.constructor` | src/index.ts:29-34 | both maps and the trace start empty, and the invariant holds |
| `Bot.DiscordBot.Ready` | src/index.ts:46-80 | the new state is the startup scan of the old state over the guilds, and the invariant is kept |
| `Bot.DiscordBot.SendApexabilityMsg` | src/index.ts:214-239 | returns and records exactly what `Publish` states |
| `Bot.DiscordBot.HandleReaction` | src/index.ts:149-168 | appends the status report of the reaction route, or nothing without a route; the maps are unchanged; under the object invariant, a reaction by another user on a tracked message in its recorded guild is always routed |
| `Bot.DiscordBot.OnPresenceUpdate` | src/index.ts:89-92 | appends the status report of the presence route, and nothing when there is no old presence |
| `Bot.DiscordBot.HandlePresenceUpdate` | src/index.ts:132-147 | after both edge scans, appends the status report of the presence route |
| `Bot.DiscordBot.ReportApexStatus` | src/index.ts:170-191 | appends exactly the guarded report sequence of `ReportEffects` |
| `Bot.DiscordBot.ApexRoleChange` | src/index.ts:193-212 | appends and reports completion exactly as `RoleChange` states |
| `Bot.DiscordBot.ReportToOneApex` | src/index.ts:241-247 | appends one webhook carrying the composed payload |
| `Scenarios.ScanOfGuild` | src/index.ts:46-80 | a guild with both channels and the apex emoji is watched, its opt-in message is tracked, and the trace is the post then the reaction |
| `Scenarios.AliceReport` | src/index.ts:178-186 | in a guild with the APEXable role, a report for a present member is the notice, the role add (start) or remove (stop), then the webhook with type start or stop |

## Left out

- src/web.ts, the inbound HTTP server: it is never started and only logs.
- Environment checks, `process.exit`, client construction and login: configuration and process plumbing.
- The webhook URL, the HTTP transport and its result: the POST is fire-and-forget, so the trace records the payload sent.
- Interleaving of handlers at `await` points: each handler runs to completion.
- `console.log` output.
- The clock: `new Date().toISOString()` is the opaque `Env.now` text.
- `user == this.client.user` compares user objects; the model compares user ids.
- Failures of the guild fetch, channel list, emoji list and role list calls are not modelled; these lists are inputs.
- `Bot.DiscordBot.Ready`: assumes the opt-in send and react succeed. In the source a failure there rejects the `ready` handler and ends the scan of the remaining guilds.
- `Bot.DiscordBot.HandleReaction`: assumes `user.fetch()` succeeds. In the source a failure there ends the handler before any effect.
- The id a newly posted opt-in message receives is chosen by the platform; `Ready` takes it as the input `newIds`.
- Map iteration order is the order of the input sequences.
