# discordsrv-bridge core, modelled in Dafny

This project models the logic core of discordsrv-bridge, a Minecraft plugin library. The library lets plugins send Discord webhook messages through DiscordSRV and receive button and slash-command interactions. The model covers five parts:

- **The component-id grammar** (`IDPattern`). A button's `custom_id` has the form `plugin/type/id/user[/payload][/]`. The model parses it with the fixed pattern `^(\w+)/(\w+)/(\w+)/(\w+)(?:/(.*?))?/?$`, written out directly (no regex engine).
  - `\w` is ASCII `[A-Za-z0-9_]`.
  - `.` excludes the Java line terminators.
  - The lazy payload group drops one trailing `/`.
- **The component-id builder** (`ComponentProvider.newComponentID`, both overloads). It joins the fields with `/`, renders the id and user as unsigned decimal, and refuses:
  - a missing id or user;
  - a null payload;
  - a result longer than 100 characters.
- **Owned-component validation** (`PluginComponent`). This is a smart constructor returning a `Result`, plus the accessors over a validated component, and `getOpt`.
- **The interaction registry and command map** (`DiscordCommandProvider`). This is a class whose methods change the maps in place. The asynchronous 15-minute expiry task is an explicit step that fires a pending `Timer`. A ghost log records the calls of the `onInteractionTimeout` hook. A pure `Registry` value, with one step function per operation, specifies the methods. The lemmas are about runs of steps.
- **The webhook payload builder** (`WebhookDataBuilder`).
  - A builder class whose setters record state, including the `flags` bits 12 (suppress notifications) and 15 (components V2).
  - A pure `BuildData` that decides which JSON keys appear.
  - A `WebhookData` class that collects file attachments and indexes them.

`JavaLang` holds the Java library behaviour the core relies on:
- `Long.toUnsignedString` and `Long.parseUnsignedLong`;
- `Integer.toString` and `Integer.valueOf`;
- the 64-bit and 32-bit ranges;
- the exceptions, as a `Result` error.

All paths below are relative to the repository root.

Behaviour that the proofs establish about the source:
- A minted id parses back to the same plugin, type, unsigned id and user, when the plugin name and the type are `\w+` words and the id is at most 100 characters. A plugin name with `-` or `.` mints ids that its own validation rejects.
- A payload comes back verbatim only when it holds no line terminator and does not end in `/`:
  - `"x/"` comes back as `"x"`;
  - a payload with a newline makes an id that the plugin's own validation refuses.
- With the snowflake check taken as "1 to 20 decimal digits" (see "## Left out"), the id `p/t/99999999999999999999/1` validates, yet `getIDLong` throws `NumberFormatException` for it.
- When an id is overwritten, the first put's expiry evicts the newer payload early, and reports the old payload's class.

## Model

| member | source | states |
|---|---|---|
| IDPattern.ParseSound | src/main/java/asia/buildtheearth/asean/discord/components/IDPattern.java:48-53 | whenever `parseCustomID` matches, the four groups are non-empty `\w+` words, the payload (if any) has no line terminator, and the input is exactly those groups joined by `/`, with at most one trailing `/` |
| IDPattern.ParseCustomID | src/main/java/asia/buildtheearth/asean/discord/components/IDPattern.java:67-77 | `parseCustomID`: the four word groups each followed by `/`, then the tail `(?:/(.*?))?/?$`; the groups of the match, with the payload entry only when its group took part, or null when the whole string does not match (its meaning: ParseSound and ParseComplete) |
| IDPattern.ParseComplete | src/main/java/asia/buildtheearth/asean/discord/components/IDPattern.java:67-77 | every rendering of well-formed fields, with or without a trailing `/`, parses back to the same plugin, type, id and user. The payload group is absent without a payload, `""` for a bare trailing `/`, and the payload minus one final `/` otherwise. With ParseSound this gives "null exactly when the input does not match". |
| IDPattern.LineTerminatorNeverMatches | src/main/java/asia/buildtheearth/asean/discord/components/IDPattern.java:50 | a `custom_id` containing a line terminator anywhere never matches |
| IDPattern.WordPrefix | src/main/java/asia/buildtheearth/asean/discord/components/IDPattern.java:50 | a `\w+` group is the longest prefix of word characters: all of it is word characters and the next character is not |
| IDPattern.FourFieldsExample | src/main/java/asia/buildtheearth/asean/discord/components/IDPattern.java:72-76 | `"p/t/1/2"` yields four groups and no payload entry |
| IDPattern.EmptyPayloadExample | src/main/java/asia/buildtheearth/asean/discord/components/IDPattern.java:50 | `"p/t/1/2/"` yields the empty payload, not an absent one |
| IDPattern.InnerSlashExample | src/main/java/asia/buildtheearth/asean/discord/components/IDPattern.java:50 | `"p/t/1/2/a/b"` yields payload `"a/b"` |
| IDPattern.TrailingSlashExample | src/main/java/asia/buildtheearth/asean/discord/components/IDPattern.java:50 | `"p/t/1/2/x/"` yields payload `"x"` |
| IDPattern.TooFewFieldsExample | src/main/java/asia/buildtheearth/asean/discord/components/IDPattern.java:69 | `"a/b/c"` does not match |
| IDPattern.SpaceInPluginExample | src/main/java/asia/buildtheearth/asean/discord/components/IDPattern.java:50 | `"a b/t/1/2"` does not match: a space cannot be part of the plugin group |
| IDPattern.WordAndSlashNeedsSlash | src/main/java/asia/buildtheearth/asean/discord/components/IDPattern.java:50 | a `\w+` group followed by a character that is neither a word character nor `/` is not a group of the pattern |
| IDPattern.NonWordInPluginRejected | src/main/java/asia/buildtheearth/asean/discord/components/IDPattern.java:50 | for every word, a character after it that is neither a word character nor `/` makes the id not match |
| IDPattern.NonWordInTypeRejected | src/main/java/asia/buildtheearth/asean/discord/components/IDPattern.java:50 | the same for the type group, after any word plugin and `/` (so `-` in the type is rejected) |
| JavaLang.ParseUnsignedOfUnsignedString | src/main/java/asia/buildtheearth/asean/discord/components/PluginComponent.java:133-135 | `Long.parseUnsignedLong(Long.toUnsignedString(x))` is x read as unsigned (x + 2^64 for negative x) |
| JavaLang.ParseIntOfSignedString | src/main/java/asia/buildtheearth/asean/discord/components/PluginComponent.java:152-155 | `Integer.valueOf` of an int's decimal text gives back the int |
| JavaLang.UnsignedString | src/main/java/asia/buildtheearth/asean/discord/providers/ComponentProvider.java:59-60 | `Long.toUnsignedString` yields 1 to 20 decimal digits |
| JavaLang.ParseUnsignedLong | src/main/java/asia/buildtheearth/asean/discord/components/PluginComponent.java:134 | `Long.parseUnsignedLong` yields a value below 2^64, or `NumberFormatException` |
| JavaLang.DigitsValueOfDecimal | src/main/java/asia/buildtheearth/asean/discord/providers/ComponentProvider.java:59 | reading back the decimal rendering of n gives n |
| JavaLang.DecimalOfUnsignedLongLength | src/main/java/asia/buildtheearth/asean/discord/providers/ComponentProvider.java:59-60 | a 64-bit unsigned value has at most 20 decimal digits |
| JavaLang.SignedString | src/main/java/asia/buildtheearth/asean/discord/providers/ComponentProvider.java:87-88 | `Integer.toString`: an optional `-` and decimal digits (inverse: ParseIntOfSignedString) |
| JavaLang.ParseInt | src/main/java/asia/buildtheearth/asean/discord/components/PluginComponent.java:152-155 | `Integer.valueOf`: an optional sign and at least one digit, with a value in the 32-bit range; anything else is NumberFormatException; plain digits give their value |
| ComponentProvider.NewComponentID | src/main/java/asia/buildtheearth/asean/discord/providers/ComponentProvider.java:53-67 | a null id or user is IllegalArgumentException. Otherwise the result is `name/type/unsigned(id)/unsigned(user)`, accepted up to 100 characters (exactly 100 included) and IllegalArgumentException beyond. |
| ComponentProvider.NewComponentIDWithPayload | src/main/java/asia/buildtheearth/asean/discord/providers/ComponentProvider.java:80-108 | the null id/user check comes first, then the null payload check (IllegalArgumentException). The payload text is the fifth `/`-segment: a Long renders unsigned, anything else by `toString`. Then the 100-character limit applies. |
| ComponentProvider.PayloadValue | src/main/java/asia/buildtheearth/asean/discord/providers/ComponentProvider.java:83-91 | the payload text: a Long as unsigned decimal, an Integer by `toString`, any other object by its `toString()` (which may be null); null without a payload (its text: NumberPayloadIsPlain) |
| ComponentProvider.JoinIsRender | src/main/java/asia/buildtheearth/asean/discord/providers/ComponentProvider.java:96-102 | `String.join("/", …)` of the fields is the grammar's rendering of those fields |
| ComponentProvider.ParseNewComponentID | src/main/java/asia/buildtheearth/asean/discord/providers/ComponentProvider.java:56-61 | round trip: with word plugin and type, parsing the minted id gives the plugin, type, unsigned id and user, and no payload |
| ComponentProvider.ParseNewComponentIDWithPayload | src/main/java/asia/buildtheearth/asean/discord/providers/ComponentProvider.java:96-102 | round trip with a payload that has no line terminator and no final `/`: the payload comes back verbatim, inner `/` included |
| ComponentProvider.NumberPayloadIsPlain | src/main/java/asia/buildtheearth/asean/discord/providers/ComponentProvider.java:85-88 | a Long or Integer payload renders as text with no line terminator and no final `/`, so it always round-trips |
| ComponentProvider.DigitsAreWord | src/main/java/asia/buildtheearth/asean/discord/providers/ComponentProvider.java:59-60 | unsigned decimal renderings are `\w+` words, so the id and user fields always match their groups |
| ComponentProvider.ConfirmExample | src/main/java/asia/buildtheearth/asean/discord/providers/ComponentProvider.java:56-61 | `mc_plugin`/`confirm`/123/456 mints `"mc_plugin/confirm/123/456"` |
| ComponentProvider.ConfirmPayloadExample | src/main/java/asia/buildtheearth/asean/discord/providers/ComponentProvider.java:56-61 | the same with Integer payload 7 mints `"mc_plugin/confirm/123/456/7"` |
| PluginComponent.New | src/main/java/asia/buildtheearth/asean/discord/components/PluginComponent.java:47-64 | construction succeeds exactly when the id parses, names this plugin and has snowflake id and user. Failures: a null component, an unparseable id, a foreign plugin and a non-snowflake field are IllegalArgumentException; a missing `custom_id` is NullPointerException. |
| PluginComponent.GetOpt | src/main/java/asia/buildtheearth/asean/discord/components/PluginComponent.java:96-117 | empty exactly when construction throws IllegalArgumentException, otherwise the constructed, valid component. The NullPointerException of a missing `custom_id` passes through. |
| PluginComponent.IsSnowflake | src/main/java/asia/buildtheearth/asean/discord/components/PluginComponent.java:62-63 | the snowflake check, taken as 1 to 20 ASCII decimal digits (see "## Left out") |
| PluginComponent.IsOwnedBy | src/main/java/asia/buildtheearth/asean/discord/components/PluginComponent.java:52-63 | the id parses, its PLUGIN group is the plugin's name, and its ID and USER groups pass the snowflake check: exactly the ids New accepts |
| PluginComponent.PluginComponent.Get | src/main/java/asia/buildtheearth/asean/discord/components/PluginComponent.java:71-73 | the wrapped component, whose `custom_id` is the raw id |
| PluginComponent.PluginComponent.GetRawID | src/main/java/asia/buildtheearth/asean/discord/components/PluginComponent.java:189-191 | the component's `custom_id`, unchanged |
| PluginComponent.PluginComponent.GetID | src/main/java/asia/buildtheearth/asean/discord/components/PluginComponent.java:124-126 | the parsed ID group of the raw id, which is a snowflake |
| PluginComponent.PluginComponent.GetIDLong | src/main/java/asia/buildtheearth/asean/discord/components/PluginComponent.java:133-135 | the unsigned value of the ID digits when below 2^64, else NumberFormatException |
| PluginComponent.PluginComponent.GetPayload | src/main/java/asia/buildtheearth/asean/discord/components/PluginComponent.java:142-144 | the parsed payload group (absent when the group did not take part), free of line terminators |
| PluginComponent.PluginComponent.GetIntPayload | src/main/java/asia/buildtheearth/asean/discord/components/PluginComponent.java:152-155 | null exactly when there is no payload. Otherwise `Integer.valueOf(payload)`; text that is not a 32-bit signed integer is NumberFormatException. |
| PluginComponent.PluginComponent.GetType | src/main/java/asia/buildtheearth/asean/discord/components/PluginComponent.java:162-164 | the parsed TYPE group, a word |
| PluginComponent.PluginComponent.GetUserID | src/main/java/asia/buildtheearth/asean/discord/components/PluginComponent.java:171-173 | the parsed USER group, a snowflake |
| PluginComponent.PluginComponent.GetUserIDLong | src/main/java/asia/buildtheearth/asean/discord/components/PluginComponent.java:180-182 | the unsigned value of the USER digits when below 2^64, else NumberFormatException |
| PluginComponent.ValidateMintedID | src/main/java/asia/buildtheearth/asean/discord/components/PluginComponent.java:124-191 | an id minted by `newComponentID` for this plugin validates. Its accessors return the type, the unsigned id and user (as text and as numbers), and no payload. |
| PluginComponent.ValidateMintedIDWithPayload | src/main/java/asia/buildtheearth/asean/discord/components/PluginComponent.java:142-144 | a minted id with a plain payload validates, and `getPayload()` returns the payload text |
| PluginComponent.IntegerPayloadRoundTrip | src/main/java/asia/buildtheearth/asean/discord/components/PluginComponent.java:152-155 | an Integer payload comes back from `getIntPayload()` as the same int |
| PluginComponent.LongPayloadRoundTrip | src/main/java/asia/buildtheearth/asean/discord/components/PluginComponent.java:142-144 | a Long payload comes back, read as unsigned, as the same 64 bits |
| PluginComponent.ForeignPluginRejected | src/main/java/asia/buildtheearth/asean/discord/components/PluginComponent.java:59-60 | an id minted for another plugin is refused with IllegalArgumentException, and `getOpt` gives empty |
| PluginComponent.OversizedIdValidates | src/main/java/asia/buildtheearth/asean/discord/components/PluginComponent.java:62-63 | an id field of up to 20 digits whose value is 2^64 or more passes construction, and then `getIDLong()` throws NumberFormatException |
| PluginComponent.OversizedSnowflakeExample | src/main/java/asia/buildtheearth/asean/discord/components/PluginComponent.java:133-135 | the raw id `p/t/99999999999999999999/1` validates, `getIDLong()` throws NumberFormatException and `getUserIDLong()` is 1 |
| DiscordCommandProvider.AfterPut | src/main/java/asia/buildtheearth/asean/discord/providers/DiscordCommandProvider.java:213-221 | a put stores the payload under the id, keeps every other entry, and schedules one timer carrying the id and the payload's class |
| DiscordCommandProvider.AfterRemove | src/main/java/asia/buildtheearth/asean/discord/providers/DiscordCommandProvider.java:197-199 | the id is gone, other entries are unchanged, and scheduled timers stay scheduled |
| DiscordCommandProvider.AfterClear | src/main/java/asia/buildtheearth/asean/discord/providers/DiscordCommandProvider.java:189-191 | the map is empty and the hook log is unchanged (clearing calls no hook) |
| DiscordCommandProvider.AfterExpiry | src/main/java/asia/buildtheearth/asean/discord/providers/DiscordCommandProvider.java:217-220 | the timer is consumed and the id is removed. The hook is called with the captured class exactly when an entry was present. |
| DiscordCommandProvider.Apply | src/main/java/asia/buildtheearth/asean/discord/providers/DiscordCommandProvider.java:189-220 | one operation on the registry: a put, a removal, a clear, or the run of a pending expiry task (a task that is not pending does not run) |
| DiscordCommandProvider.Run | src/main/java/asia/buildtheearth/asean/discord/providers/DiscordCommandProvider.java:189-220 | a sequence of such operations applied first to last; the trace lemmas below are about every such run |
| DiscordCommandProvider.LogOnlyGrows | src/main/java/asia/buildtheearth/asean/discord/providers/DiscordCommandProvider.java:217-220 | over any run of puts, removes, clears and expiries, the log of hook calls only grows |
| DiscordCommandProvider.HooksPaidByTimers | src/main/java/asia/buildtheearth/asean/discord/providers/DiscordCommandProvider.java:217-220 | each timer fires at most once: over any run, hook calls plus still-pending timers never exceed the timers pending before plus the puts |
| DiscordCommandProvider.NoHookWithoutEntry | src/main/java/asia/buildtheearth/asean/discord/providers/DiscordCommandProvider.java:218-219 | if id has no entry and the run never puts id, no step calls the hook for id |
| DiscordCommandProvider.ConsumeBeforeExpiry | src/main/java/asia/buildtheearth/asean/discord/providers/DiscordCommandProvider.java:197-199 | after `removeInteraction(id)`, no later expiry calls the hook for id unless id is put again |
| DiscordCommandProvider.ClearSilencesTimers | src/main/java/asia/buildtheearth/asean/discord/providers/DiscordCommandProvider.java:189-191 | after `clearInteractions()`, no pending timer calls the hook until the next put |
| DiscordCommandProvider.OverwriteThenExpiry | src/main/java/asia/buildtheearth/asean/discord/providers/DiscordCommandProvider.java:214-220 | overwriting an id keeps both timers. The first one evicts the newer value and reports the old payload's class; the second then finds nothing and calls no hook. |
| DiscordCommandProvider.RegisterAll | src/main/java/asia/buildtheearth/asean/discord/providers/DiscordCommandProvider.java:77-83 | registering keeps every class mapped to a command of that class |
| DiscordCommandProvider.RegisterLastOneWins | src/main/java/asia/buildtheearth/asean/discord/providers/DiscordCommandProvider.java:81 | a class maps to the last command of that class in the arguments |
| DiscordCommandProvider.RegisterKeepsOthers | src/main/java/asia/buildtheearth/asean/discord/providers/DiscordCommandProvider.java:81 | a class with no command in the arguments keeps its earlier registration, or stays unregistered |
| DiscordCommandProvider.SlashEntries | src/main/java/asia/buildtheearth/asean/discord/providers/DiscordCommandProvider.java:78-80 | one `PluginSlashCommand` per command, in order, with this plugin and the guild |
| DiscordCommandProvider.CommandProvider.GetPayload | src/main/java/asia/buildtheearth/asean/discord/providers/DiscordCommandProvider.java:205-207 | the stored payload exactly when the id has an entry, else null |
| DiscordCommandProvider.CommandProvider.GetAs | src/main/java/asia/buildtheearth/asean/discord/providers/DiscordCommandProvider.java:166-173 | null exactly when the id is absent, and the payload exactly when it is an instance of the requested class. Otherwise ClassCastException, with no coercion. |
| DiscordCommandProvider.CommandProvider.PutPayload | src/main/java/asia/buildtheearth/asean/discord/providers/DiscordCommandProvider.java:213-221 | the new registry is `AfterPut` of the old one, and `getAs` with the payload's own class returns it. Commands are untouched. |
| DiscordCommandProvider.CommandProvider.RunExpiry | src/main/java/asia/buildtheearth/asean/discord/providers/DiscordCommandProvider.java:217-220 | the new registry is `AfterExpiry` of the old one, and the id has no entry afterwards |
| DiscordCommandProvider.CommandProvider.RemoveInteraction | src/main/java/asia/buildtheearth/asean/discord/providers/DiscordCommandProvider.java:197-199 | the new registry is `AfterRemove` of the old one, and `getPayload(id)` is null |
| DiscordCommandProvider.CommandProvider.ClearInteractions | src/main/java/asia/buildtheearth/asean/discord/providers/DiscordCommandProvider.java:189-191 | the new registry is `AfterClear` of the old one |
| DiscordCommandProvider.CommandProvider.Register | src/main/java/asia/buildtheearth/asean/discord/providers/DiscordCommandProvider.java:77-83 | the loop leaves the class map equal to `RegisterAll` of the old map and the commands. The command set grows by exactly the commands' `PluginSlashCommand`s, and the registry is untouched. |
| DiscordCommandProvider.CommandProvider.RegisterLoop | src/main/java/asia/buildtheearth/asean/discord/providers/DiscordCommandProvider.java:78-82 | over the class map and command set as values: after the loop the map is `RegisterAll` of the commands and the set has gained exactly one `PluginSlashCommand` per command |
| DiscordCommandProvider.RegisterAllExtend | src/main/java/asia/buildtheearth/asean/discord/providers/DiscordCommandProvider.java:78-82 | one more command adds exactly its class mapping to what the commands before it registered |
| DiscordCommandProvider.CommandProvider.ClearCommands | src/main/java/asia/buildtheearth/asean/discord/providers/DiscordCommandProvider.java:89-92 | both command collections become empty, and the registry is untouched |
| DiscordCommandProvider.CommandProvider.FromClass | src/main/java/asia/buildtheearth/asean/discord/providers/DiscordCommandProvider.java:97-104 | the registered command of that class, or IllegalStateException when none is registered. The cast never fails while every class maps to its own command. |
| DiscordCommandProvider.CommandProvider.OnSlashCommand | src/main/java/asia/buildtheearth/asean/discord/providers/DiscordCommandProvider.java:133-148 | an unknown channel that the hook cancels changes nothing. Otherwise a non-null payload is stored under the event id before `fromClass` runs (so it stays stored when `fromClass` throws). The resolved command is triggered with that payload. |
| MessageFlags.SetFlag | src/main/java/asia/buildtheearth/asean/discord/components/WebhookDataBuilder.java:153-157 | a flag setter leaves the nullable `flags` field set: the bit alone when it was null, else the old bits with the bit or-ed in |
| MessageFlags.SetFlagSetsBit | src/main/java/asia/buildtheearth/asean/discord/components/WebhookDataBuilder.java:155 | after a flag setter the field has the bit |
| MessageFlags.SetFlagKeepsOtherBits | src/main/java/asia/buildtheearth/asean/discord/components/WebhookDataBuilder.java:155 | a flag setter keeps every other bit the field held (none when it was null) |
| MessageFlags.SetFlagIdempotent | src/main/java/asia/buildtheearth/asean/discord/components/WebhookDataBuilder.java:153-157 | setting a bit twice equals setting it once, from a null or a set field, so calling `suppressNotifications()` twice equals calling it once |
| MessageFlags.SetFlagCommutes | src/main/java/asia/buildtheearth/asean/discord/components/WebhookDataBuilder.java:153-170 | the two flag setters give the same field in either order, from a null or a set field |
| MessageFlags.BothFlagsExample | src/main/java/asia/buildtheearth/asean/discord/components/WebhookDataBuilder.java:165-170 | both setters on a fresh builder, in either order, give 0x9000 = 36864 |
| WebhookDataBuilder.KeyNamesDistinct | src/main/java/asia/buildtheearth/asean/discord/components/WebhookDataBuilder.java:193-258 | the nine JSON keys have distinct names |
| WebhookDataBuilder.Compact | src/main/java/asia/buildtheearth/asean/discord/components/WebhookDataBuilder.java:215-219 | the embeds array holds exactly the non-null embeds, and is never longer than the list |
| WebhookDataBuilder.CompactAppend | src/main/java/asia/buildtheearth/asean/discord/components/WebhookDataBuilder.java:215-219 | null embeds are skipped piece by piece, so the order of the rest is kept |
| WebhookDataBuilder.CompactOfPresent | src/main/java/asia/buildtheearth/asean/discord/components/WebhookDataBuilder.java:215-219 | without null embeds, every embed is sent, in order |
| WebhookDataBuilder.ComponentsArray | src/main/java/asia/buildtheearth/asean/discord/components/WebhookDataBuilder.java:225-238 | the components array is the V2 list when forced and set, else the action rows when set, else empty |
| WebhookDataBuilder.BuildData | src/main/java/asia/buildtheearth/asean/discord/components/WebhookDataBuilder.java:245-261 | `allowed_mentions` is always present: `{"parse": []}` after `suppressMentions()`, else the inherited settings. `attachments` is never written by `build()`. |
| WebhookDataBuilder.BodyFields | src/main/java/asia/buildtheearth/asean/discord/components/WebhookDataBuilder.java:212-259 | the puts of `build()` after the header keys: `embeds`, `components`, `flags` when set, and always `allowed_mentions` (what they hold: BuildDataBody, BuildDataFlags, BodyFieldsKeep) |
| WebhookDataBuilder.HeaderFields | src/main/java/asia/buildtheearth/asean/discord/components/WebhookDataBuilder.java:193-210 | `thread_name`, `username` and `avatar_url` appear exactly when set, with their values. `content` appears exactly when not blank. No other key is written. |
| WebhookDataBuilder.BodyFieldsKeep | src/main/java/asia/buildtheearth/asean/discord/components/WebhookDataBuilder.java:212-259 | the later puts of `build()` write only `embeds`, `components`, `flags` and `allowed_mentions`; every other key keeps its presence and value |
| WebhookDataBuilder.BuildDataHeaders | src/main/java/asia/buildtheearth/asean/discord/components/WebhookDataBuilder.java:188-210 | in the built object, each of `thread_name`, `username`, `avatar_url` and `content` is present exactly when HeaderFields has it, with the same value |
| WebhookDataBuilder.BuildDataBody | src/main/java/asia/buildtheearth/asean/discord/components/WebhookDataBuilder.java:213-238 | `embeds` appears exactly when embeds are set and components V2 is not forced, holding the non-null embeds. `components` appears exactly when either component list is set. |
| WebhookDataBuilder.BuildDataFlags | src/main/java/asia/buildtheearth/asean/discord/components/WebhookDataBuilder.java:241-243 | `flags` appears exactly when a flag setter was called, with the accumulated bits |
| WebhookDataBuilder.FreshBuild | src/main/java/asia/buildtheearth/asean/discord/components/WebhookDataBuilder.java:62-64 | a fresh builder builds an object holding only `allowed_mentions` |
| WebhookDataBuilder.ForcedComponentV2Build | src/main/java/asia/buildtheearth/asean/discord/components/WebhookDataBuilder.java:213-231 | forcing components V2 drops `embeds` and sends the V2 list in place of the action rows |
| WebhookDataBuilder.HelloExample | src/main/java/asia/buildtheearth/asean/discord/components/WebhookDataBuilder.java:188-262 | content "Hello, Discord!" with suppressed notifications builds exactly `content`, `flags` = 4096 and `allowed_mentions` |
| WebhookDataBuilder.BlankContentExample | src/main/java/asia/buildtheearth/asean/discord/components/WebhookDataBuilder.java:208-210 | whitespace-only or empty content is left out |
| WebhookDataBuilder.IsWhitespace | src/main/java/asia/buildtheearth/asean/discord/components/WebhookDataBuilder.java:208 | `Character.isWhitespace`: the ASCII and Unicode space separators except the no-break spaces, plus tab, line feeds and the information separators |
| WebhookDataBuilder.IsNotBlank | src/main/java/asia/buildtheearth/asean/discord/components/WebhookDataBuilder.java:208 | `StringUtils.isNotBlank`: not null and some character is not whitespace |
| WebhookDataBuilder.Builder.constructor | src/main/java/asia/buildtheearth/asean/discord/components/WebhookDataBuilder.java:44-64 | a new builder has every field null or false |
| WebhookDataBuilder.Builder.SetWebhookAvatarUrl | src/main/java/asia/buildtheearth/asean/discord/components/WebhookDataBuilder.java:74-77 | only the avatar url changes; by HeaderFields and BuildDataHeaders, `avatar_url` then appears exactly when it is non-null |
| WebhookDataBuilder.Builder.SetThreadName | src/main/java/asia/buildtheearth/asean/discord/components/WebhookDataBuilder.java:84-87 | only the thread name changes (its key: BuildDataHeaders) |
| WebhookDataBuilder.Builder.SetUsername | src/main/java/asia/buildtheearth/asean/discord/components/WebhookDataBuilder.java:94-97 | only the username changes (its key: BuildDataHeaders) |
| WebhookDataBuilder.Builder.SetContent | src/main/java/asia/buildtheearth/asean/discord/components/WebhookDataBuilder.java:106-109 | only the content changes (its key: BuildDataHeaders) |
| WebhookDataBuilder.Builder.SetEmbeds | src/main/java/asia/buildtheearth/asean/discord/components/WebhookDataBuilder.java:118-121 | only the embeds change (their key: BuildDataBody) |
| WebhookDataBuilder.Builder.SetComponents | src/main/java/asia/buildtheearth/asean/discord/components/WebhookDataBuilder.java:130-133 | only the action rows change (their key: BuildDataBody) |
| WebhookDataBuilder.Builder.SetComponentsV2 | src/main/java/asia/buildtheearth/asean/discord/components/WebhookDataBuilder.java:142-145 | only the V2 components change (their key: BuildDataBody) |
| WebhookDataBuilder.Builder.SuppressNotifications | src/main/java/asia/buildtheearth/asean/discord/components/WebhookDataBuilder.java:153-158 | only the flags change, to `SetFlag` of the old field with bit 12 (kept bits: SetFlagKeepsOtherBits; twice is once: SetFlagIdempotent) |
| WebhookDataBuilder.Builder.ForceComponentV2 | src/main/java/asia/buildtheearth/asean/discord/components/WebhookDataBuilder.java:165-171 | only the force flag (now true) and the flags change, the flags to `SetFlag` of the old field with bit 15 (order with `suppressNotifications`: SetFlagCommutes) |
| WebhookDataBuilder.Builder.SuppressMentions | src/main/java/asia/buildtheearth/asean/discord/components/WebhookDataBuilder.java:178-181 | only the suppress-mentions flag changes, to true |
| WebhookDataBuilder.Builder.Build | src/main/java/asia/buildtheearth/asean/discord/components/WebhookDataBuilder.java:188-262 | a new `WebhookData` whose object is `BuildData` of the builder's state, and which has no attachments |
| WebhookDataBuilder.WebhookData.AddFile | src/main/java/asia/buildtheearth/asean/discord/components/WebhookDataBuilder.java:296-302 | a directory is IllegalArgumentException, checked first; a missing file is IllegalArgumentException; in both cases nothing changes. Otherwise the file is appended to the attachments, in call order. |
| WebhookDataBuilder.WebhookData.PutAllAttachments | src/main/java/asia/buildtheearth/asean/discord/components/WebhookDataBuilder.java:374-393 | without attachments: null, and nothing is written. Otherwise `attachments` gets one `{"id": i, "filename": name}` per file, numbered 0..n-1 in order; the names are returned in the same order and no other key changes. |

## Left out

- `WebhookData.prepareRequestBody` and `tryAttachFiles` (`components/WebhookDataBuilder.java:313-368`): file streams, MIME probing and the multipart request are I/O.
- Real scheduling and threading. The 18000-tick delay of `putPayload` (`SchedulerUtil.runTaskLaterAsynchronously`) is modelled as an expiry step that may fire at any time. The model assumes that each operation, and each run of an expiry task, happens atomically. The source's maps are plain `HashMap`s shared with the scheduler's asynchronous thread, which gives no such guarantee; that data race is not modelled.
- Calls into DiscordSRV and JDA: `deferReply`, `getHook`, `trigger`, the resolver function and the `PluginSlashCommand` constructor. `isUnknownChannel` and `ifUnknownChannel` enter `OnSlashCommand` as the event's `unknownChannel` flag and the `cancelOnUnknown` parameter. The payload supplier enters as its result.
- `MessageEmbed.toData`, `ActionRow.toData`, `DataObject.toData` and `AllowedMentionsImpl.toData` are opaque values, and the `AllowedMentionsImpl` settings the builder inherits are not modelled.
- `PluginComponent.IsSnowflake`: JDA's `Checks.isSnowflake` is not part of this model. It is taken as "1 to 20 ASCII decimal digits", so `GetIDLong` and `GetUserIDLong` keep an error result for 20-digit values of 2^64 and above.
- `JavaLang.ParseInt` and `JavaLang.ParseUnsignedLong`: accept ASCII digits only. Java also accepts other Unicode decimal digits; a payload with such digits is not modelled.
- `ComponentProvider.NewComponentID`: lengths are counted in characters (Dafny `char`), not UTF-16 code units; they differ for characters outside the Basic Multilingual Plane.
- `ComponentProvider.NewComponentID`: the `type` argument is taken as non-null (Java would render a null type as "null").
- `ComponentProvider.NewComponentIDWithPayload`: a payload is a `Long`, an `Integer`, or any other object given by the text its `toString()` returns; the `toString()` of other `Number` classes (`Double`, `BigInteger`, ...) is that text and is not computed here.
- `WebhookDataBuilder.BuildData`: a null element inside the action-row or V2 collections (a NullPointerException in Java) is not modelled; the lists hold values only.
- `WebhookDataBuilder.Builder.SetEmbeds`, `WebhookDataBuilder.Builder.SetComponents` and `WebhookDataBuilder.Builder.SetComponentsV2`: Java keeps the caller's collection by reference and `build()` reads it only when it runs, so a change to the collection after the setter shows in the built object. The model copies the list when the setter runs.
- `DiscordCommandProvider.CommandProvider.Register`: a null commands array, and null event ids in the registry operations, are not modelled.
- `DiscordCommandProvider.CommandProvider.PutPayload`: a null payload is not modelled (payloads are values). In Java, `putPayload(id, null)` stores a null mapping; its expiry task then removes whatever is stored under the id and throws NullPointerException at `payload.getClass()` instead of calling the hook when it removed a real entry, and an earlier task that finds the null mapping calls no hook. `onSlashCommand` never stores a null payload.
- `getSlashCommands` is a plain getter of the command set, which is the `commandSet` field itself.
- The set of `PluginSlashCommand`s is a multiset: each `register` call creates new objects, whose equality is DiscordSRV's and not part of this model.
- `DiscordCommandProvider.CommandProvider.FromClass` follows the code (IllegalStateException), not the interface documentation at `commands/interactions/InteractionEvent.java:59`, which says IllegalArgumentException.
- `onInteractionTimeout`: its default does nothing, so only its calls are recorded (the ghost log).
- The value under `flags` is the 32-bit Java `Integer` (`Int32`); its JSON rendering as a decimal number is not modelled.
- `WebhookDataBuilder.Key.Name` gives the JSON key names. The built object is a map over `Key` values, which KeyNamesDistinct shows is the same as a map over the names.
- `DiscordSRVBridge`, `MessageListenerButton`, the button-handler interfaces, `SlashCommand`, `InteractionEvent` and the ComponentV2 family (`ComponentV2`, `Container`, `MediaGallery`, `Section`, `TextDisplay`, `Separator`, `Thumbnail`, `File`, `TextThumbnailSection`, `TextButtonSection`): glue over the platform APIs, or constructors of constant tags; not part of this model.
