# futaba journal sinks and alias tracking, in Dafny

This project models three parts of the futaba moderation bot. Each part turns
moderation events into outgoing messages:

- **The channel sink and its icon registry** (`futaba/journal/impl/channel_output.py`).
  `ICONS` maps 61 icon names to one-character glyphs. `ChannelOutputListener`
  accepts an event only when its channel belongs to the event's guild. It
  sends the event's text, with the icon's glyph and a space in front when the
  event has an icon.
- **The direct-message sink** (`futaba/journal/impl/direct_message.py`).
  `DirectMessageListener.handle` labels the text with `[guild name] ` when
  there is a guild. It then
  builds the keyword arguments of the send: `content`, plus `embed`, `file`
  and `files` when the event carries them, with every file passed through the
  attachment-copying utility.
- **Alias tracking** (`futaba/cogs/info/alias.py`).
  - `MemberChanges` and its truthiness.
  - The comparison of two snapshots of a member in `member_update`, what it
    downloads, what it writes to the alias store, and the summary it publishes.
  - The avatar-extension regex.
  - The alias listing's removal of the member from their own alt chain, and
    the avatars it attaches.
  - The events that the two alt-account commands publish.

Discord objects are plain records here. A guild is a name and a set of
channel ids. A member is an id, a name, an optional nickname, an optional
avatar hash, an avatar address and a guild. Event attributes are a
`map<string, AttrValue>` over a tagged union (`Nil` for Python's None, a
string, an opaque object of a named class, a list). A send does not happen
in the model. Instead, each sink returns the one message it would send, or
the exception raised before sending.

Three collaborators are not part of this model and are function parameters:

- `copy_discord_file` (`copy`)
- `user_discrim` (`discrim`)
- `fancy_timedelta` (`since`)

Files, in the order of the source:

- `journal.dfy`: the shared values (guild, attribute values, Python's exceptions).
- `icons.dfy`: `ICONS`. It is written as the entries of the dictionary literal,
  in source order, one sequence per comment heading. `DictOf` gives the literal
  Python's semantics (a later duplicate key would win). Lemmas show that no key
  is written twice, so all 61 entries survive.
- `channel_output.dfy`: `ChannelOutputListener.filter` and `handle` (pure).
- `direct_message.dfy`: `DirectMessageListener.handle` as a method that builds
  the keyword map step by step.
- `alias.dfy`: the regex, `MemberChanges` (a class whose fields are set one by
  one), `member_update` (a method proved equal to the function
  `UpdateOutcome`), the lemmas about `UpdateOutcome`, and the listing's
  `Aliases` method.
- `alias_delivery.dfy`: what the channel sink does with the alias tracker's
  events.

Behaviour of the code that the model makes explicit:

- `alts add` publishes its event with the icon `item_add` (alias.py:235), and
  `alts delchain` with `item_clear` (alias.py:258). Neither is a key of
  `ICONS`; `Icons.ItemIconsMissing` proves this. The `AliasDelivery` lemmas
  show that the channel sink raises `KeyError` on these events and sends
  nothing. The model keeps the table as written.
- An icon that is not a key of `ICONS` raises `KeyError`, and a list icon
  raises `TypeError`, because a list cannot be hashed.
- `filter` reads `guild.channels`, so an event with no guild raises
  `AttributeError` in `filter`; it is not a plain rejection.
- The extension regex is `re.match(r'\.([a-z]+)\?.+$', url)`. It is anchored at
  the start. `.` does not match a newline. `$` also matches just before a
  final newline. So `.png?v=1\n` matches with `png`, and `.png?\n` does not
  match. `ExtensionRegexMatches` states exactly this. Because the match is
  anchored, an avatar address that starts with `h` (such as `https://…`) never
  matches: such an avatar change ends in `ValueError` right after the download,
  with no store write and no event (`Alias.AnchoredAvatarAddressFails`).

## Model

| member | source | states |
|---|---|---|
| `Icons.IconNamesDistinct` | futaba/journal/impl/channel_output.py:28-109 | the literal writes 61 entries and no key twice |
| `Icons.IconsSize` | futaba/journal/impl/channel_output.py:28-109 | `ICONS` has 61 keys, so no written entry is shadowed |
| `Icons.IconGlyphsAreSingleCharacters` | futaba/journal/impl/channel_output.py:28-109 | every value of `ICONS` is a one-character string |
| `Icons.IconsInjective` | futaba/journal/impl/channel_output.py:28-109 | two different icon names never share a glyph |
| `Icons.PersonIconResolves` | futaba/journal/impl/channel_output.py:92 | `'person'` is a key, and its glyph is BUST IN SILHOUETTE (U+1F464) |
| `Icons.ItemIconsMissing` | futaba/journal/impl/channel_output.py:28-109 | neither `'item_add'` nor `'item_clear'` is a key of `ICONS` |
| `Icons.DictOf` | futaba/journal/impl/channel_output.py:28-109 | the dictionary a literal with these entries builds (`ICONS` is `DictOf(ICON_TABLE)`): no more keys than entries; `IconGlyphsAreSingleCharacters` states that every value of `ICONS` is one character; `DictOfKeys`, `DictOfLookup` and `DictOfSize` state its keys, lookups and size |
| `Icons.DictOfKeys` | futaba/journal/impl/channel_output.py:28-109 | a name is a key of the dictionary literal iff some entry carries it |
| `Icons.DictOfLookup` | futaba/journal/impl/channel_output.py:28-109 | with distinct names, each entry's name maps to its own glyph |
| `Icons.DictOfSize` | futaba/journal/impl/channel_output.py:28-109 | with distinct names, the dictionary has exactly one key per entry |
| `ChannelOutput.Render` | futaba/journal/impl/channel_output.py:134 | the sent text is the icon's one-character glyph, a space, then the content unchanged; `RenderIsInjective` shows it determines both |
| `ChannelOutput.ChannelOutputListener.Filter` | futaba/journal/impl/channel_output.py:116-125 | accepts iff the configured channel is one of the guild's channels; a missing guild raises AttributeError |
| `ChannelOutput.FilterSeparatesGuilds` | futaba/journal/impl/channel_output.py:121-125 | a listener never accepts events of two guilds that share no channel |
| `ChannelOutput.ChannelOutputListener.Handle` | futaba/journal/impl/channel_output.py:127-137 | icon absent or None: content sent unchanged; icon a key: glyph + space + content sent; any other icon: KeyError (TypeError for a list), no message; a sent message always goes to the configured channel |
| `ChannelOutput.RenderIsInjective` | futaba/journal/impl/channel_output.py:132-134 | the rendered text determines both the icon and the content |
| `ChannelOutput.ContentIsSentVerbatim` | futaba/journal/impl/channel_output.py:132-137 | the content is the tail of the sent text, and at most two characters precede it |
| `DirectMessage.Labelled` | futaba/journal/impl/direct_message.py:37-38 | without a guild the content is unchanged; with one it gains `[` + name + `] ` (3 characters more than the name) and ends with the content; `LabelIsRemovable` recovers the parts |
| `DirectMessage.DirectMessageListener.Handle` | futaba/journal/impl/direct_message.py:32-49 | one message to the configured user. Content is `[name] ` + content when there is a guild, else unchanged. embed and file are in the payload iff their key is in the attributes, whatever the value (None included); files is in it iff its key is present and its value is iterable. embed is forwarded unchanged; file is `copy` of the attribute; files is the copies of the iterated items, in order and of equal length. No other key is in the payload. A non-iterable `files` raises TypeError and nothing is sent |
| `DirectMessage.Elements` | futaba/journal/impl/direct_message.py:47 | what iterating an attribute yields: a list its items, a string its one-character strings, None or an object nothing (not iterable) |
| `DirectMessage.CopyAll` | futaba/journal/impl/direct_message.py:47 | `list(map(copy, items))` has the same length and order as `items`, element i being the copy of item i |
| `DirectMessage.LabelIsRemovable` | futaba/journal/impl/direct_message.py:37-38 | the label is exactly `[` + name + `] ` and the original content follows it unchanged |
| `Alias.LowerRunEnd` | futaba/cogs/info/alias.py:39 | the greedy `[a-z]+` run: every character before the end is a lower-case letter and the one at the end is not |
| `Alias.LineEnd` | futaba/cogs/info/alias.py:39 | the greedy `.+` run: no newline before the end, and the end is a newline or the end of the string |
| `Alias.MatchExtension` | futaba/cogs/info/alias.py:100-103 | a found extension (group 1 of the regex at alias.py line 39) is non-empty lower-case letters, and the address starts with `.` + extension + `?` and has more after it; `MatchExtensionIsRegexMatch` and `MatchExtensionIsUnique` tie it to the regex |
| `Alias.MatchExtensionIsRegexMatch` | futaba/cogs/info/alias.py:100-103 | extraction gives `ext` iff the regex matches from the start of the address with group 1 equal to `ext` |
| `Alias.MatchExtensionIsUnique` | futaba/cogs/info/alias.py:100-103 | extraction fails iff no extension makes the regex match (the ValueError case); when it succeeds its group is the only one that matches |
| `Alias.MemberChanges.constructor` | futaba/cogs/info/alias.py:48-51 | a fresh `MemberChanges` has all three fields None |
| `Alias.MemberChanges.IsTruthy` | futaba/cogs/info/alias.py:53-57 | the scan over the slots is true iff at least one field is not None |
| `Alias.Diff` | futaba/cogs/info/alias.py:79-92 | some change is found iff the avatar hashes or the names differ, or the nicknames differ with a new one present; equal snapshots give no change; a recorded nickname is the new one; `StoreWritesFollowDiff` gives each field |
| `Alias.Join` | futaba/cogs/info/alias.py:105-117 | no parts give `""`; otherwise the length is the parts' total plus one separator between each two, the text starts with the first part and ends with the last |
| `Alias.UpdateOutcome` | futaba/cogs/info/alias.py:73-119 | the only exception is ValueError, after only the download of the new avatar; `NoChangeMeansNoEffect`, `StoresInOutcome`, `SummaryDescribesStores`, `UpdatePublishesOnce` state the rest |
| `Alias.MemberUpdate` | futaba/cogs/info/alias.py:73-119 | setting the fields one by one, testing truthiness, downloading and matching the avatar, writing the store and building the summary yields exactly `UpdateOutcome` |
| `Alias.NoChangeMeansNoEffect` | futaba/cogs/info/alias.py:95-96 | no download, store write or event happens iff none of the three comparisons found a change |
| `Alias.StoreWritesFollowDiff` | futaba/cogs/info/alias.py:79-92 | avatar written iff the avatar hashes differ (with the new address); name written iff the names differ (with the new name); nickname written iff the nicknames differ and the new one is not None |
| `Alias.StoresInOutcome` | futaba/cogs/info/alias.py:98-115 | the store writes of a successful update are exactly those of `Stores`, and the avatar carries the extension the regex extracted |
| `Alias.AnchoredAvatarAddressFails` | futaba/cogs/info/alias.py:98-102 | an avatar change whose new address starts with `h` (as `https://` does) fails with ValueError after only the download: no store write and no event |
| `Alias.NicknameRemovalIsNotRecorded` | futaba/cogs/info/alias.py:89-92 | removing a nickname writes no nickname, and when nothing else changed there is no effect at all |
| `Alias.SummaryDescribesStores` | futaba/cogs/info/alias.py:105-115 | the summary parts describe the store writes one to one, in avatar, name, nick order |
| `Alias.PublishIsLast` | futaba/cogs/info/alias.py:98-119 | a successful update with changes ends with exactly the `member/update` event, and no effect before it is an event |
| `Alias.UpdatePublishesOnce` | futaba/cogs/info/alias.py:98-119 | fails (ValueError, after only the download) iff the avatar changed and its address does not match. Otherwise a change ends with the one `member/update` event, on the member's guild, with icon `person`, and content `Member <user> was updated: ` + the `', '`-joined non-empty summary |
| `Alias.Aliases` | futaba/cogs/info/alias.py:142-192 | the member is removed from the alt ids (an absent id is no error). "No information" iff there are no avatars, usernames or nicknames and no alt id other than the member. Otherwise one attachment per past avatar, in order, named `avatar <since>.<ext>` |
| `Alias.AltAddEvent` | futaba/cogs/info/alias.py:234-235 | `alts add` publishes `alt/add` on the guild, with icon `item_add` and both members in `users`; `AltAddFailsInChannelSink` shows its fate in the channel sink |
| `Alias.AltClearEvent` | futaba/cogs/info/alias.py:257-258 | `alts delchain` publishes `alt/clear` on the guild, with icon `item_clear` and the member as `user`; `AltClearFailsInChannelSink` shows its fate in the channel sink |
| `AliasDelivery.MemberUpdateRendersPerson` | futaba/cogs/info/alias.py:117-119 | the channel sink sends a member update's summary behind U+1F464 and a space |
| `AliasDelivery.AltAddFailsInChannelSink` | futaba/cogs/info/alias.py:234-235 | the `alt/add` event's icon `item_add` makes the channel sink raise KeyError, for every channel and guild |
| `AliasDelivery.AltClearFailsInChannelSink` | futaba/cogs/info/alias.py:257-258 | the `alt/clear` event's icon `item_clear` makes the channel sink raise KeyError, for every channel and guild |

## Left out

- Router, the `Listener` base class, Broadcaster and topic-path matching: their code is not part of this model. So is what the base class does with the `recursive` and `filter` constructor arguments. The direct-message sink therefore has no filter of its own here.
- `async`/`await` and the concurrent fan-out: each `handle` is one sequential step that yields one outgoing message or one exception.
- The Discord transport and UI: `channel.send` and `user.send` are replaced by the returned message. Also left out: embed colours, descriptions and field texts, reactions, `find_user`, command and permission decorators, and `SendHelp`.
- Logging calls: they have no effect on the results.
- SQL transactions and the alias store: `member_update`'s three writes are recorded as effects, in order, but nothing is persisted. The store calls of `alts add` and `alts delchain` are left out, and so are their not-found replies. Only the events they publish are modelled (`AltAddEvent`, `AltClearEvent`). `get_aliases` is replaced by the `Aliases` parameters.
- `download_link`: a `Download` effect records which address is fetched; the downloaded bytes are not modelled, so `StoreAvatar` carries the address instead of the bytes.
- `copy_discord_file`, `user_discrim`, `fancy_timedelta`: their code is not part of this model, so each is a function parameter. A copy that raises, or copies that share a stream, cannot be expressed.
- `datetime.now()`: the timestamp passed to the store is not modelled.
- `Aliases`: the text of the listing (numbered avatar lines, past names and nicknames, alt mentions) is embed content and is left out. Only its decision, the alt ids and the attachments are modelled.
- Python object identity: attribute values that are objects are compared by class name only (`Object("Member")`). The channel sink reads only the `icon` attribute, and the direct-message sink passes `embed` on without looking inside it; `file` and `files` are only handed to `copy`.
