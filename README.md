# deployer-bot: submission flow and reaction roles, in Dafny

This project models the two decision-making parts of a small Discord
moderation bot:

- **The submission flow** (`submission.ts`). A message in a submission channel
  that mentions the suggestion or the bug role becomes a JSON record in a
  file store (`./data/<type>s/<message id>.json`). The record holds the
  message's jump link, its type, its author's tag and its text. The message
  then gets the reactions 🤖, 👍, 👎 and ❌, in that order. The record is removed
  when the message is deleted. It is also removed when the author or a
  moderator reacts with ❌ on a message that carries the 🤖 marker. A command
  `<@&ROLE> above N` retargets the submission to the message that the
  channel cache yields (an input of the model) and deletes the command. A first-time suggestor must confirm with ✅ on a
  prompt. Only after that is the suggestion recorded and the user added to
  the suggestor registry (`./data/users.json`). When the window times out,
  the prompt and the suggestion are deleted.
- **Reaction roles** (`src/roles.ts`). A static table lists (channel, message,
  [(emoji, role)]) entries. A reaction on a listed message with a listed
  emoji grants the listed role to the reacting member, provided the role
  exists in the guild.

The Discord client is replaced by values. Each event (a new message, a
deleted message, an added reaction) is a datatype value. The things the
client would look up are inputs: the reactor as a guild member, the guild's
role ids, the message an `above` command points at, and the id of the
prompt reply.

Layout, one module per file:

- `wrappers.dfy`: `Option`.
- `text.dfy`: digit strings (the regex `\d`, `Number(...)`), prefixes, and
  splitting on a separator.
- `discord.dfy`: ids (`Snowflake`, a non-empty decimal digit string), users,
  messages and reaction events. It also has the `Member` class, whose role
  set the bot extends.
- `records.dfy`: record paths, jump links and the record fields. It also has
  the store invariant `Consistent`: every file sits at the path its type
  and message id determine. Each path and link builder has a parser as its
  inverse.
- `above.dfy`: the `above N` parser, proved to accept exactly
  `<@&digits> above digits`.
- `confirmation.dfy`: the confirmation gate as a state machine (Idle,
  Pending, Confirmed, Expired).
- `submission.dfy`: the handlers. Each is specified by a pure function from
  (configuration, store, event) to an `Outcome`: the new store and registry,
  the effects issued in order, and the gate left behind. The lemmas state
  the properties of these functions. The `Bot` class holds the store
  (`files: map<string, Record>`), the registry (`suggestors: seq<Snowflake>`)
  and the effect log, and does the work step by step as the source does.
  Its methods are proved equal to the specification functions and keep
  `Consistent`.
- `roles.dfy`: the reaction-role handler. It is a nested loop over the table
  that adds roles to a `Member`, proved to add exactly the matched roles
  that exist.

## Model

| member | source | states |
|---|---|---|
| `Text.DigitRun` | submission.ts:93 | The greedy run of `\d` at the start of a string: every character in it is a digit, and the character after it is not. |
| `Text.DigitsRoundTrip` | submission.ts:96 | Reading back the decimal spelling of n gives n, so `Number` of the captured digits is the written count. |
| `Above.ParseAbove` | submission.ts:93-96 | The target of an `above` command, when there is one, is at least 1: the captured count plus one. |
| `Above.ParseAboveSound` | submission.ts:93-96 | Whatever the parser accepts is exactly `<@&` digits `> above ` digits, and the target is the trailing number plus one. |
| `Above.ParseAboveComplete` | submission.ts:93-96 | Every string of that form is accepted, with target the trailing number plus one. |
| `Above.ParseAboveExact` | submission.ts:93 | The parser accepts a string iff the whole string matches `^<@&\d+> above (\d+)$`. |
| `Above.AboveTarget` | submission.ts:93-96 | `above N`, with N written in decimal, targets N + 1. |
| `Records.ParseRecordPath` | submission.ts:181-191 | The record path `./data/<type>s/<id>.json` built by `RecordPath` parses back to its type and message id. |
| `Records.ParsedPathIsRecordPath` | submission.ts:181-191 | Every path that parses is the record path of what it parses to, so paths and (type, id) pairs correspond one to one. |
| `Records.RecordPathInjective` | submission.ts:183-191 | Two different (type, message id) pairs never share a file. |
| `Records.ParseMessageLink` | submission.ts:184 | The jump link built by `MessageLink` parses back to the guild, channel and message ids it was built from. |
| `Records.MakeRecordDescribes` | submission.ts:181-190 | A new record built by `MakeRecord` has the type of its directory and links to its own message. |
| `Records.WritePreservesConsistent` | submission.ts:181-195 | Writing a record keeps the store invariant: every file holds a record of its directory's type that links to the message its title names. |
| `Records.RemovePreservesConsistent` | submission.ts:197-216 | Removing a message's records keeps the store invariant. |
| `Records.RemoveRecordsExact` | submission.ts:197-216 | Removal for a message id deletes exactly the files whose path parses to that id, under either type. Every other file stays, with its contents. |
| `Records.RemoveRecordsByLink` | submission.ts:181-209 | In a consistent store, removal for a message id deletes exactly the records whose jump link points at that message. So the file naming is a lookup from message id to records. |
| `Records.RemoveKeepsOtherMessages` | submission.ts:197-209 | Removing one message's records leaves every record of every other message in place. |
| `Records.RemoveAfterWrite` | submission.ts:181-209 | Removal after a write undoes the write: the store is as if the record had never been written. |
| `Confirmation.RunSettled` | submission.ts:135 | Once a gate is decided it never changes again: at most one reaction is collected. |
| `Confirmation.RunFromPendingShape` | submission.ts:131-148 | From a prompt, a run only ever ends Pending, Confirmed or Expired, and the suggestion and prompt never change. |
| `Confirmation.RunConfirmed` | submission.ts:131-144 | From a prompt, a run ends Confirmed iff some event is the author's ✅ and no earlier event ended the window. |
| `Confirmation.RunExpired` | submission.ts:135-148 | From a prompt, a run ends Expired iff some event is the timeout and no earlier event ended the window. |
| `Submission.Classify` | submission.ts:79-95 | A message is ignored iff it is from an invalid channel, has no role mentions, or mentions neither role. Otherwise the suggestion flag holds iff the suggestion role is mentioned, and the bug flag iff the bug role is mentioned. The `above` target is the parser's result. |
| `Submission.IgnoredMessageChangesNothing` | submission.ts:18-24 | A message from a bot, from outside a guild, or that is not a submission produces no record, no effect and no registry change. |
| `Submission.AboveSkipsGate` | submission.ts:95-108 | An `above` command deletes the command message. It then records the target directly, bug before suggestion, without a prompt and without touching the registry. |
| `Submission.FirstSuggestionWaits` | submission.ts:111-130 | A first-time suggestor's suggestion is not recorded: the new store is the old one plus, at most, the bug record of the same message, so whatever was at the suggestion path is kept. The registry is unchanged. The bug effects come first, then the prompt is sent and ✅ added to it, and the gate is pending. |
| `Submission.RepeatSuggestorRecorded` | submission.ts:111-120 | A suggestor already in the registry is recorded at once, bug first, with no prompt. |
| `Submission.ConfirmationRecords` | submission.ts:135-144 | The author's ✅ writes the suggestion record and appends the author to the registry. |
| `Submission.TimeoutDiscards` | submission.ts:145-148 | On timeout, the prompt and then the suggestion are deleted. No record is written and the registry is unchanged. |
| `Submission.MessageKeepsConsistent` | submission.ts:76-113 | Handling a new message keeps the store invariant. |
| `Submission.RecordFlaggedConsistent` | submission.ts:106-111 | Recording a message as a bug and/or a suggestion keeps the store invariant. |
| `Submission.DeleteUndoesSubmission` | submission.ts:27-31 | After a message is submitted and then deleted, the store is the old store without that message's records. |
| `Submission.RejectOnlyWhenAuthorised` | submission.ts:44-71 | A ❌ changes the store only when every guard holds, and then it removes exactly the reacted message's records. A reactor who is neither the author nor a moderator changes nothing. |
| `Submission.TimeoutDropsBugRecord` | submission.ts:145-148 | A first-time suggestor's message that mentions both roles gets its bug record at once. When the window times out, the message is deleted. The `messageDelete` handler then removes every record of that message, the bug record included, leaving the store as before the message. |
| `Submission.ConfirmSpec` | submission.ts:115-130 | The registry is never changed. The gate stays idle iff the author is already in the registry, and then the suggestion record is in the store. Otherwise the store is unchanged and the gate waits on the prompt for this message. |
| `Submission.ValidateSpec` | submission.ts:76-113 | Validation never registers a suggestor and never removes a record. A message that is not a submission changes nothing. The only gate it can open is pending on its own prompt, for a first-time suggestor and a message that is not an `above` command. |
| `Submission.MessageSpec` | submission.ts:18-24 | A new message never registers a suggestor and never removes a record. A message from a bot or from outside a guild changes nothing. The only gate it can open is pending on this message and its prompt. |
| `Submission.ResolveSpec` | submission.ts:131-148 | The gate moves as `Step` says. The registry either stays or gains exactly the suggestion's author. The store and registry change only on the author's ✅ on a pending prompt, and no record is ever removed. |
| `Submission.DeleteSpec` | submission.ts:27-31 | A delete in a submission channel leaves no record of the message. It never adds a file and never touches the registry. A delete elsewhere changes nothing. |
| `Submission.MayRemove` | submission.ts:34-66 | A permitted ❌ is a ❌ by a non-bot guild member on a message carrying 🤖. Once the other guards pass, it is permitted iff the reactor is the author or one of the configured removal roles is among the member's roles. |
| `Submission.RejectSpec` | submission.ts:34-71 | The ❌ handler does something iff `MayRemove` holds. It never adds a file and never touches the registry. |
| `Submission.RecordPathDistinct` | submission.ts:191 | A message's bug record and suggestion record are different files. |
| `Submission.Bot.IsFirstSuggestion` | submission.ts:152-156 | A user is a first-time suggestor iff no entry of the registry list is the user's id. |
| `Submission.Bot.HandleFlagged` | submission.ts:106-107 | Records the message as a bug and then as a suggestion, each only when flagged. The store and the log grow exactly as `RecordFlagged` and `FlaggedEffects` say. |
| `Submission.Bot.AddUserToList` | submission.ts:152-165 | The registry becomes the old list with the id appended, and the registry file is rewritten. Afterwards the user is no longer a first-time suggestor, and every other id keeps its membership. |
| `Submission.Bot.CreateFile` | submission.ts:181-195 | Exactly one entry is written, at `./data/<type>s/<id>.json`, holding link, type, author tag and content. The store invariant is kept. |
| `Submission.Bot.HandleSubmission` | submission.ts:167-179 | The record is written, then the reactions 🤖, 👍, 👎, ❌ are added in that order. |
| `Submission.Bot.RemoveFile` | submission.ts:211-216 | The file `title` is unlinked from the type's directory. Nothing else changes. |
| `Submission.Bot.ScanAndRemoveFile` | submission.ts:197-209 | The suggestion path and then the bug path are probed, and whichever exists is removed. If neither exists, the store and the log are unchanged. |
| `Submission.Bot.ConfirmSuggestion` | submission.ts:115-130 | A known suggestor's suggestion is recorded. A first-timer gets a prompt with ✅ and a pending gate. |
| `Submission.Bot.ResolveGate` | submission.ts:131-148 | Evaluates the collector's filter on the event (a ✅ whose reactor is the suggestion's author). The resulting gate is proved to be the state machine's `Step`, and the whole new state is proved equal to `ResolveSpec`. On a collected reaction: thank, record, register, then delete the prompt. On timeout: delete the prompt and the suggestion. Otherwise, and on a gate that is not pending, nothing happens. |
| `Submission.Bot.ValidateSubmission` | submission.ts:76-113 | Computes the flags step by step and acts on them exactly as the `validateSubmission` specification function says. The store invariant is kept. |
| `Submission.Bot.OnMessage` | submission.ts:18-24 | The `message` handler: bots and direct messages are ignored, everything else is validated. |
| `Submission.Bot.OnMessageDelete` | submission.ts:27-31 | A deleted message in a submission channel has its records removed. A deleted message elsewhere changes nothing. |
| `Submission.Bot.OnReactionAdd` | submission.ts:34-74 | A ❌ that passes every guard clears the reactions and then removes the records. Any other reaction changes nothing. |
| `Roles.PairRolesSpec` | src/roles.ts:36-42 | A role comes from an entry's pairs iff some pair has the reaction's emoji and that role, and the role exists in the guild. |
| `Roles.MatchedRolesSpec` | src/roles.ts:31-45 | A role is granted iff it exists in the guild and some entry for this channel and this message has a pair with this emoji and that role. |
| `Roles.MatchedRoles` | src/roles.ts:31-45 | The roles the whole table grants are always among the guild's roles: the table never grants a role that the guild does not have. |
| `Roles.UnlistedMessageGrantsNothing` | src/roles.ts:32-33 | A reaction on a message that no entry names grants nothing. |
| `Roles.OnReactionAdd` | src/roles.ts:13-46 | After the guards (the fetch failed, the reactor is a bot, the reactor is not a member), the member's roles become the old set united with the matched existing roles. Roles are only ever added, and nothing else changes. |

## Where the code and the design description differ

- The design description says a non-matching reaction on the confirmation
  prompt discards the submission. In the code, the collector's filter drops
  such reactions and only the end of the window rejects. The model follows
  the code: `Confirmation.Step` ignores them.
- The description calls the suggestor registry a set. In the code it is a
  list that is appended to. One user with two pending first suggestions who
  confirms both is appended twice. The model keeps the list (`seq`).
- The description says a matched role is "granted exactly once". The code
  calls `roles.add` once per matching pair. The model's member role set is
  a `set`, so a role that is already held or that matches twice changes
  nothing.

- The description says a bug report is recorded regardless of the
  submitter's history. In the code, a first-time suggestor's message that
  mentions both roles is recorded as a bug at once. But when the
  confirmation window times out, the code deletes that message, and the
  bot's own `messageDelete` handler then removes its bug record too. The
  model follows the code, and `Submission.TimeoutDropsBugRecord` states the
  result.

## Left out

- The Discord client is replaced by inputs: event dispatch, partial fetches,
  `member()` lookup, the role cache, `reactions.removeAll`, `message.delete`,
  replies and embed edits. The handlers receive the resolved values, and
  their outward actions are records in an effect log. Embed text and colour
  are not modelled.
- `util.ts` is not part of this model. `sentFromValidChannel` is taken to be
  membership of the message's channel id in the configured list.
- The `above` target: which message `messages.cache.last(target)` yields,
  and the history fetch when the cache is short, depend on library code
  that is not part of this model. The caller passes the resulting message
  in, or None when the cache yields nothing. With None,
  `handleSubmission(undefined)` throws before doing anything, so only the
  command message is deleted.
- Time: the 300000 ms window is the abstract `TimedOut` event. The prompt
  deletion 5000 ms after a confirmation is logged right after the other
  confirmation effects.
- Asynchrony: callbacks and promise chains are taken to run in issue order.
  So are the two `fs.access` probes, the two `handleSubmission` calls for a
  message with both roles, and the unguarded read-modify-write of
  `users.json`. The race between concurrent first-time suggestors is
  therefore not modelled.
- Failures of platform calls and file operations are not modelled: a
  failed `writeFile` throws, and a failed reaction or delete is only
  logged. Every call is taken to succeed, except the partial-reaction fetch,
  whose outcome is an input.
- JSON serialisation and indentation, `importFresh`, configuration loading
  and logging are not modelled. The registry is re-read on every access;
  the model keeps it in a field instead.
- `Number(...)` yields a float. The count is a `nat` with no upper bound.
- `Roles.OnReactionAdd`: when the reactor is not a guild member (`member` is
  null) there is no role set to describe, so the contract says nothing for
  that case. Its `modifies` clause still guarantees that nothing changes.
