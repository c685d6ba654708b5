# Ticket bookkeeping of a chat-platform moderation bot

The bot (`bot.py`) opens private "ticket" channels for reports, lets staff
open them too, closes them on request with a transcript posted to a log
channel, and is meant to close them once they have gone 30 minutes without
a message, at the next five-minute sweep. As written it never does so (see
"Clocks" under "## Left out").
Its only internal state is two in-memory tables keyed by ticket channel id:
`ticket_creators` (channel → creator user id) and `ticket_last_activity`
(channel → time of the last message). This project models that bookkeeping
and the two pure string computations it relies on:

- `wrappers.dfy` — `Option`.
- `channel_names.dfy` (module `ChannelNames`) — the ticket channel name
  `"ticket-" + str(id)`. `ChannelOwner` is its inverse on well-formed
  ticket names (`ticket-` followed by a canonical decimal, so not
  `ticket-007`). The two round trips make those names and user ids a
  bijection, so the duplicate check by name is a check per user.
- `transcript.dfy` (module `Transcript`) — the `"author: content"` lines,
  `"\n".join`, the cut to 1900 characters and the log post. `Split`
  (Python's `str.split("\n")`) is the reference for `Join`. Joining the
  pieces of any text gives the text back (`JoinSplit`). Splitting the join of
  a non-empty list of lines gives the lines back only when no line holds a
  line break (`SplitJoin`). Chat messages may span several lines, so a
  transcript of such messages is ambiguous: a two-line message reads like
  two messages.
- `tickets.dfy` (module `Tickets`) — the two tables as a value `Tables`. It
  defines what each handler does to them, the guard decisions of the three
  commands as functions, and lemmas relating the operations. `Tables.Valid`
  says that both tables have the same key set, and every operation keeps it.
- `bot.dfy` (module `Bot`) — class `TicketManager`. Its two `map` fields are
  the two tables, and its methods are the handlers, updating the fields in
  place. Each method is proved against the matching function of `Tickets`.
  The inactivity sweep walks a snapshot of the activity table in a loop and
  drops idle channels one at a time.

Every call into the platform's client library becomes a parameter standing for
its outcome:
- `category`: the set of channel names in the ticket category, or `None` when
  the category is missing or is not a category.
- `viewerFound`: whether the viewer member could be fetched. Otherwise
  `fetch_member` raises and the command stops.
- `created`: the new channel's id, or `None` when creating it raised.
- `creatorFetched`: whether `fetch_user` returned.
- `history`: the fetched messages, or `None` when the transcript step raised.
- `deleted`: whether deleting the channel returned.

Times are abstract integers (seconds). The staff user id and the timeout are
constructor parameters of `TicketManager`. The timeout defaults to
`Tickets.DefaultTimeout` (`60 * 30` seconds).

Behaviour of the code that the model keeps as written:
- A close whose channel deletion raises (bot.py:118, outside any `try`) never
  reaches the two `pop` calls. The tables keep the channel. Only the sweep
  removes unconditionally.
- `fetch_user` in the close command (bot.py:101) is outside any `try`. If it
  raises, the close stops before the DM, the transcript and the removal.
- The activity refresh overwrites the stored time with the message time and
  takes no maximum. A message older than the stored time therefore moves the
  time back.
- `/ticket` checks for a duplicate before it fetches the viewer.
  `/create-ticket` fetches the viewer first. When both conditions fail, the
  two commands report different errors (`Tickets.CreateCommandsAgree`).

## Model

| member | source | states |
|---|---|---|
| `ChannelNames.DecimalString` | bot.py:61 | `str(id)`: at least one digit, all digits, first digit `0` exactly for id 0 |
| `ChannelNames.ChannelName` | bot.py:61 | the ticket name is `ticket-` followed by a canonical decimal |
| `ChannelNames.ParseDecimalString` | bot.py:61 | reading back `str(n)` gives `n` |
| `ChannelNames.DecimalStringParse` | bot.py:138 | every canonical decimal is `str` of the number it denotes |
| `ChannelNames.ChannelOwnerOfName` | bot.py:61 | the owner read back from a user's ticket name is that user |
| `ChannelNames.NameOfChannelOwner` | bot.py:138 | a name with an owner is exactly that owner's ticket name |
| `ChannelNames.ChannelNameInjective` | bot.py:61-63 | two users share a ticket name iff they are the same user |
| `ChannelNames.ChannelNameLength` | bot.py:61 | for 64-bit ids the ticket name has at most 27 characters |
| `Transcript.Line` | bot.py:109 | a line is the author, then `: `, then the content; it holds a line break only if the author or the content does |
| `Transcript.Lines` | bot.py:109 | one line per fetched message, in the order fetched |
| `Transcript.Join` | bot.py:110 | `"\n".join`: all characters of the lines plus one separator between each two, starting with the first line; empty for no lines; `JoinSplit` and `SplitJoin` relate it to `split("\n")` |
| `Transcript.Truncate` | bot.py:112 | `s[:n]` has length ≤ n, is a prefix of `s`, equals `s` when it fits, has length n otherwise |
| `Transcript.TranscriptBody` | bot.py:109-112 | the transcript has ≤ 1900 characters, is a prefix of the joined lines, and is all of them when they fit |
| `Transcript.SplitJoin` | bot.py:110 | splitting the joined lines on `\n` gives the lines back when none holds a line break |
| `Transcript.JoinSplit` | bot.py:110 | joining the pieces of any text gives the text back |
| `Transcript.TranscriptRecoversLines` | bot.py:109-112 | an uncut transcript of break-free messages holds one `author: content` line per message, in order |
| `Transcript.LogPost` | bot.py:112 | the post is the header with the channel name, then the transcript, then the closing fence, 26 characters of decoration in all; `LogPostFits` bounds it |
| `Transcript.LogPostFits` | bot.py:112 | the log post for a ticket channel stays within the 2000-character message limit |
| `Tickets.IsIdle` | bot.py:168-169 | a channel is idle exactly when its deadline `last + timeout` lies strictly before `now` |
| `Tickets.IdleStaysIdle` | bot.py:169 | a channel idle at `now` is still idle at any later time |
| `Tickets.IdleChannels` | bot.py:168-169 | the idle channels are exactly the tracked ones whose deadline has passed |
| `Tickets.Touch` | bot.py:44-45 | a tracked channel's activity becomes the message time; no key, creator or other entry changes; untracked channel: no change |
| `Tickets.Insert` | bot.py:77-78 | the new channel maps to its creator and the interaction time in both tables; nothing else changes; same keys kept |
| `Tickets.Remove` | bot.py:119-120 | the channel leaves both tables; every other entry stays; an absent channel is a no-op |
| `Tickets.Sweep` | bot.py:166-179 | a channel stays iff `now - last <= timeout`, with unchanged values; same keys kept |
| `Tickets.OpenTicket` | bot.py:53-78 | `/ticket`: missing category, then duplicate name, then missing viewer, each stops; created iff none applies and the platform made the channel |
| `Tickets.OpenStaffTicket` | bot.py:125-152 | `/create-ticket`: refused iff the invoker is not the staff user, before any other check; then category, viewer, duplicate by the invoker's own name |
| `Tickets.AfterOpen` | bot.py:77-78 | a create command changes the tables only when it created a channel (also bot.py:151-152); both tables keep the same keys |
| `Tickets.CloseTicket` | bot.py:93-120 | untracked channel is rejected; failed creator lookup aborts; closed iff tracked, creator fetched and deletion returned; reports the creator and the log post |
| `Tickets.AfterClose` | bot.py:118-120 | a close changes the tables only when the deletion returned; both tables keep the same keys |
| `Tickets.RemoveUndoesInsert` | bot.py:119-120 | closing a freshly created ticket restores the tables as they were |
| `Tickets.RemoveIdempotent` | bot.py:119-120 | removing a channel twice equals removing it once |
| `Tickets.SweepIdempotent` | bot.py:166-179 | a second sweep at the same time changes nothing |
| `Tickets.RemoveSweepCommute` | bot.py:178-179 | a close and a sweep give the same tables in either order |
| `Tickets.TimeoutBoundary` | bot.py:166-179 | a sweep at exactly `last + timeout` keeps the ticket in both tables; a sweep later by any amount removes it |
| `Tickets.TouchKeepsTicket` | bot.py:44-45 | a message at `now` keeps its ticket through a sweep at `now` |
| `Tickets.OneTicketPerUser` | bot.py:60-65 | once a user's channel exists, their second `/ticket` is refused, and no other user is refused because of it |
| `Tickets.CreateCommandsAgree` | bot.py:125-142 | for the staff user both commands decide alike, except for a duplicate with a missing viewer |
| `Bot.TicketManager.constructor` | bot.py:13-18 | both tables start empty; staff id and timeout are configuration |
| `Bot.TicketManager.OnMessage` | bot.py:43-45 | the tables become `Touch` of the old tables; same keys kept |
| `Bot.TicketManager.Ticket` | bot.py:53-89 | outcome is `OpenTicket`; tables gain the new channel only when created |
| `Bot.TicketManager.CreateTicket` | bot.py:125-162 | outcome is `OpenStaffTicket`; tables gain the new channel only when created |
| `Bot.TicketManager.CloseTicket` | bot.py:93-120 | outcome is `Tickets.CloseTicket`; tables lose the channel only when the close completes |
| `Bot.TicketManager.SweepIdle` | bot.py:166-179 | walking a snapshot removes exactly the idle channels from both tables and returns them |

## Left out

- Role assignment on member join (bot.py:31-40) and command sync at start-up (bot.py:22-29): platform calls that touch no table.
- Embeds, mentions, permission overwrites, the DM text and the ephemeral replies (bot.py:70-74, 80-89, 103, 116, 144-162): presentation passed to the platform. The outcome datatypes stand for the replies.
- A failure of the acknowledgement at bot.py:116 also stops a close before deletion. It has no parameter of its own; `deleted == false` gives the same tables.
- A failure of the summary post after a create (bot.py:88, 161) comes after the tables have changed. It is not an outcome of its own.
- The sweep's per-channel platform steps (`get_channel`, the notice, the wait, the delete, bot.py:170-177) catch their own failures and do not affect the tables, so they are not parameters.
- Which messages `history(limit=100, oldest_first=True)` returns is the client library's behaviour. The fetched list is a parameter.
- Concurrency: the handlers interleave at each `await`. Here each handler is atomic on the tables. `Tickets.RemoveSweepCommute` covers one consequence of that: a close and a sweep commute.
- Clocks: message and interaction times are epoch floats, while the sweep reads the event loop's monotonic clock (bot.py:45, 78, 152, 167). All times are one abstract integer here, and the mismatch is not reproduced. As written, `now - last_time` is an uptime minus an epoch time and so is negative, so the sweep never closes a ticket; `Tickets.Sweep`, `Tickets.TimeoutBoundary` and `Tickets.TouchKeepsTicket` describe the intended behaviour on a single clock.
- The order of the snapshot walk: Python walks insertion order, the model any order. The result does not depend on it.
- The hard-coded token and ids (bot.py:10-14, 182): configuration, not logic.
- The five-minute schedule of the sweep (bot.py:165): each firing is one call of `SweepIdle`.
