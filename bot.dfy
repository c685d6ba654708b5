/**
 * The handlers of bot.py acting in place on the two module-level tables,
 * held here as the fields of one TicketManager. Each platform call is a
 * parameter standing for its outcome (see module Tickets); each handler runs
 * atomically on the tables.
 */
module Bot {
  import opened Wrappers
  import opened Transcript
  import opened Tickets

  class TicketManager {
    /** CREATE_TICKET_ALLOWED_USER_ID (bot.py:13). */
    const allowedCreator: UserId
    /** TICKET_TIMEOUT (bot.py:15). */
    const timeout: int

    /** `ticket_creators` (bot.py:17). */
    var creators: map<ChannelId, UserId>
    /** `ticket_last_activity` (bot.py:18). */
    var lastActivity: map<ChannelId, int>

    function State(): Tables
      reads this
    {
      Tables(creators, lastActivity)
    }

    ghost predicate Valid()
      reads this
    {
      State().Valid()
    }

    constructor (allowedCreator: UserId, timeout: int := DefaultTimeout)
      ensures Valid() && State() == NoTickets
      ensures this.allowedCreator == allowedCreator && this.timeout == timeout
    {
      this.allowedCreator := allowedCreator;
      this.timeout := timeout;
      creators := map[];
      lastActivity := map[];
    }

    /** `on_message` (bot.py:43-45): refresh the activity of a tracked channel. */
    method OnMessage(channel: ChannelId, time: int)
      requires Valid()
      modifies this
      ensures Valid()
      ensures State() == Touch(old(State()), channel, time)
    {
      if channel in lastActivity {
        lastActivity := lastActivity[channel := time];
      }
    }

    /** `/ticket` (bot.py:53-78); `time` is the interaction's creation time. */
    method Ticket(invoker: UserId, time: int, category: Option<set<string>>, viewerFound: bool,
                  created: Option<ChannelId>) returns (outcome: OpenOutcome)
      requires Valid()
      modifies this
      ensures Valid()
      ensures outcome == OpenTicket(invoker, category, viewerFound, created)
      ensures State() == AfterOpen(old(State()), outcome, invoker, time)
    {
      outcome := OpenTicket(invoker, category, viewerFound, created);
      if outcome.Created? {
        creators := creators[outcome.channel := invoker];
        lastActivity := lastActivity[outcome.channel := time];
      }
    }

    /** `/create-ticket` (bot.py:125-152). */
    method CreateTicket(invoker: UserId, time: int, category: Option<set<string>>, viewerFound: bool,
                        created: Option<ChannelId>) returns (outcome: OpenOutcome)
      requires Valid()
      modifies this
      ensures Valid()
      ensures outcome == OpenStaffTicket(allowedCreator, invoker, category, viewerFound, created)
      ensures State() == AfterOpen(old(State()), outcome, invoker, time)
    {
      outcome := OpenStaffTicket(allowedCreator, invoker, category, viewerFound, created);
      if outcome.Created? {
        creators := creators[outcome.channel := invoker];
        lastActivity := lastActivity[outcome.channel := time];
      }
    }

    /** `/close-ticket` (bot.py:93-120), invoked in `channel`. */
    method CloseTicket(channel: ChannelId, channelName: string, creatorFetched: bool,
                       history: Option<seq<Message>>, deleted: bool) returns (outcome: CloseOutcome)
      requires Valid()
      modifies this
      ensures Valid()
      ensures outcome == Tickets.CloseTicket(old(State()), channel, channelName, creatorFetched, history, deleted)
      ensures State() == AfterClose(old(State()), outcome, channel)
    {
      outcome := Tickets.CloseTicket(State(), channel, channelName, creatorFetched, history, deleted);
      if outcome.Closed? {
        creators := creators - {channel};
        lastActivity := lastActivity - {channel};
      }
    }

    /**
     * `ticket_inactivity_checker` (bot.py:166-179): walk a snapshot of the
     * activity table and drop every idle channel from both tables, whether or
     * not its channel could be found or deleted. `closed` is the set of
     * channels the sweep closed.
     */
    method SweepIdle(now: int) returns (closed: set<ChannelId>)
      requires Valid()
      modifies this
      ensures Valid()
      ensures closed == IdleChannels(old(lastActivity), now, timeout)
      ensures State() == Sweep(old(State()), now, timeout)
    {
      var snapshot := lastActivity;
      var pending := snapshot.Keys;
      closed := {};
      while pending != {}
        invariant pending <= snapshot.Keys
        invariant closed == IdleChannels(snapshot, now, timeout) - pending
        invariant creators == old(creators) - closed
        invariant lastActivity == snapshot - closed
        decreases pending
      {
        var channel :| channel in pending;
        if IsIdle(snapshot[channel], now, timeout) {
          creators := creators - {channel};
          lastActivity := lastActivity - {channel};
          closed := closed + {channel};
        }
        pending := pending - {channel};
      }
    }
  }
}
