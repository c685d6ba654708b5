/**
 * The ticket bookkeeping of the bot as values: the two tables
 * `ticket_creators` and `ticket_last_activity` (bot.py:17-18), the effect of
 * each handler on them, and the guard decisions of the three commands. The
 * class Bot.TicketManager performs these updates in place; everything proved
 * here about the values holds of its state.
 */
module Tickets {
  import opened Wrappers
  import opened ChannelNames
  import opened Transcript

  type ChannelId = nat
  type UserId = nat

  /** Seconds a ticket may stay idle before the sweep closes it: `60 * 30` (bot.py:15). */
  const DefaultTimeout: int := 60 * 30

  /** channel id -> creator user id, and channel id -> last-activity time. */
  datatype Tables = Tables(creators: map<ChannelId, UserId>, lastActivity: map<ChannelId, int>)
  {
    /** Both tables track the same channels. */
    predicate Valid()
    {
      creators.Keys == lastActivity.Keys
    }
  }

  const NoTickets: Tables := Tables(map[], map[])

  /**
   * The sweep's test `now - last_time > TICKET_TIMEOUT` (bot.py:169): the
   * deadline `last + timeout` lies strictly in the past.
   */
  predicate IsIdle(last: int, now: int, timeout: int): (idle: bool)
    ensures idle <==> last + timeout < now
    ensures idle && timeout >= 0 ==> last < now
  {
    now - last > timeout
  }

  /** A ticket idle at `now` is idle at every later time, unless touched. */
  lemma IdleStaysIdle(last: int, now: int, later: int, timeout: int)
    requires now <= later
    ensures IsIdle(last, now, timeout) ==> IsIdle(last, later, timeout)
  {
  }

  /** Channels of an activity table that a sweep at `now` finds idle. */
  function IdleChannels(activity: map<ChannelId, int>, now: int, timeout: int): (idle: set<ChannelId>)
    ensures forall c :: c in idle <==> c in activity && IsIdle(activity[c], now, timeout)
  {
    set c | c in activity && IsIdle(activity[c], now, timeout)
  }

  // ---------------------------------------------------------------------
  // Effects on the tables

  /** A message in `channel` at `time` (bot.py:44-45). */
  function Touch(t: Tables, channel: ChannelId, time: int): (r: Tables)
    ensures r.creators == t.creators
    ensures r.lastActivity.Keys == t.lastActivity.Keys
    ensures channel in t.lastActivity ==> r.lastActivity[channel] == time
    ensures channel !in t.lastActivity ==> r == t
    ensures forall c :: c in t.lastActivity && c != channel ==> r.lastActivity[c] == t.lastActivity[c]
    ensures t.Valid() ==> r.Valid()
  {
    if channel in t.lastActivity then t.(lastActivity := t.lastActivity[channel := time]) else t
  }

  /** A new ticket channel recorded by either create command (bot.py:77-78, 151-152). */
  function Insert(t: Tables, channel: ChannelId, creator: UserId, time: int): (r: Tables)
    ensures r.creators.Keys == t.creators.Keys + {channel}
    ensures r.lastActivity.Keys == t.lastActivity.Keys + {channel}
    ensures r.creators[channel] == creator && r.lastActivity[channel] == time
    ensures forall c :: c in t.creators && c != channel ==> r.creators[c] == t.creators[c]
    ensures forall c :: c in t.lastActivity && c != channel ==> r.lastActivity[c] == t.lastActivity[c]
    ensures t.Valid() ==> r.Valid()
  {
    Tables(t.creators[channel := creator], t.lastActivity[channel := time])
  }

  /** `pop(channel, None)` on both tables (bot.py:119-120, 178-179). */
  function Remove(t: Tables, channel: ChannelId): (r: Tables)
    ensures r.creators.Keys == t.creators.Keys - {channel}
    ensures r.lastActivity.Keys == t.lastActivity.Keys - {channel}
    ensures forall c :: c in r.creators ==> r.creators[c] == t.creators[c]
    ensures forall c :: c in r.lastActivity ==> r.lastActivity[c] == t.lastActivity[c]
    ensures channel !in t.creators && channel !in t.lastActivity ==> r == t
    ensures t.Valid() ==> r.Valid()
  {
    Tables(t.creators - {channel}, t.lastActivity - {channel})
  }

  /** One pass of the inactivity sweep at time `now` (bot.py:166-179). */
  function Sweep(t: Tables, now: int, timeout: int): (r: Tables)
    ensures forall c :: c in t.lastActivity ==> (c in r.lastActivity <==> !IsIdle(t.lastActivity[c], now, timeout))
    ensures forall c :: c in r.lastActivity ==> c in t.lastActivity && r.lastActivity[c] == t.lastActivity[c]
    ensures forall c :: c in r.creators ==> c in t.creators && r.creators[c] == t.creators[c]
    ensures forall c :: c in t.creators && c !in t.lastActivity ==> c in r.creators
    ensures t.Valid() ==> r.Valid()
  {
    var idle := IdleChannels(t.lastActivity, now, timeout);
    Tables(t.creators - idle, t.lastActivity - idle)
  }

  // ---------------------------------------------------------------------
  // The create commands

  /** How a create command ends. */
  datatype OpenOutcome =
    | Created(channel: ChannelId)   // channel made and recorded
    | NotAllowed                    // staff guard refused the invoker
    | CategoryMissing               // the ticket category is absent or not a category
    | AlreadyOpen(name: string)     // a channel with the invoker's ticket name exists
    | ViewerMissing                 // fetching the viewer member raised
    | CreationFailed                // creating the channel raised

  /**
   * `/ticket` (bot.py:53-78). `category` holds the names of the channels in
   * the ticket category, or None when it is missing or not a category;
   * `viewerFound` says whether the viewer member could be fetched; `created`
   * is the id of the channel the platform made, or None when that call raised.
   */
  function OpenTicket(invoker: UserId, category: Option<set<string>>, viewerFound: bool,
                      created: Option<ChannelId>): (r: OpenOutcome)
    ensures r != NotAllowed
    ensures r == CategoryMissing <==> category.None?
    ensures r.AlreadyOpen? <==> category.Some? && ChannelName(invoker) in category.value
    ensures r.AlreadyOpen? ==> r.name == ChannelName(invoker)
    ensures r == ViewerMissing <==>
      category.Some? && ChannelName(invoker) !in category.value && !viewerFound
    ensures r.Created? <==>
      category.Some? && ChannelName(invoker) !in category.value && viewerFound && created.Some?
    ensures r.Created? ==> r.channel == created.value
  {
    if category.None? then CategoryMissing
    else if ChannelName(invoker) in category.value then AlreadyOpen(ChannelName(invoker))
    else if !viewerFound then ViewerMissing
    else if created.None? then CreationFailed
    else Created(created.value)
  }

  /**
   * `/create-ticket` (bot.py:125-152): the staff guard first, then the
   * category, then the viewer, and only then the duplicate check, keyed by
   * the invoker's own id.
   */
  function OpenStaffTicket(allowed: UserId, invoker: UserId, category: Option<set<string>>,
                           viewerFound: bool, created: Option<ChannelId>): (r: OpenOutcome)
    ensures r == NotAllowed <==> invoker != allowed
    ensures r == CategoryMissing <==> invoker == allowed && category.None?
    ensures r == ViewerMissing <==> invoker == allowed && category.Some? && !viewerFound
    ensures r.AlreadyOpen? <==>
      invoker == allowed && category.Some? && viewerFound && ChannelName(invoker) in category.value
    ensures r.Created? <==>
      invoker == allowed && category.Some? && viewerFound && ChannelName(invoker) !in category.value
      && created.Some?
    ensures r.Created? ==> r.channel == created.value
  {
    if invoker != allowed then NotAllowed
    else if category.None? then CategoryMissing
    else if !viewerFound then ViewerMissing
    else if ChannelName(invoker) in category.value then AlreadyOpen(ChannelName(invoker))
    else if created.None? then CreationFailed
    else Created(created.value)
  }

  /** The tables after a create command that ended with `outcome`. */
  function AfterOpen(t: Tables, outcome: OpenOutcome, invoker: UserId, time: int): (r: Tables)
    ensures !outcome.Created? ==> r == t
    ensures t.Valid() ==> r.Valid()
  {
    if outcome.Created? then Insert(t, outcome.channel, invoker, time) else t
  }

  // ---------------------------------------------------------------------
  // The close command

  /** How `/close-ticket` ends; `logPost` is None when transcript logging raised. */
  datatype CloseOutcome =
    | NotATicket                                          // channel not tracked
    | CreatorUnavailable                                  // fetching the creator raised
    | DeleteFailed(creator: UserId, logPost: Option<string>)  // deleting the channel raised
    | Closed(creator: UserId, logPost: Option<string>)

  /**
   * `/close-ticket` (bot.py:93-120). `creatorFetched` says whether
   * `fetch_user` returned, `history` is the fetched history or None when the
   * transcript step raised, and `deleted` says whether deleting the channel
   * returned. The DM to the creator and the transcript step swallow their own
   * failures; fetching the creator and deleting the channel do not.
   */
  function CloseTicket(t: Tables, channel: ChannelId, channelName: string, creatorFetched: bool,
                       history: Option<seq<Message>>, deleted: bool): (r: CloseOutcome)
    ensures r == NotATicket <==> channel !in t.creators
    ensures r == CreatorUnavailable <==> channel in t.creators && !creatorFetched
    ensures r.Closed? <==> channel in t.creators && creatorFetched && deleted
    ensures (r.Closed? || r.DeleteFailed?) ==> r.creator == t.creators[channel]
    ensures (r.Closed? || r.DeleteFailed?) ==> (r.logPost.Some? <==> history.Some?)
    ensures (r.Closed? || r.DeleteFailed?) && history.Some? ==>
      r.logPost.value == LogPost(channelName, history.value)
  {
    if channel !in t.creators then NotATicket
    else if !creatorFetched then CreatorUnavailable
    else
      var post := if history.Some? then Some(LogPost(channelName, history.value)) else None;
      if deleted then Closed(t.creators[channel], post) else DeleteFailed(t.creators[channel], post)
  }

  /** The tables after a close that ended with `outcome`: only a completed close removes. */
  function AfterClose(t: Tables, outcome: CloseOutcome, channel: ChannelId): (r: Tables)
    ensures !outcome.Closed? ==> r == t
    ensures t.Valid() ==> r.Valid()
  {
    if outcome.Closed? then Remove(t, channel) else t
  }

  // ---------------------------------------------------------------------
  // Properties relating several operations

  /** Closing a freshly created ticket gives back the tables it was created in. */
  lemma RemoveUndoesInsert(t: Tables, channel: ChannelId, creator: UserId, time: int)
    requires channel !in t.creators && channel !in t.lastActivity
    ensures Remove(Insert(t, channel, creator, time), channel) == t
  {
  }

  /** Removing a channel twice is the same as removing it once. */
  lemma RemoveIdempotent(t: Tables, channel: ChannelId)
    ensures Remove(Remove(t, channel), channel) == Remove(t, channel)
  {
  }

  /** A second sweep at the same time removes nothing more. */
  lemma SweepIdempotent(t: Tables, now: int, timeout: int)
    ensures Sweep(Sweep(t, now, timeout), now, timeout) == Sweep(t, now, timeout)
  {
  }

  /** A close and a sweep give the same tables in either order. */
  lemma RemoveSweepCommute(t: Tables, channel: ChannelId, now: int, timeout: int)
    ensures Sweep(Remove(t, channel), now, timeout) == Remove(Sweep(t, now, timeout), channel)
  {
    assert IdleChannels(Remove(t, channel).lastActivity, now, timeout)
        == IdleChannels(t.lastActivity, now, timeout) - {channel};
  }

  /**
   * The timeout is strict: a ticket last active at `last` survives a sweep at
   * `last + timeout` (and any earlier one) and is removed by any later one.
   */
  lemma TimeoutBoundary(t: Tables, channel: ChannelId, timeout: int, eps: int)
    requires t.Valid() && channel in t.lastActivity && eps > 0
    ensures channel in Sweep(t, t.lastActivity[channel] + timeout - eps, timeout).creators
    ensures channel in Sweep(t, t.lastActivity[channel] + timeout, timeout).creators
    ensures channel !in Sweep(t, t.lastActivity[channel] + timeout + eps, timeout).creators
  {
  }

  /** A message at `now` keeps its ticket through a sweep at `now`. */
  lemma TouchKeepsTicket(t: Tables, channel: ChannelId, now: int, timeout: int)
    requires t.Valid() && channel in t.creators && timeout >= 0
    ensures channel in Sweep(Touch(t, channel, now), now, timeout).creators
  {
  }

  /**
   * Once `/ticket` has made a user's channel, which then sits in the category,
   * a second `/ticket` by that user is refused, while any other user's is not
   * refused on its account.
   */
  lemma OneTicketPerUser(user: UserId, other: UserId, names: set<string>, viewerFound: bool,
                         created: Option<ChannelId>)
    requires ChannelName(other) !in names && other != user
    ensures OpenTicket(user, Some(names + {ChannelName(user)}), viewerFound, created)
         == AlreadyOpen(ChannelName(user))
    ensures !OpenTicket(other, Some(names + {ChannelName(user)}), viewerFound, created).AlreadyOpen?
  {
    ChannelNameInjective(user, other);
  }

  /**
   * For the staff user the two create commands agree except when the viewer
   * is missing and a duplicate exists: `/ticket` reports the duplicate,
   * `/create-ticket` the missing viewer.
   */
  lemma CreateCommandsAgree(staff: UserId, category: Option<set<string>>, viewerFound: bool,
                            created: Option<ChannelId>)
    ensures OpenStaffTicket(staff, staff, category, viewerFound, created)
         == OpenTicket(staff, category, viewerFound, created)
       <==> !(category.Some? && ChannelName(staff) in category.value && !viewerFound)
  {
  }
}
