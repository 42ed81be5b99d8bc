/**
 * The messages route: the GET page selection, the POST validation, the
 * per-message XP grant with its daily reset and cap, and the follow-on rank
 * check with the route's own threshold table. The database row of a user is an
 * in-memory `Account`; the session is the signed-in user's id, if any; "today"
 * is an integer day number.
 */
module MessagesRoute {
  import opened Wrappers
  import Roles

  type UserId = string

  // ---------------------------------------------------------------------------
  // Constants of the route
  // ---------------------------------------------------------------------------

  /** XP granted per message before the cap. */
  const MessageXp: int := 5

  /** The route's own daily cap on message XP. */
  const DailyMessageCap: int := 100

  /** Reason written to the XP log for a message grant. */
  const MessageReason: string := "Poruka u kanalu"

  /** Default page size and offset of GET. */
  const DefaultLimit: nat := 50
  const DefaultOffset: nat := 0

  /** One row of the route's rank table: `rank` is reached at `xp`. */
  datatype RankStep = RankStep(rank: int, xp: int)

  /** The route's rank table, in ascending order. */
  const RouteRankThresholds: seq<RankStep> := [
    RankStep(1, 0),
    RankStep(2, 100),
    RankStep(3, 500),
    RankStep(4, 1500),
    RankStep(5, 5000),
    RankStep(6, 15000),
    RankStep(7, 50000)
  ]

  // ---------------------------------------------------------------------------
  // Daily reset and grant
  // ---------------------------------------------------------------------------

  /** The daily XP the cap is checked against: zero when the stored day is not today. */
  function EffectiveDailyXp(dailyXp: int, dailyXpDate: int, today: int): (e: int)
    ensures dailyXpDate != today ==> e == 0
    ensures dailyXpDate == today ==> e == dailyXp
  {
    if dailyXpDate != today then 0 else dailyXp
  }

  /** The XP one message earns given the effective daily XP: 5, cut down to what is
      left under the cap, and nothing once the cap is reached. */
  function MessageGrant(effective: int): (g: int)
    ensures effective < DailyMessageCap ==> 1 <= g <= MessageXp && effective + g <= DailyMessageCap
    ensures effective < DailyMessageCap ==> g == MessageXp || effective + g == DailyMessageCap
    ensures effective >= DailyMessageCap ==> g == 0
  {
    if effective < DailyMessageCap then
      if MessageXp <= DailyMessageCap - effective then MessageXp else DailyMessageCap - effective
    else 0
  }

  // ---------------------------------------------------------------------------
  // Rank check
  // ---------------------------------------------------------------------------

  /** The value of `newRank` after the loop of checkAndUpdateRank has visited the
      rows of `table`, starting from `start`: the last row whose XP is reached wins. */
  function ScanRank(table: seq<RankStep>, xp: int, start: int): (r: int)
    ensures r == start || exists i :: 0 <= i < |table| && table[i].xp <= xp && r == table[i].rank
  {
    if |table| == 0 then start
    else
      var last := table[|table| - 1];
      if xp >= last.xp then last.rank else ScanRank(table[..|table| - 1], xp, start)
  }

  /** The rank stored after checkAndUpdateRank: the scanned rank if it is higher. */
  function RankAfterCheck(xp: int, stored: int): (r: int)
    ensures r >= stored
  {
    var newRank := ScanRank(RouteRankThresholds, xp, stored);
    if newRank > stored then newRank else stored
  }

  /** The rows' XP values strictly ascend. */
  ghost predicate AscendingTable(table: seq<RankStep>)
  {
    forall i, j :: 0 <= i < j < |table| ==> table[i].xp < table[j].xp
  }

  /** The route's table ascends, and each row's rank is its position plus one. */
  lemma RouteTableAscending()
    ensures AscendingTable(RouteRankThresholds)
    ensures forall i :: 0 <= i < |RouteRankThresholds| ==> RouteRankThresholds[i].rank == i + 1
  {
  }

  /** On an ascending table whose first row is reached, the scan picks the row of
      the highest threshold reached. */
  lemma {:induction false} ScanPicksHighestReached(table: seq<RankStep>, xp: int, start: int) returns (k: int)
    requires AscendingTable(table)
    requires |table| > 0 && table[0].xp <= xp
    ensures 0 <= k < |table| && table[k].xp <= xp
    ensures k + 1 < |table| ==> xp < table[k + 1].xp
    ensures ScanRank(table, xp, start) == table[k].rank
  {
    var n := |table|;
    if xp >= table[n - 1].xp {
      k := n - 1;
    } else {
      var front := table[..n - 1];
      assert front[0] == table[0];
      k := ScanPicksHighestReached(front, xp, start);
      assert table[k] == front[k];
      assert k + 1 < n - 1 ==> table[k + 1] == front[k + 1];
    }
  }

  /** On a table none of whose rows is reached, the scan leaves the start value. */
  lemma {:induction false} ScanBelowTable(table: seq<RankStep>, xp: int, start: int)
    requires forall i :: 0 <= i < |table| ==> xp < table[i].xp
    ensures ScanRank(table, xp, start) == start
  {
    if |table| > 0 {
      ScanBelowTable(table[..|table| - 1], xp, start);
    }
  }

  /** For non-negative XP the route's table gives the highest rank whose threshold
      is reached, whatever the stored rank; for negative XP it keeps the stored rank. */
  lemma RouteRankIsHighestReached(xp: int, stored: int)
    ensures var s := ScanRank(RouteRankThresholds, xp, stored);
            xp >= 0 ==>
              && 1 <= s <= 7
              && RouteRankThresholds[s - 1].xp <= xp
              && (s < 7 ==> xp < RouteRankThresholds[s].xp)
    ensures xp < 0 ==> ScanRank(RouteRankThresholds, xp, stored) == stored
  {
    RouteTableAscending();
    if xp >= 0 {
      var k := ScanPicksHighestReached(RouteRankThresholds, xp, stored);
    } else {
      ScanBelowTable(RouteRankThresholds, xp, stored);
    }
  }

  /** The stored rank never decreases and a second check with the same XP changes nothing. */
  lemma RankCheckMonotoneAndIdempotent(xp: int, stored: int)
    ensures RankAfterCheck(xp, stored) >= stored
    ensures RankAfterCheck(xp, RankAfterCheck(xp, stored)) == RankAfterCheck(xp, stored)
  {
    RouteRankIsHighestReached(xp, stored);
    RouteRankIsHighestReached(xp, RankAfterCheck(xp, stored));
    if xp >= 0 {
      // The scan does not depend on the start value once the first row is reached.
      RouteTableAscending();
      var s1 := ScanRank(RouteRankThresholds, xp, stored);
      var s2 := ScanRank(RouteRankThresholds, xp, RankAfterCheck(xp, stored));
      assert s1 == s2 by {
        ScanUnique(xp, s1, s2);
      }
    }
  }

  /** Two ranks that both satisfy the "highest reached" description are equal. */
  lemma ScanUnique(xp: int, s1: int, s2: int)
    requires 1 <= s1 <= 7 && 1 <= s2 <= 7
    requires RouteRankThresholds[s1 - 1].xp <= xp && (s1 < 7 ==> xp < RouteRankThresholds[s1].xp)
    requires RouteRankThresholds[s2 - 1].xp <= xp && (s2 < 7 ==> xp < RouteRankThresholds[s2].xp)
    ensures s1 == s2
  {
  }

  /** With a rank already in 1..7 and non-negative XP, the checked rank stays in 1..7. */
  lemma RankAfterCheckRange(xp: int, stored: int)
    requires 0 <= xp && 1 <= stored <= 7
    ensures 1 <= RankAfterCheck(xp, stored) <= 7
  {
    RouteRankIsHighestReached(xp, stored);
  }

  /** More XP never gives a lower checked rank, whatever the stored rank. */
  lemma RankAfterCheckMonotone(xp1: int, xp2: int, stored: int)
    requires xp1 <= xp2
    ensures RankAfterCheck(xp1, stored) <= RankAfterCheck(xp2, stored)
  {
    RouteRankIsHighestReached(xp1, stored);
    RouteRankIsHighestReached(xp2, stored);
    if 0 <= xp1 {
      RouteTableAscending();
    }
  }

  /** A check at a lower XP followed by one at a higher XP leaves the same rank as a
      single check at the higher XP: awards made one by one reach the rank of their sum. */
  lemma RankCheckComposes(xp1: int, xp2: int, stored: int)
    requires 0 <= xp1 <= xp2
    ensures RankAfterCheck(xp2, RankAfterCheck(xp1, stored)) == RankAfterCheck(xp2, stored)
  {
    var r1 := RankAfterCheck(xp1, stored);
    RouteRankIsHighestReached(xp1, stored);
    RouteRankIsHighestReached(xp2, stored);
    RouteRankIsHighestReached(xp2, r1);
    RouteTableAscending();
    ScanUnique(xp2, ScanRank(RouteRankThresholds, xp2, stored), ScanRank(RouteRankThresholds, xp2, r1));
  }

  /** The two rank tables of the repository disagree: 100 XP is rank 2 for the
      route and rank 1 for the library, 8500 XP is rank 5 for the route and rank 7
      for the library; and the route's cap of 100 is not the library's 150. */
  lemma RankTablesDiverge()
    ensures ScanRank(RouteRankThresholds, 100, 1) == 2 && Roles.GetRankFromXp(100) == 1
    ensures ScanRank(RouteRankThresholds, 8500, 1) == 5 && Roles.GetRankFromXp(8500) == 7
    ensures DailyMessageCap != Roles.DailyXpLimit
  {
    RouteRankIsHighestReached(100, 1);
    RouteRankIsHighestReached(8500, 1);
  }

  // ---------------------------------------------------------------------------
  // The account's XP state and what one message does to it
  // ---------------------------------------------------------------------------

  /** The XP-related columns of a user row. */
  datatype XpState = XpState(xp: int, dailyXp: int, dailyXpDate: int, rank: int)

  /** The state after one message and the XP granted for it. */
  datatype MessageOutcome = MessageOutcome(state: XpState, grant: int)

  /** The state after one accepted message on day `today`, and the grant.
      With a grant, xp rises by it, the daily XP becomes effective plus grant, the
      day becomes today and the rank is checked; without one nothing changes. */
  function AfterMessage(s: XpState, today: int): (o: MessageOutcome)
    ensures 0 <= o.grant <= MessageXp
    ensures o.state.xp == s.xp + o.grant && o.state.rank >= s.rank
    ensures o.grant == 0 ==> o.state == s
  {
    var effective := EffectiveDailyXp(s.dailyXp, s.dailyXpDate, today);
    var grant := MessageGrant(effective);
    if grant > 0 then
      MessageOutcome(XpState(s.xp + grant, effective + grant, today, RankAfterCheck(s.xp + grant, s.rank)), grant)
    else
      MessageOutcome(s, 0)
  }

  /** What one message does, stated through the daily reset and the cap. */
  lemma AfterMessageEffect(s: XpState, today: int)
    ensures var t := AfterMessage(s, today).state;
            var g := AfterMessage(s, today).grant;
            var effective := EffectiveDailyXp(s.dailyXp, s.dailyXpDate, today);
            && (effective < DailyMessageCap ==>
                  && 1 <= g <= MessageXp
                  && t.xp == s.xp + g
                  && t.dailyXp == effective + g <= DailyMessageCap
                  && t.dailyXpDate == today
                  && t.rank >= s.rank)
            && (effective >= DailyMessageCap ==> g == 0 && t == s)
  {
  }

  /** The state after `n` accepted messages on the same day. */
  function AfterMessages(s: XpState, today: int, n: nat): (t: XpState)
    ensures s.xp <= t.xp <= s.xp + MessageXp * n
    ensures t.rank >= s.rank
  {
    if n == 0 then s else AfterMessage(AfterMessages(s, today, n - 1), today).state
  }

  function MinInt(a: int, b: int): int { if a <= b then a else b }

  /** However many messages are sent in one day, message XP grows by five per
      message until the daily total reaches the cap of 100, and then stops; and the
      rank reached is the one a single check at the final XP gives. */
  lemma {:induction false} MessagesInOneDay(s: XpState, today: int, n: nat)
    requires EffectiveDailyXp(s.dailyXp, s.dailyXpDate, today) <= DailyMessageCap
    ensures var e := EffectiveDailyXp(s.dailyXp, s.dailyXpDate, today);
            var t := AfterMessages(s, today, n);
            && t.xp == s.xp + MinInt(MessageXp * n, DailyMessageCap - e)
            && (n > 0 && e < DailyMessageCap ==> t.dailyXpDate == today && t.dailyXp == e + MinInt(MessageXp * n, DailyMessageCap - e))
            && t.rank >= s.rank
            && (0 <= s.xp && n > 0 && e < DailyMessageCap ==> t.rank == RankAfterCheck(t.xp, s.rank))
  {
    var e := EffectiveDailyXp(s.dailyXp, s.dailyXpDate, today);
    if n > 0 {
      MessagesInOneDay(s, today, n - 1);
      var u := AfterMessages(s, today, n - 1);
      AfterMessageEffect(u, today);
      if n - 1 == 0 {
        assert u == s;
      } else if e < DailyMessageCap {
        assert u.dailyXpDate == today;
        if 0 <= s.xp {
          RankCheckComposes(u.xp, AfterMessage(u, today).state.xp, s.rank);
        }
      } else {
        assert u == s by { AfterMessagesAtCap(s, today, n - 1); }
      }
    }
  }

  /** Once the cap is reached, further messages change nothing. */
  lemma {:induction false} AfterMessagesAtCap(s: XpState, today: int, n: nat)
    requires EffectiveDailyXp(s.dailyXp, s.dailyXpDate, today) >= DailyMessageCap
    ensures AfterMessages(s, today, n) == s
  {
    if n > 0 {
      AfterMessagesAtCap(s, today, n - 1);
    }
  }

  /** 95 daily XP: the next message grants 5 and the one after it nothing.
      100 daily XP from yesterday: the cap resets and the message grants 5. */
  lemma DailyCapExamples()
    ensures var o := AfterMessage(XpState(0, 95, 10, 1), 10);
            o.grant == 5 && o.state.dailyXp == 100 && AfterMessage(o.state, 10).grant == 0
    ensures var o := AfterMessage(XpState(0, 100, 9, 1), 10);
            o.grant == 5 && o.state.dailyXp == 5 && o.state.dailyXpDate == 10
  {
  }

  // ---------------------------------------------------------------------------
  // The user row
  // ---------------------------------------------------------------------------

  /** A user row, with the XP columns the route reads and writes. */
  class Account {
    const id: UserId
    var xp: int
    var dailyXp: int
    var dailyXpDate: int
    var rank: int

    constructor (id: UserId, xp: int, dailyXp: int, dailyXpDate: int, rank: int)
      ensures this.id == id && State() == XpState(xp, dailyXp, dailyXpDate, rank)
    {
      this.id := id;
      this.xp := xp;
      this.dailyXp := dailyXp;
      this.dailyXpDate := dailyXpDate;
      this.rank := rank;
    }

    function State(): XpState
      reads this
    {
      XpState(xp, dailyXp, dailyXpDate, rank)
    }

    /** The XP part of POST before the rank check: reset the daily XP when the
        stored day is not today, and below the cap add the grant to xp, set the
        daily XP and the day. Returns the grant (0 when nothing is written). */
    method GrantMessageXp(today: int) returns (granted: int)
      modifies this
      ensures granted == AfterMessage(old(State()), today).grant
      ensures granted > 0 ==> xp == old(xp) + granted
                              && dailyXp == EffectiveDailyXp(old(dailyXp), old(dailyXpDate), today) + granted
                              && dailyXpDate == today
      ensures granted == 0 ==> xp == old(xp) && dailyXp == old(dailyXp) && dailyXpDate == old(dailyXpDate)
      ensures rank == old(rank)
    {
      var newDailyXp := dailyXp;
      if dailyXpDate != today {
        newDailyXp := 0;
      }
      granted := 0;
      if newDailyXp < DailyMessageCap {
        var xpToAdd := if MessageXp <= DailyMessageCap - newDailyXp then MessageXp else DailyMessageCap - newDailyXp;
        xp := xp + xpToAdd;
        dailyXp := newDailyXp + xpToAdd;
        dailyXpDate := today;
        granted := xpToAdd;
      }
    }

    /** checkAndUpdateRank: scan the route's table keeping the last rank whose
        threshold is reached, and write it only if it is higher than the stored one. */
    method CheckAndUpdateRank()
      modifies this`rank
      ensures rank == RankAfterCheck(xp, old(rank))
      ensures rank >= old(rank)
    {
      var newRank := rank;
      for i := 0 to |RouteRankThresholds|
        invariant newRank == ScanRank(RouteRankThresholds[..i], xp, rank)
      {
        assert RouteRankThresholds[..i + 1][..i] == RouteRankThresholds[..i];
        if xp >= RouteRankThresholds[i].xp {
          newRank := RouteRankThresholds[i].rank;
        }
      }
      assert RouteRankThresholds[..|RouteRankThresholds|] == RouteRankThresholds;
      if newRank > rank {
        rank := newRank;
      }
    }
  }

  // ---------------------------------------------------------------------------
  // Messages and the page selection of GET
  // ---------------------------------------------------------------------------

  datatype Message = Message(channelId: string, userId: UserId, content: string, imageUrl: Option<string>)

  /** One row of the XP log. */
  datatype XpLogEntry = XpLogEntry(userId: UserId, amount: int, reason: string)

  /** A request field counts as given when present and not the empty string. */
  predicate Given(field: Option<string>)
  {
    field.Some? && field.value != ""
  }

  function Reverse<T>(s: seq<T>): (r: seq<T>)
    ensures |r| == |s|
  {
    if s == [] then [] else Reverse(s[1..]) + [s[0]]
  }

  lemma {:induction false} ReverseAt<T>(s: seq<T>, k: int)
    requires 0 <= k < |s|
    ensures Reverse(s)[k] == s[|s| - 1 - k]
  {
    if k < |s| - 1 {
      ReverseAt(s[1..], k);
    }
  }

  /** The messages of one channel, oldest first. */
  function ChannelHistory(messages: seq<Message>, channelId: string): (h: seq<Message>)
    ensures |h| <= |messages|
    ensures forall m :: m in h ==> m in messages && m.channelId == channelId
    ensures forall m :: m in messages && m.channelId == channelId ==> m in h
  {
    if messages == [] then []
    else
      var rest := ChannelHistory(messages[..|messages| - 1], channelId);
      var last := messages[|messages| - 1];
      if last.channelId == channelId then rest + [last] else rest
  }

  /** The history holds each message of the channel exactly as many times as the
      store does, and nothing of any other channel. */
  lemma {:induction false} ChannelHistoryCounts(messages: seq<Message>, channelId: string, m: Message)
    ensures multiset(ChannelHistory(messages, channelId))[m]
            == if m.channelId == channelId then multiset(messages)[m] else 0
  {
    if messages != [] {
      var front := messages[..|messages| - 1];
      var last := messages[|messages| - 1];
      assert messages == front + [last];
      ChannelHistoryCounts(front, channelId, m);
      var rest := ChannelHistory(front, channelId);
      assert multiset(rest + [last]) == multiset(rest) + multiset{last};
    }
  }

  /** Storing a message appends it to its channel's history and leaves every other
      channel's history as it was. */
  lemma ChannelHistoryAppend(messages: seq<Message>, m: Message, channelId: string)
    ensures ChannelHistory(messages + [m], channelId)
            == ChannelHistory(messages, channelId) + (if m.channelId == channelId then [m] else [])
  {
    assert (messages + [m])[..|messages|] == messages;
  }

  /** After a message is stored, the next GET of its channel at offset 0 with a
      positive limit ends with that message. */
  lemma StoredMessageEndsFirstPage(messages: seq<Message>, m: Message, limit: nat)
    requires limit > 0
    ensures var page := Page(ChannelHistory(messages + [m], m.channelId), limit, 0);
            |page| > 0 && page[|page| - 1] == m
  {
    var history := ChannelHistory(messages + [m], m.channelId);
    ChannelHistoryAppend(messages, m, m.channelId);
    PageIsSlice(history, limit, 0);
  }

  /** What GET returns for a channel history (oldest first): order newest first,
      skip `offset`, take `limit`, and reverse back to oldest first. */
  function Page<T>(history: seq<T>, limit: nat, offset: nat): (page: seq<T>)
    ensures |page| <= limit && |page| <= |history|
  {
    var newestFirst := Reverse(history);
    var skipped := if offset <= |newestFirst| then newestFirst[offset..] else [];
    var taken := if limit <= |skipped| then skipped[..limit] else skipped;
    Reverse(taken)
  }

  /** The page is the contiguous run of the history that ends `offset` messages
      before the newest and holds at most `limit` messages, in time order. */
  lemma PageIsSlice<T>(history: seq<T>, limit: nat, offset: nat)
    ensures var hi := if offset <= |history| then |history| - offset else 0;
            var lo := if limit <= hi then hi - limit else 0;
            Page(history, limit, offset) == history[lo..hi]
  {
    var n := |history|;
    var hi := if offset <= n then n - offset else 0;
    var lo := if limit <= hi then hi - limit else 0;
    var newestFirst := Reverse(history);
    var skipped := if offset <= n then newestFirst[offset..] else [];
    var taken := if limit <= |skipped| then skipped[..limit] else skipped;
    assert |taken| == hi - lo;
    var page := Reverse(taken);
    forall k | 0 <= k < hi - lo
      ensures page[k] == history[lo + k]
    {
      ReverseAt(taken, k);
      var j := |taken| - 1 - k;
      assert taken[j] == newestFirst[offset + j];
      ReverseAt(history, offset + j);
    }
  }

  /** GET's result is never longer than the limit, and a page taken with no
      offset and a limit at least the history's length is the whole history. */
  lemma PageBounds<T>(history: seq<T>, limit: nat, offset: nat)
    ensures |Page(history, limit, offset)| <= limit
    ensures |Page(history, limit, offset)| <= |history|
    ensures offset == 0 && |history| <= limit ==> Page(history, limit, offset) == history
  {
    PageIsSlice(history, limit, offset);
  }

  /** Consecutive offsets tile the history: the page at `offset + limit` followed by
      the page at `offset` is the page of twice the size at `offset`. */
  lemma PagesTile<T>(history: seq<T>, limit: nat, offset: nat)
    ensures Page(history, limit, offset + limit) + Page(history, limit, offset)
            == Page(history, 2 * limit, offset)
  {
    PageIsSlice(history, limit, offset);
    PageIsSlice(history, limit, offset + limit);
    PageIsSlice(history, 2 * limit, offset);
  }

  // ---------------------------------------------------------------------------
  // The store and the two handlers
  // ---------------------------------------------------------------------------

  /** The rows the route reads and writes: messages in creation order, the XP log,
      and the users by id. */
  class Forum {
    var messages: seq<Message>
    var xpLog: seq<XpLogEntry>
    var accounts: map<UserId, Account>

    /** Every user row is stored under its own id, so distinct ids are distinct rows. */
    ghost predicate Valid()
      reads this, accounts.Values
    {
      forall u :: u in accounts ==> accounts[u].id == u
    }

    constructor (accounts: map<UserId, Account>)
      requires forall u :: u in accounts ==> accounts[u].id == u
      ensures Valid() && this.accounts == accounts && messages == [] && xpLog == []
    {
      this.messages := [];
      this.xpLog := [];
      this.accounts := accounts;
    }

    /** GET: 400 without a channel id, otherwise the page of the channel's messages
        (limit 50 and offset 0 when not given). */
    function Get(channelId: Option<string>, limit: Option<nat>, offset: Option<nat>): (r: Result<seq<Message>>)
      reads this
      ensures !Given(channelId) <==> r == Failure(400)
      ensures r.Success? ==> |r.value| <= (if limit.Some? then limit.value else DefaultLimit)
      ensures r.Success? ==> forall m :: m in r.value ==> m in messages && m.channelId == channelId.value
      ensures r.Success? ==>
                var history := ChannelHistory(messages, channelId.value);
                var skip := if offset.Some? then offset.value else DefaultOffset;
                var take := if limit.Some? then limit.value else DefaultLimit;
                var hi := if skip <= |history| then |history| - skip else 0;
                var lo := if take <= hi then hi - take else 0;
                r.value == history[lo..hi]
    {
      if !Given(channelId) then Failure(400)
      else
        var take := if limit.Some? then limit.value else DefaultLimit;
        var skip := if offset.Some? then offset.value else DefaultOffset;
        var history := ChannelHistory(messages, channelId.value);
        var page := Page(history, take, skip);
        PageIsSlice(history, take, skip);
        Success(page)
    }

    /** POST: 401 without a session, 400 without a channel or content; otherwise the
        message is stored, the sender's row (if found) gets the message XP under the
        daily cap, a grant is logged and followed by the rank check, and the answer is 201. */
    method Post(session: Option<UserId>, channelId: Option<string>, content: Option<string>,
                imageUrl: Option<string>, today: int) returns (status: int)
      requires Valid()
      modifies this, accounts.Values
      ensures Valid() && accounts == old(accounts)
      ensures session.None? ==> status == 401
      ensures session.Some? && !(Given(channelId) && Given(content)) ==> status == 400
      ensures status != 201 ==> messages == old(messages) && xpLog == old(xpLog)
      ensures status != 201 ==> forall u :: u in accounts ==> accounts[u].State() == old(accounts[u].State())
      ensures session.Some? && Given(channelId) && Given(content) ==>
                && status == 201
                && messages == old(messages) + [Message(channelId.value, session.value, content.value, imageUrl)]
                && (session.value !in accounts ==> xpLog == old(xpLog))
                && (session.value in accounts ==>
                      var o := AfterMessage(old(accounts[session.value].State()), today);
                      && accounts[session.value].State() == o.state
                      && xpLog == old(xpLog) + (if o.grant > 0 then [XpLogEntry(session.value, o.grant, MessageReason)] else []))
      ensures forall u :: u in accounts && session != Some(u) ==> accounts[u].State() == old(accounts[u].State())
    {
      if session.None? {
        return 401;
      }
      if !Given(channelId) || !Given(content) {
        return 400;
      }
      var userId := session.value;
      messages := messages + [Message(channelId.value, userId, content.value, imageUrl)];
      if userId in accounts {
        var user := accounts[userId];
        var granted := user.GrantMessageXp(today);
        if granted > 0 {
          xpLog := xpLog + [XpLogEntry(userId, granted, MessageReason)];
          user.CheckAndUpdateRank();
        }
      }
      return 201;
    }
  }
}
