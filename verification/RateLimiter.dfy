/** The submission token bucket (internal/smtpd/rate.go), over reals and in hours. */
module RateLimiter {
  import opened Runs

  const EXPIRY: real := 0.5
  const MAX_ENTRIES := 10000

  /** Hourly rates and burst sizes, for messages and for recipients. */
  datatype Rates = Rates(messages: real, recipients: real, msgBurst: real, rcptBurst: real)

  predicate RatesOk(p: Rates) {
    p.messages >= 0.0 && p.recipients >= 0.0 && p.msgBurst >= 1.0 && p.rcptBurst >= 1.0
  }

  /** Rates as a limiter is built with: bursts are whole numbers, and none is above its rate unless that is zero. */
  predicate Configured(p: Rates, msgBurst: int, rcptBurst: int) {
    && RatesOk(p) && p.msgBurst == msgBurst as real && p.rcptBurst == rcptBurst as real
    && (p.messages > 0.0 ==> p.msgBurst <= p.messages) && (p.recipients > 0.0 ==> p.rcptBurst <= p.recipients)
  }

  datatype Allowance = Allowance(messages: real, recipients: real, updated: real, seen: real)

  type Entries = map<string, Allowance>

  /** The tokens a user has. */
  datatype Level = Level(messages: real, recipients: real)

  function Min(a: real, b: real): real {
    if a < b then a else b
  }

  /** The tokens that a time brings. */
  function Gain(hours: real, rate: real): real {
    hours * rate
  }

  lemma GainGrows(less: real, more: real, rate: real)
    requires less <= more && rate >= 0.0
    ensures Gain(less, rate) <= Gain(more, rate)
    ensures less >= 0.0 ==> Gain(less, rate) >= 0.0
  {
    assert (more - less) * rate >= 0.0;
  }

  lemma GainAdds(a: real, b: real, rate: real)
    ensures Gain(a + b, rate) == Gain(a, rate) + Gain(b, rate)
  {
  }

  function Refill(p: Rates, a: Allowance, now: real): Allowance {
    var hours := now - a.updated;
    if hours <= 0.0 then a.(updated := now)
    else a.(messages := Min(a.messages + Gain(hours, p.messages), p.msgBurst),
            recipients := Min(a.recipients + Gain(hours, p.recipients), p.rcptBurst), updated := now)
  }

  predicate AllowanceOk(p: Rates, a: Allowance, now: real) {
    0.0 <= a.messages <= p.msgBurst && 0.0 <= a.recipients <= p.rcptBurst && a.updated == a.seen <= now
  }

  predicate EntriesOk(p: Rates, entries: Entries, now: real) {
    RatesOk(p) && forall u :: u in entries ==> AllowanceOk(p, entries[u], now)
  }

  /** What a user could spend at a time; an unknown user starts with the bursts. */
  function LevelAt(p: Rates, entries: Entries, u: string, now: real): Level {
    if u in entries then var a := Refill(p, entries[u], now); Level(a.messages, a.recipients)
    else Level(p.msgBurst, p.rcptBurst)
  }

  function Idle(a: Allowance, now: real): bool {
    now - a.seen > EXPIRY
  }

  function Pruned(entries: Entries, now: real): Entries {
    map u | u in entries && !Idle(entries[u], now) :: entries[u]
  }

  predicate Enough(level: Level, n: nat) {
    level.messages >= 1.0 && level.recipients >= n as real
  }

  function Less(l: Level, n: nat): Level {
    Level(l.messages - 1.0, l.recipients - n as real)
  }

  /** A user's entry, or the one a new user starts with. */
  function EntryOf(p: Rates, entries: Entries, u: string, now: real): Allowance {
    if u in entries then entries[u] else Allowance(p.msgBurst, p.rcptBurst, now, now)
  }

  /** The entry after an attempt to spend. */
  function Charged(p: Rates, a: Allowance, n: nat, now: real): Allowance {
    var b := Refill(p, a, now).(seen := now);
    if Enough(Level(b.messages, b.recipients), n)
    then b.(messages := b.messages - 1.0, recipients := b.recipients - n as real)
    else b
  }

  /** No room for a new user. */
  predicate Full(entries: Entries, u: string) {
    u !in entries && |entries| >= MAX_ENTRIES
  }

  function Taken(p: Rates, entries: Entries, u: string, n: nat, now: real): Entries {
    if Full(entries, u) then entries else entries[u := Charged(p, EntryOf(p, entries, u, now), n, now)]
  }

  lemma RefillOk(p: Rates, a: Allowance, now: real)
    requires RatesOk(p) && AllowanceOk(p, a, now)
    ensures AllowanceOk(p, Refill(p, a, now).(seen := now), now)
  {
    var hours := now - a.updated;
    GainGrows(hours, hours, p.messages);
    GainGrows(hours, hours, p.recipients);
  }

  lemma ChargedOk(p: Rates, a: Allowance, n: nat, now: real)
    requires RatesOk(p) && AllowanceOk(p, a, now)
    ensures AllowanceOk(p, Charged(p, a, n, now), now)
  {
    RefillOk(p, a, now);
  }

  lemma LaterOk(p: Rates, entries: Entries, before: real, now: real)
    requires EntriesOk(p, entries, before) && before <= now
    ensures EntriesOk(p, entries, now)
  {
  }

  lemma TakenOk(p: Rates, entries: Entries, u: string, n: nat, now: real)
    requires EntriesOk(p, entries, now) && |entries| <= MAX_ENTRIES
    ensures EntriesOk(p, Taken(p, entries, u, n, now), now) && |Taken(p, entries, u, n, now)| <= MAX_ENTRIES
  {
    ChargedOk(p, EntryOf(p, entries, u, now), n, now);
    var after := Taken(p, entries, u, n, now);
    assert after.Keys <= entries.Keys + {u};
    SubsetSize(after.Keys, entries.Keys + {u});
  }

  // ---------- the limiter as a table ----------

  /** The entries and the time of the last sweep. */
  datatype Table = Table(entries: Entries, pruned: real)

  /** A request sweeps when it is time to, or when there is no room for a new user. */
  function Swept(t: Table, u: string, now: real): Table {
    if now - t.pruned >= EXPIRY || Full(t.entries, u) then Table(Pruned(t.entries, now), now) else t
  }

  /** Whether a request is granted, and the table after it. */
  predicate Granted(p: Rates, t: Table, u: string, n: nat, now: real) {
    var kept := Swept(t, u, now).entries;
    !Full(kept, u) && Enough(LevelAt(p, kept, u, now), n)
  }

  function After(p: Rates, t: Table, u: string, n: nat, now: real): Table {
    var kept := Swept(t, u, now);
    Table(Taken(p, kept.entries, u, n, now), kept.pruned)
  }

  function Burst(wanted: int, rate: nat): (b: int)
    ensures b >= 1 && (rate > 0 ==> b <= rate)
  {
    var b := if wanted <= 0 then 1 else wanted;
    if b > rate && rate > 0 then rate else b
  }

  class Limiter {
    const rates: Rates
    var entries: Entries
    var pruned: real
    /** The latest clock value used. */
    ghost var clock: real

    ghost predicate Valid() reads this {
      EntriesOk(rates, entries, clock) && |entries| <= MAX_ENTRIES
    }

    constructor (maxMessages: nat, maxRecipients: nat, msgBurst: int, rcptBurst: int, now: real)
      ensures Valid() && entries == map[] && pruned == now && clock == now
      ensures rates.messages == maxMessages as real && rates.recipients == maxRecipients as real
      ensures rates.msgBurst == Burst(msgBurst, maxMessages) as real
      ensures rates.rcptBurst == Burst(rcptBurst, maxRecipients) as real
      ensures Configured(rates, Burst(msgBurst, maxMessages), Burst(rcptBurst, maxRecipients))
    {
      var m, r := Burst(msgBurst, maxMessages), Burst(rcptBurst, maxRecipients);
      rates := Rates(maxMessages as real, maxRecipients as real, m as real, r as real);
      entries, pruned, clock := map[], now, now;
    }

    /** Drops idle entries. */
    method ForcePrune(now: real)
      requires Valid() && clock <= now
      modifies `entries, `pruned, `clock
      ensures Valid() && clock == now && entries == Pruned(old(entries), now) && pruned == now
    {
      pruned := now;
      clock := now;
      entries := Pruned(entries, now);
      FewerEntries(old(entries), entries);
    }

    /** Makes the sweep that a request of the user may need. */
    method MakeRoom(u: string, now: real) returns (full: bool)
      requires Valid() && clock <= now
      modifies `entries, `pruned, `clock
      ensures Valid() && clock == now && full == Full(entries, u)
      ensures Table(entries, pruned) == Swept(old(Table(entries, pruned)), u, now)
    {
      LaterOk(rates, entries, clock, now);
      clock := now;
      if now - pruned >= EXPIRY {
        ForcePrune(now);
      }
      if u !in entries && |entries| >= MAX_ENTRIES {
        PrunedTwice(old(entries), now);
        ForcePrune(now);
      }
      full := u !in entries && |entries| >= MAX_ENTRIES;
    }

    /** Spends a message and its recipients, if the user has the tokens and there is room for the user. */
    method Take(u: string, n: nat, now: real) returns (ok: bool)
      requires Valid() && clock <= now
      modifies `entries, `pruned, `clock
      ensures Valid() && clock == now
      ensures ok == Granted(rates, old(Table(entries, pruned)), u, n, now)
      ensures Table(entries, pruned) == After(rates, old(Table(entries, pruned)), u, n, now)
    {
      var full := MakeRoom(u, now);
      if full { return false; }
      ghost var kept := entries;
      var a := if u in entries then entries[u] else Allowance(rates.msgBurst, rates.rcptBurst, now, now);
      a := Refill(rates, a, now).(seen := now);
      ok := !(a.messages < 1.0 || a.recipients < n as real);
      if ok {
        a := a.(messages := a.messages - 1.0, recipients := a.recipients - n as real);
      }
      TakenOk(rates, kept, u, n, now);
      entries := entries[u := a];
    }

    /** Any sequence of requests by any users with a clock that does not go back. Where the rates allow it, a user
        gets in the window between any two requests at most the burst and what the rate brings in that time. A new
        limiter refuses nothing else: a request is refused only if it would exceed that bound for some window, or
        if there is no room for its user. */
    method AnyRun(requests: seq<Request>) returns (oks: seq<bool>)
      requires Valid() && InOrder(requests) && (requests != [] ==> clock <= requests[0].now)
      modifies `entries, `pruned, `clock
      ensures Valid() && oks == Grants(rates, old(Table(entries, pruned)), requests, |requests|)
      ensures Safe(rates, old(entries), requests) ==> AllWithin(rates, requests, oks)
      ensures old(entries) == map[] ==> RefusedForCause(rates, requests, oks)
    {
      oks := [];
      ghost var start, was := Table(entries, pruned), clock;
      for k := 0 to |requests|
        invariant k < |requests| ==> clock <= requests[k].now
        invariant Valid() && oks == Grants(rates, start, requests, k)
        invariant Table(entries, pruned) == TableAfter(rates, start, requests, k)
      {
        var ok := Take(requests[k].user, requests[k].n, requests[k].now);
        oks := oks + [ok];
      }
      if Safe(rates, start.entries, requests) {
        WindowsHold(rates, start, was, requests);
      }
      if start.entries == map[] {
        RefusalsNeeded(rates, start, was, requests);
      }
    }
  }

  /** The limiter as a machine that answers requests. */
  function Limiting(p: Rates): Machine<Table, Request> {
    Machine(
      (t: Table, q: Request) => After(p, t, q.user, q.n, q.now),
      (t: Table, q: Request) => Granted(p, t, q.user, q.n, q.now))
  }

  /** The table after the first k requests, and what was granted. */
  function TableAfter(p: Rates, t: Table, requests: seq<Request>, k: nat): Table
    requires k <= |requests|
  {
    StateAfter(Limiting(p), t, requests, k)
  }

  function Grants(p: Rates, t: Table, requests: seq<Request>, k: nat): (oks: seq<bool>)
    requires k <= |requests|
    ensures |oks| == k
  {
    Answers(Limiting(p), t, requests, k)
  }

  datatype Request = Request(user: string, n: nat, now: real)

  predicate InOrder(requests: seq<Request>) {
    forall i, j :: 0 <= i < j < |requests| ==> requests[i].now <= requests[j].now
  }

  /** What a user was granted from request i up to request j. */
  function Messages(requests: seq<Request>, oks: seq<bool>, u: string, i: nat, j: nat): nat
    requires |oks| <= |requests| && j <= |oks|
  {
    if j <= i then 0
    else Messages(requests, oks, u, i, j - 1) + if oks[j - 1] && requests[j - 1].user == u then 1 else 0
  }

  function Recipients(requests: seq<Request>, oks: seq<bool>, u: string, i: nat, j: nat): nat
    requires |oks| <= |requests| && j <= |oks|
  {
    if j <= i then 0
    else
      Recipients(requests, oks, u, i, j - 1)
      + if oks[j - 1] && requests[j - 1].user == u then requests[j - 1].n else 0
  }

  /** Between requests i and j a user was granted no more than the burst and what the rate brings. */
  predicate Within(p: Rates, requests: seq<Request>, oks: seq<bool>, u: string, i: nat, j: nat)
    requires |oks| <= |requests| && i < j <= |oks|
  {
    var hours := requests[j - 1].now - requests[i].now;
    && Messages(requests, oks, u, i, j) as real <= p.msgBurst + Gain(hours, p.messages)
    && Recipients(requests, oks, u, i, j) as real <= p.rcptBurst + Gain(hours, p.recipients)
  }

  /** What was granted and what is left stay within the burst and the gain. */
  predicate Holds(p: Rates, requests: seq<Request>, oks: seq<bool>, u: string, i: nat, j: nat, left: Level)
    requires |oks| <= |requests| && i < j <= |oks|
  {
    var hours := requests[j - 1].now - requests[i].now;
    && Messages(requests, oks, u, i, j) as real + left.messages <= p.msgBurst + Gain(hours, p.messages)
    && Recipients(requests, oks, u, i, j) as real + left.recipients <= p.rcptBurst + Gain(hours, p.recipients)
  }

  lemma {:induction false} SameCount(requests: seq<Request>, oks: seq<bool>, all: seq<bool>, u: string, i: nat, j: nat)
    requires |all| <= |requests| && |oks| <= |all| && all[..|oks|] == oks && j <= |oks|
    ensures Messages(requests, all, u, i, j) == Messages(requests, oks, u, i, j)
    ensures Recipients(requests, all, u, i, j) == Recipients(requests, oks, u, i, j)
    decreases j
  {
    if i < j {
      SameCount(requests, oks, all, u, i, j - 1);
      assert all[j - 1] == all[..|oks|][j - 1];
    }
  }

  /** In time a level rises by at most the gain. */
  lemma LevelRises(p: Rates, entries: Entries, u: string, before: real, now: real)
    requires EntriesOk(p, entries, before) && before <= now
    ensures
      var a, b := LevelAt(p, entries, u, before), LevelAt(p, entries, u, now);
      && 0.0 <= b.messages <= p.msgBurst && b.messages <= a.messages + Gain(now - before, p.messages)
      && 0.0 <= b.recipients <= p.rcptBurst && b.recipients <= a.recipients + Gain(now - before, p.recipients)
  {
    GainGrows(now - before, now - before, p.messages);
    GainGrows(now - before, now - before, p.recipients);
    if u in entries {
      var upd := entries[u].updated;
      RefillOk(p, entries[u], now);
      GainAdds(before - upd, now - before, p.messages);
      GainAdds(before - upd, now - before, p.recipients);
      assert (before - upd) + (now - before) == now - upd;
    }
  }

  /** Taking changes the user's level by what was granted. */
  lemma TakenLevel(p: Rates, entries: Entries, u: string, n: nat, now: real, v: string)
    requires EntriesOk(p, entries, now)
    ensures
      var ok := !Full(entries, u) && Enough(LevelAt(p, entries, u, now), n);
      var l := LevelAt(p, entries, v, now);
      LevelAt(p, Taken(p, entries, u, n, now), v, now) ==
        if ok && v == u then Level(l.messages - 1.0, l.recipients - n as real) else l
  {
  }

  lemma CountMore(requests: seq<Request>, oks: seq<bool>, ok: bool, u: string, i: nat)
    requires |oks| < |requests| && i <= |oks|
    ensures
      var k, all := |oks|, oks + [ok];
      var granted := ok && requests[k].user == u;
      && Messages(requests, all, u, i, k + 1) ==
         (if i < k then Messages(requests, oks, u, i, k) else 0) + (if granted then 1 else 0)
      && Recipients(requests, all, u, i, k + 1) ==
         (if i < k then Recipients(requests, oks, u, i, k) else 0) + (if granted then requests[k].n else 0)
  {
    SameCount(requests, oks, oks + [ok], u, i, |oks|);
  }

  /** How a request moves the level of a user: it rises with time, and falls by what is granted. */
  lemma LevelMoves(p: Rates, t: Table, was: real, q: Request, u: string)
    requires EntriesOk(p, t.entries, was) && was <= q.now && Recover(p, t.entries)
    ensures
      var before, risen := LevelAt(p, t.entries, u, was), LevelAt(p, t.entries, u, q.now);
      var left := LevelAt(p, After(p, t, q.user, q.n, q.now).entries, u, q.now);
      var granted := Granted(p, t, q.user, q.n, q.now) && q.user == u;
      && risen.messages <= p.msgBurst && risen.messages <= before.messages + Gain(q.now - was, p.messages)
      && risen.recipients <= p.rcptBurst && risen.recipients <= before.recipients + Gain(q.now - was, p.recipients)
      && left == (if granted then Less(risen, q.n) else risen) && left.messages >= 0.0 && left.recipients >= 0.0
  {
    LaterOk(p, t.entries, was, q.now);
    PruneInvisible(p, t.entries, q.now, u, q.now);
    PruneInvisible(p, t.entries, q.now, q.user, q.now);
    LevelRises(p, t.entries, u, was, q.now);
    TakenLevel(p, Swept(t, q.user, q.now).entries, q.user, q.n, q.now, u);
  }

  /** The arithmetic of one account: `count` and `before` against the gain of `hours`, then `more` hours. */
  lemma Balance(burst: real, rate: real, hours: real, more: real, count: int, before: real, risen: real, spent: nat)
    requires count as real + before <= burst + Gain(hours, rate) && risen <= before + Gain(more, rate)
    ensures (count + spent) as real + (risen - spent as real) <= burst + Gain(hours + more, rate)
  {
    GainAdds(hours, more, rate);
  }

  /** One request more keeps the account of a user. */
  lemma OneMore(p: Rates, t: Table, was: real, requests: seq<Request>, oks: seq<bool>, k: nat, u: string, i: nat)
    requires k < |requests| && |oks| == k && i <= k && Recover(p, t.entries)
    requires EntriesOk(p, t.entries, was) && was <= requests[k].now && (k > 0 ==> was == requests[k - 1].now)
    requires i < k ==> Holds(p, requests, oks, u, i, k, LevelAt(p, t.entries, u, was))
    ensures
      var q := requests[k];
      var all := oks + [Granted(p, t, q.user, q.n, q.now)];
      var left := LevelAt(p, After(p, t, q.user, q.n, q.now).entries, u, q.now);
      Holds(p, requests, all, u, i, k + 1, left) && left.messages >= 0.0 && left.recipients >= 0.0
  {
    var q := requests[k];
    var granted := Granted(p, t, q.user, q.n, q.now);
    var left := LevelAt(p, After(p, t, q.user, q.n, q.now).entries, u, q.now);
    var before, risen := LevelAt(p, t.entries, u, was), LevelAt(p, t.entries, u, q.now);
    LevelMoves(p, t, was, q, u);
    AddRequest(p, requests, oks, granted, u, i, was, before, risen, left);
  }

  lemma AddRequest(
    p: Rates, requests: seq<Request>, oks: seq<bool>, ok: bool, u: string, i: nat, was: real, before: Level,
    risen: Level, left: Level)
    requires |oks| < |requests| && i <= |oks| && (|oks| > 0 ==> was == requests[|oks| - 1].now)
    requires i < |oks| ==> Holds(p, requests, oks, u, i, |oks|, before)
    requires
      var q := requests[|oks|];
      && risen.messages <= p.msgBurst && risen.messages <= before.messages + Gain(q.now - was, p.messages)
      && risen.recipients <= p.rcptBurst && risen.recipients <= before.recipients + Gain(q.now - was, p.recipients)
      && left == if ok && q.user == u then Less(risen, q.n) else risen
    ensures Holds(p, requests, oks + [ok], u, i, |oks| + 1, left)
  {
    var k := |oks|;
    var q := requests[k];
    var granted := ok && q.user == u;
    CountMore(requests, oks, ok, u, i);
    if i < k {
      var hours, more := was - requests[i].now, q.now - was;
      assert hours + more == q.now - requests[i].now;
      Balance(p.msgBurst, p.messages, hours, more, Messages(requests, oks, u, i, k), before.messages, risen.messages,
        if granted then 1 else 0);
      Balance(p.rcptBurst, p.recipients, hours, more, Recipients(requests, oks, u, i, k), before.recipients,
        risen.recipients, if granted then q.n else 0);
    } else {
      assert Gain(0.0, p.messages) == 0.0 && Gain(0.0, p.recipients) == 0.0;
    }
  }

  lemma {:induction false} TablesOk(p: Rates, t: Table, was: real, requests: seq<Request>, k: nat)
    requires EntriesOk(p, t.entries, was) && |t.entries| <= MAX_ENTRIES && k <= |requests|
    requires InOrder(requests) && (requests != [] ==> was <= requests[0].now)
    ensures
      var e := TableAfter(p, t, requests, k).entries;
      EntriesOk(p, e, if k == 0 then was else requests[k - 1].now) && |e| <= MAX_ENTRIES
    decreases k
  {
    if k > 0 {
      TablesOk(p, t, was, requests, k - 1);
      var q, before := requests[k - 1], TableAfter(p, t, requests, k - 1);
      LaterOk(p, before.entries, if k == 1 then was else requests[k - 2].now, q.now);
      FewerEntries(before.entries, Pruned(before.entries, q.now));
      TakenOk(p, Swept(before, q.user, q.now).entries, q.user, q.n, q.now);
    }
  }

  /** A user's account from request i on. */
  lemma {:induction false} AccountHolds(p: Rates, t: Table, was: real, requests: seq<Request>, u: string, i: nat,
                                        k: nat)
    requires EntriesOk(p, t.entries, was) && |t.entries| <= MAX_ENTRIES && i < k <= |requests|
    requires InOrder(requests) && was <= requests[0].now && Safe(p, t.entries, requests)
    ensures
      var left := LevelAt(p, TableAfter(p, t, requests, k).entries, u, requests[k - 1].now);
      var oks := Grants(p, t, requests, k);
      Holds(p, requests, oks, u, i, k, left) && Within(p, requests, oks, u, i, k)
    decreases k
  {
    var before := if k == 1 then was else requests[k - 2].now;
    TablesOk(p, t, was, requests, k - 1);
    TablesRecover(p, t, was, requests, k - 1);
    if i < k - 1 {
      AccountHolds(p, t, was, requests, u, i, k - 1);
    }
    AccountGoesOn(p, t, before, requests, u, i, k - 1);
  }

  lemma AccountGoesOn(p: Rates, t: Table, was: real, requests: seq<Request>, u: string, i: nat, k: nat)
    requires i <= k < |requests| && was <= requests[k].now && (k > 0 ==> was == requests[k - 1].now)
    requires
      var before := TableAfter(p, t, requests, k);
      && EntriesOk(p, before.entries, was) && Recover(p, before.entries)
      && (i < k ==> Holds(p, requests, Grants(p, t, requests, k), u, i, k, LevelAt(p, before.entries, u, was)))
    ensures
      var left := LevelAt(p, TableAfter(p, t, requests, k + 1).entries, u, requests[k].now);
      var oks := Grants(p, t, requests, k + 1);
      Holds(p, requests, oks, u, i, k + 1, left) && Within(p, requests, oks, u, i, k + 1)
  {
    var before := TableAfter(p, t, requests, k);
    NextTable(p, t, requests, k, before);
    NextGrant(p, t, requests, k, before);
    OneMore(p, before, was, requests, Grants(p, t, requests, k), k, u, i);
  }

  /** Where the rates allow it every window is within bounds. */
  lemma WindowsHold(p: Rates, t: Table, was: real, requests: seq<Request>)
    requires EntriesOk(p, t.entries, was) && |t.entries| <= MAX_ENTRIES && Safe(p, t.entries, requests)
    requires InOrder(requests) && (requests != [] ==> was <= requests[0].now)
    ensures AllWithin(p, requests, Grants(p, t, requests, |requests|))
  {
    var oks := Grants(p, t, requests, |requests|);
    forall u, i, j | 0 <= i < j <= |requests| ensures Within(p, requests, oks, u, i, j) {
      AccountHolds(p, t, was, requests, u, i, j);
      AnswersPrefix(Limiting(p), t, requests, j, |requests|);
      SameCount(requests, Grants(p, t, requests, j), oks, u, i, j);
    }
  }

  // ---------- what is refused had to be ----------

  /** With request k the user of that request would have got, since request i, more than the burst and what the rate
      brings. */
  predicate Overdraws(p: Rates, requests: seq<Request>, oks: seq<bool>, i: nat, k: nat)
    requires i <= k < |requests| && k <= |oks| <= |requests|
  {
    var q, hours := requests[k], requests[k].now - requests[i].now;
    || (Messages(requests, oks, q.user, i, k) + 1) as real > p.msgBurst + Gain(hours, p.messages)
    || (Recipients(requests, oks, q.user, i, k) + q.n) as real > p.rcptBurst + Gain(hours, p.recipients)
  }

  /** As many other users as there is room for have made a request since the expiry. */
  ghost predicate Crowded(requests: seq<Request>, k: nat)
    requires k < |requests|
  {
    exists users: set<string> ::
      |users| >= MAX_ENTRIES && requests[k].user !in users && forall v :: v in users ==> Recent(requests, k, v)
  }

  ghost predicate Recent(requests: seq<Request>, k: nat, v: string)
    requires k < |requests|
  {
    exists i :: 0 <= i < k && requests[i].user == v && requests[k].now - requests[i].now <= EXPIRY
  }

  /** A request is refused only for want of room, or because it would exceed the bound of some window. */
  ghost predicate RefusedForCause(p: Rates, requests: seq<Request>, oks: seq<bool>)
    requires |oks| == |requests|
  {
    forall k :: 0 <= k < |requests| && !oks[k] ==>
      Crowded(requests, k) || exists i :: 0 <= i <= k && Overdraws(p, requests, oks, i, k)
  }

  /** The level leaves at least what the window from request i allows. */
  predicate Leaves(burst: real, rate: real, hours: real, count: int, level: real) {
    level >= burst + Gain(hours, rate) - count as real
  }

  /** In time a level rises by the gain unless that exceeds the burst, and forgetting a user never lowers it. */
  lemma RisesFully(p: Rates, t: Table, q: Request, u: string, was: real)
    requires EntriesOk(p, t.entries, was) && was <= q.now
    ensures
      var a, b := LevelAt(p, t.entries, u, was), LevelAt(p, Swept(t, q.user, q.now).entries, u, q.now);
      && (b.messages >= p.msgBurst || b.messages >= a.messages + Gain(q.now - was, p.messages))
      && (b.recipients >= p.rcptBurst || b.recipients >= a.recipients + Gain(q.now - was, p.recipients))
  {
    if u in t.entries {
      var upd := t.entries[u].updated;
      GainAdds(was - upd, q.now - was, p.messages);
      GainAdds(was - upd, q.now - was, p.recipients);
      assert (was - upd) + (q.now - was) == q.now - upd;
      RefillOk(p, t.entries[u], was);
    }
  }

  /** The tables of a run, what they answer, and that they are in order. */
  ghost predicate Chain(p: Rates, tables: seq<Table>, requests: seq<Request>, oks: seq<bool>) {
    && |tables| == |requests| == |oks| && InOrder(requests)
    && forall k :: 0 <= k < |requests| ==> LinkAt(p, tables, requests, oks, k)
  }

  ghost predicate LinkAt(p: Rates, tables: seq<Table>, requests: seq<Request>, oks: seq<bool>, k: nat)
    requires |tables| == |requests| == |oks| && k < |requests|
  {
    var q := requests[k];
    && oks[k] == Granted(p, tables[k], q.user, q.n, q.now)
    && EntriesOk(p, tables[k].entries, if k == 0 then q.now else requests[k - 1].now)
    && (k + 1 < |tables| ==> tables[k + 1] == After(p, tables[k], q.user, q.n, q.now))
  }

  /** The first k requests, in the windows from i and from j, leave the user this level at a time. */
  predicate Explains(
    p: Rates, requests: seq<Request>, oks: seq<bool>, u: string, i: nat, j: nat, k: nat, now: real, level: Level)
    requires k <= |oks| <= |requests| && i < |requests| && j < |requests|
  {
    && Leaves(p.msgBurst, p.messages, now - requests[i].now, Messages(requests, oks, u, i, k), level.messages)
    && Leaves(p.rcptBurst, p.recipients, now - requests[j].now, Recipients(requests, oks, u, j, k), level.recipients)
  }

  /** What a user has when request k is decided. */
  function LevelFor(p: Rates, t: Table, q: Request, u: string): Level {
    LevelAt(p, Swept(t, q.user, q.now).entries, u, q.now)
  }

  /** Some windows explain the level of a user whom the limiter did not know at the start. */
  lemma {:induction false} Explained(p: Rates, tables: seq<Table>, requests: seq<Request>, oks: seq<bool>, u: string,
                                     k: nat) returns (i: nat, j: nat)
    requires Chain(p, tables, requests, oks) && k < |requests| && u !in tables[0].entries
    ensures i <= k && j <= k
    ensures Explains(p, requests, oks, u, i, j, k, requests[k].now, LevelFor(p, tables[k], requests[k], u))
    decreases k
  {
    if k == 0 {
      i, j := 0, 0;
      FirstLevel(p, tables[0], requests, oks, u);
    } else {
      assert LinkAt(p, tables, requests, oks, k - 1) && LinkAt(p, tables, requests, oks, k);
      var a, b := Explained(p, tables, requests, oks, u, k - 1);
      var was := requests[if k == 1 then 0 else k - 2].now;
      i, j := OneLater(p, tables[k - 1], was, requests, oks, u, a, b, k, tables[k]);
    }
  }

  lemma FirstLevel(p: Rates, t: Table, requests: seq<Request>, oks: seq<bool>, u: string)
    requires requests != [] && |oks| == |requests| && u !in t.entries
    ensures Explains(p, requests, oks, u, 0, 0, 0, requests[0].now, LevelFor(p, t, requests[0], u))
  {
    assert Gain(0.0, p.messages) == 0.0 && Gain(0.0, p.recipients) == 0.0;
  }

  lemma OneLater(p: Rates, t: Table, was: real, requests: seq<Request>, oks: seq<bool>, u: string, a: nat, b: nat,
                 k: nat, after: Table) returns (i: nat, j: nat)
    requires 0 < k < |requests| == |oks| && a < k && b < k && EntriesOk(p, t.entries, was)
    requires was <= requests[k - 1].now <= requests[k].now
    requires
      var q := requests[k - 1];
      && oks[k - 1] == Granted(p, t, q.user, q.n, q.now)
      && after == After(p, t, q.user, q.n, q.now) && EntriesOk(p, after.entries, q.now)
    requires Explains(p, requests, oks, u, a, b, k - 1, requests[k - 1].now, LevelFor(p, t, requests[k - 1], u))
    ensures i <= k && j <= k
    ensures Explains(p, requests, oks, u, i, j, k, requests[k].now, LevelFor(p, after, requests[k], u))
  {
    var q := requests[k - 1];
    Spends(p, t, was, requests, oks, u, a, b, k - 1);
    RisesFully(p, after, requests[k], u, q.now);
    i, j := Rises(p, requests, oks, u, k, a, b, LevelAt(p, after.entries, u, q.now),
                  LevelFor(p, after, requests[k], u));
  }

  /** What a request spends is counted in every window. */
  lemma Spends(p: Rates, t: Table, was: real, requests: seq<Request>, oks: seq<bool>, u: string, a: nat, b: nat, k: nat)
    requires k < |oks| == |requests| && a <= k && b <= k && EntriesOk(p, t.entries, was) && was <= requests[k].now
    requires var q := requests[k]; oks[k] == Granted(p, t, q.user, q.n, q.now)
    requires Explains(p, requests, oks, u, a, b, k, requests[k].now, LevelFor(p, t, requests[k], u))
    ensures
      var q := requests[k];
      Explains(p, requests, oks, u, a, b, k + 1, q.now, LevelAt(p, After(p, t, q.user, q.n, q.now).entries, u, q.now))
  {
    var q := requests[k];
    SweptOk(p, t, q, was);
    TakenLevel(p, Swept(t, q.user, q.now).entries, q.user, q.n, q.now, u);
  }

  /** Until the next request the level rises with the windows, or to the burst. */
  lemma Rises(p: Rates, requests: seq<Request>, oks: seq<bool>, u: string, k: nat, a: nat, b: nat, left: Level,
              level: Level) returns (i: nat, j: nat)
    requires 0 < k < |requests| == |oks| && a < k && b < k
    requires Explains(p, requests, oks, u, a, b, k, requests[k - 1].now, left)
    requires
      var hours := requests[k].now - requests[k - 1].now;
      && (level.messages >= p.msgBurst || level.messages >= left.messages + Gain(hours, p.messages))
      && (level.recipients >= p.rcptBurst || level.recipients >= left.recipients + Gain(hours, p.recipients))
    ensures i <= k && j <= k && Explains(p, requests, oks, u, i, j, k, requests[k].now, level)
  {
    i := Later(p.msgBurst, p.messages, requests, k, a, Messages(requests, oks, u, a, k), left.messages, level.messages);
    j := Later(p.rcptBurst, p.recipients, requests, k, b, Recipients(requests, oks, u, b, k), left.recipients,
               level.recipients);
  }

  /** One account: what the window from `a` leaves at request k - 1 rises to what it leaves at request k, or to
      the burst. */
  lemma Later(burst: real, rate: real, requests: seq<Request>, k: nat, a: nat, count: int, left: real, level: real)
    returns (i: nat)
    requires 0 < k < |requests| && a < k
    requires Leaves(burst, rate, requests[k - 1].now - requests[a].now, count, left)
    requires level >= burst || level >= left + Gain(requests[k].now - requests[k - 1].now, rate)
    ensures i == k || i == a
    ensures Leaves(burst, rate, requests[k].now - requests[i].now, if i == k then 0 else count, level)
  {
    GainAdds(requests[k - 1].now - requests[a].now, requests[k].now - requests[k - 1].now, rate);
    assert Gain(0.0, rate) == 0.0;
    assert (requests[k - 1].now - requests[a].now) + (requests[k].now - requests[k - 1].now) ==
      requests[k].now - requests[a].now;
    i := if level >= burst then k else a;
  }

  lemma SweptOk(p: Rates, t: Table, q: Request, was: real)
    requires EntriesOk(p, t.entries, was) && was <= q.now
    ensures EntriesOk(p, Swept(t, q.user, q.now).entries, q.now)
  {
    LaterOk(p, t.entries, was, q.now);
  }

  /** Every entry of a new limiter is of a user who made a request when it was last seen. */
  predicate SeenBy(requests: seq<Request>, k: nat, entries: Entries)
    requires k <= |requests|
  {
    forall v :: v in entries ==> exists i :: 0 <= i < k && requests[i].user == v && requests[i].now == entries[v].seen
  }

  lemma {:induction false} TablesSeen(p: Rates, t: Table, requests: seq<Request>, k: nat)
    requires k <= |requests| && t.entries == map[]
    ensures SeenBy(requests, k, TableAfter(p, t, requests, k).entries)
    decreases k
  {
    if k > 0 {
      TablesSeen(p, t, requests, k - 1);
    }
  }

  /** There is no room only when many other users were there lately. */
  lemma FullIsCrowded(p: Rates, start: Table, requests: seq<Request>, k: nat)
    requires k < |requests| && start.entries == map[]
    requires var q := requests[k]; Full(Swept(TableAfter(p, start, requests, k), q.user, q.now).entries, q.user)
    ensures Crowded(requests, k)
  {
    var q, t := requests[k], TableAfter(p, start, requests, k);
    TablesSeen(p, start, requests, k);
    var kept := Swept(t, q.user, q.now).entries;
    forall v | v in kept.Keys ensures Recent(requests, k, v) {
      var i :| 0 <= i < k && requests[i].user == v && requests[i].now == t.entries[v].seen;
      assert !Idle(kept[v], q.now);
    }
    assert |kept.Keys| == |kept|;
  }

  lemma NotEnough(p: Rates, requests: seq<Request>, oks: seq<bool>, i: nat, j: nat, k: nat, level: Level)
    requires i <= k && j <= k < |requests| && |oks| == |requests|
    requires Explains(p, requests, oks, requests[k].user, i, j, k, requests[k].now, level)
    requires !Enough(level, requests[k].n)
    ensures Overdraws(p, requests, oks, i, k) || Overdraws(p, requests, oks, j, k)
  {
  }

  /** The tables of a run. */
  function Tables(p: Rates, t: Table, requests: seq<Request>): (tables: seq<Table>)
    ensures |tables| == |requests| && forall k :: 0 <= k < |tables| ==> tables[k] == TableAfter(p, t, requests, k)
  {
    seq(|requests|, k requires 0 <= k < |requests| => TableAfter(p, t, requests, k))
  }

  lemma RunIsChain(p: Rates, t: Table, start: real, requests: seq<Request>)
    requires EntriesOk(p, t.entries, start) && |t.entries| <= MAX_ENTRIES
    requires InOrder(requests) && (requests != [] ==> start <= requests[0].now)
    ensures Chain(p, Tables(p, t, requests), requests, Grants(p, t, requests, |requests|))
  {
    var tables, oks := Tables(p, t, requests), Grants(p, t, requests, |requests|);
    forall k | 0 <= k < |requests| ensures LinkAt(p, tables, requests, oks, k) {
      AnswerAt(Limiting(p), t, requests, |requests|, k);
      TablesOk(p, t, start, requests, k);
      if k == 0 {
        LaterOk(p, t.entries, start, requests[0].now);
      }
      NextTable(p, t, requests, k, tables[k]);
    }
  }

  /** Whatever a new limiter refuses, it refuses for cause. */
  lemma RefusalsNeeded(p: Rates, t: Table, start: real, requests: seq<Request>)
    requires RatesOk(p) && InOrder(requests) && (requests != [] ==> start <= requests[0].now) && t.entries == map[]
    ensures RefusedForCause(p, requests, Grants(p, t, requests, |requests|))
  {
    var tables, oks := Tables(p, t, requests), Grants(p, t, requests, |requests|);
    RunIsChain(p, t, start, requests);
    forall k | 0 <= k < |requests| && !oks[k]
      ensures Crowded(requests, k) || exists i :: 0 <= i <= k && Overdraws(p, requests, oks, i, k)
    {
      assert LinkAt(p, tables, requests, oks, k);
      var q := requests[k];
      if Full(Swept(tables[k], q.user, q.now).entries, q.user) {
        FullIsCrowded(p, t, requests, k);
      } else {
        var i, j := Explained(p, tables, requests, oks, q.user, k);
        NotEnough(p, requests, oks, i, j, k, LevelFor(p, tables[k], q, q.user));
      }
    }
  }

  lemma PrunedTwice(entries: Entries, now: real)
    ensures Pruned(Pruned(entries, now), now) == Pruned(entries, now)
  {
  }

  lemma FewerEntries(large: Entries, small: Entries)
    requires small.Keys <= large.Keys
    ensures |small| <= |large|
  {
    SubsetSize(small.Keys, large.Keys);
  }

  lemma {:induction false} SubsetSize(a: set<string>, b: set<string>)
    requires a <= b
    ensures |a| <= |b|
  {
    if a != {} {
      var x :| x in a;
      SubsetSize(a - {x}, b - {x});
    }
  }

  // ---------- pruning ----------

  /** Each burst is refilled within the time after which an idle entry is dropped. */
  predicate Ample(p: Rates) {
    p.msgBurst <= Gain(EXPIRY, p.messages) && p.rcptBurst <= Gain(EXPIRY, p.recipients)
  }

  /** The recipients' burst is, and the messages' burst is too or recipients do not come back faster than
      messages: then the recipients keep a user from spending the messages' burst. */
  predicate Steady(p: Rates) {
    && p.rcptBurst <= Gain(EXPIRY, p.recipients)
    && (p.msgBurst <= Gain(EXPIRY, p.messages) || p.recipients <= p.messages)
  }

  /** Every message has a recipient, as the server demands before it asks the limiter. */
  predicate Submissions(requests: seq<Request>) {
    forall i :: 0 <= i < |requests| ==> requests[i].n >= 1
  }

  /** No more messages than recipients are missing from the bursts. */
  predicate InStep(p: Rates, entries: Entries) {
    forall u :: u in entries ==> p.msgBurst - entries[u].messages <= p.rcptBurst - entries[u].recipients
  }

  /** The rates and the requests are such that forgetting users makes no difference. */
  predicate Safe(p: Rates, entries: Entries, requests: seq<Request>) {
    Ample(p) || (Steady(p) && InStep(p, entries) && Submissions(requests))
  }

  /** Every entry is refilled within the time after which it is dropped. */
  predicate Recover(p: Rates, entries: Entries) {
    forall u :: u in entries ==>
      && entries[u].messages + Gain(EXPIRY, p.messages) >= p.msgBurst
      && entries[u].recipients + Gain(EXPIRY, p.recipients) >= p.rcptBurst
  }

  lemma SafeRecovers(p: Rates, entries: Entries, now: real)
    requires EntriesOk(p, entries, now) && (Ample(p) || (Steady(p) && InStep(p, entries)))
    ensures Recover(p, entries)
  {
    if !Ample(p) { RateGrows(EXPIRY, p.recipients, p.messages); }
  }

  lemma RateGrows(hours: real, less: real, more: real)
    requires 0.0 <= hours && less <= more
    ensures Gain(hours, less) <= Gain(hours, more)
  {
    assert hours * (more - less) >= 0.0;
  }

  /** Where recipients do not come back faster than messages, a message with a recipient keeps the entry in step. */
  lemma ChargedInStep(p: Rates, a: Allowance, n: nat, now: real)
    requires RatesOk(p) && p.recipients <= p.messages && n >= 1
    requires p.msgBurst - a.messages <= p.rcptBurst - a.recipients
    ensures var b := Charged(p, a, n, now); p.msgBurst - b.messages <= p.rcptBurst - b.recipients
  {
    if now - a.updated > 0.0 { RateGrows(now - a.updated, p.recipients, p.messages); }
  }

  lemma AfterInStep(p: Rates, t: Table, u: string, n: nat, now: real)
    requires RatesOk(p) && p.recipients <= p.messages && n >= 1 && InStep(p, t.entries)
    ensures InStep(p, After(p, t, u, n, now).entries)
  {
    ChargedInStep(p, EntryOf(p, Swept(t, u, now).entries, u, now), n, now);
  }

  lemma {:induction false} TablesInStep(p: Rates, t: Table, requests: seq<Request>, k: nat)
    requires RatesOk(p) && p.recipients <= p.messages && InStep(p, t.entries)
    requires Submissions(requests) && k <= |requests|
    ensures InStep(p, TableAfter(p, t, requests, k).entries)
    decreases k
  {
    if k > 0 {
      TablesInStep(p, t, requests, k - 1);
      var q := requests[k - 1];
      AfterInStep(p, TableAfter(p, t, requests, k - 1), q.user, q.n, q.now);
    }
  }

  lemma TablesRecover(p: Rates, t: Table, was: real, requests: seq<Request>, k: nat)
    requires EntriesOk(p, t.entries, was) && |t.entries| <= MAX_ENTRIES && k <= |requests|
    requires InOrder(requests) && (requests != [] ==> was <= requests[0].now) && Safe(p, t.entries, requests)
    ensures Recover(p, TableAfter(p, t, requests, k).entries)
  {
    TablesOk(p, t, was, requests, k);
    if !Ample(p) { TablesInStep(p, t, requests, k); }
    SafeRecovers(p, TableAfter(p, t, requests, k).entries, if k == 0 then was else requests[k - 1].now);
  }

  /** Then pruning never shows: a user's tokens are the same at every later time. */
  lemma PruneInvisible(p: Rates, entries: Entries, now: real, u: string, t: real)
    requires EntriesOk(p, entries, now) && Recover(p, entries) && now <= t
    ensures LevelAt(p, Pruned(entries, now), u, t) == LevelAt(p, entries, u, t)
  {
    if u in entries && Idle(entries[u], now) {
      GainGrows(EXPIRY, t - entries[u].updated, p.messages);
      GainGrows(EXPIRY, t - entries[u].updated, p.recipients);
    }
  }

  /** The table of a new limiter after a run. */
  function Reached(p: Rates, start: real, requests: seq<Request>): Table {
    TableAfter(p, Table(map[], start), requests, |requests|)
  }

  /** A run of a new limiter. */
  predicate Run(requests: seq<Request>, start: real) {
    InOrder(requests) && Submissions(requests) && (requests != [] ==> start <= requests[0].now)
  }

  predicate Since(requests: seq<Request>, now: real) {
    requests != [] ==> requests[|requests| - 1].now <= now
  }

  /** After no run does forgetting idle users change what any user can spend. */
  ghost predicate Invisible(p: Rates, start: real) {
    forall requests: seq<Request>, u, now, t :: Run(requests, start) && Since(requests, now) && start <= now <= t ==>
      LevelAt(p, Pruned(Reached(p, start, requests).entries, now), u, t) ==
      LevelAt(p, Reached(p, start, requests).entries, u, t)
  }

  ghost predicate AllWithin(p: Rates, requests: seq<Request>, oks: seq<bool>)
    requires |oks| == |requests|
  {
    forall u, i, j :: 0 <= i < j <= |requests| ==> Within(p, requests, oks, u, i, j)
  }

  /** Every run of a new limiter keeps every window within bounds. */
  ghost predicate BoundHolds(p: Rates, start: real) {
    forall requests: seq<Request> :: Run(requests, start) ==>
      AllWithin(p, requests, Grants(p, Table(map[], start), requests, |requests|))
  }

  lemma SteadyInvisible(p: Rates, start: real)
    requires RatesOk(p) && Steady(p)
    ensures Invisible(p, start)
  {
    forall requests: seq<Request>, u, now, t | Run(requests, start) && Since(requests, now) && start <= now <= t
      ensures LevelAt(p, Pruned(Reached(p, start, requests).entries, now), u, t) ==
        LevelAt(p, Reached(p, start, requests).entries, u, t)
    {
      var empty, e := Table(map[], start), Reached(p, start, requests).entries;
      TablesOk(p, empty, start, requests, |requests|);
      TablesRecover(p, empty, start, requests, |requests|);
      LaterOk(p, e, if requests == [] then start else requests[|requests| - 1].now, now);
      PruneInvisible(p, e, now, u, t);
    }
  }

  lemma SteadyBound(p: Rates, start: real)
    requires RatesOk(p) && Steady(p)
    ensures BoundHolds(p, start)
  {
    forall requests: seq<Request> | Run(requests, start)
      ensures AllWithin(p, requests, Grants(p, Table(map[], start), requests, |requests|))
    {
      WindowsHold(p, Table(map[], start), start, requests);
    }
  }

  // ---------- when forgetting shows ----------

  /** A time just past the expiry in which the rate does not bring a burst. */
  function JustPast(rate: real, burst: real): (hours: real)
    requires rate >= 0.0 && burst > Gain(EXPIRY, rate)
    ensures hours > EXPIRY && Gain(hours, rate) < burst
  {
    if rate == 0.0 then 1.0
    else
      var gap := (burst - EXPIRY * rate) / (2.0 * rate);
      assert gap > 0.0 && gap * rate == (burst - EXPIRY * rate) / 2.0;
      EXPIRY + gap
  }

  /** Requests with `n` recipients each, at equal steps of time. */
  datatype Pace = Pace(n: nat, times: nat, step: real)

  /** What one request of the pace takes from the messages on balance. */
  function Fall(p: Rates, c: Pace): real {
    1.0 - Gain(c.step, p.messages)
  }

  function Times(i: nat, x: real): real {
    i as real * x
  }

  lemma TimesNext(i: nat, x: real)
    ensures Times(i + 1, x) == Times(i, x) + x
  {
  }

  lemma TimesGrows(i: nat, j: nat, x: real)
    requires i <= j && x >= 0.0
    ensures 0.0 <= Times(i, x) <= Times(j, x)
  {
    assert (j - i) as real * x >= 0.0;
  }

  function At(c: Pace, start: real, i: nat): real {
    start + Times(i, c.step)
  }

  /** A pace at which every request is granted: recipients are back at the burst each time, and messages last. */
  predicate PaceOk(p: Rates, c: Pace) {
    && 1 <= c.n && c.n as real <= p.rcptBurst && 1 <= c.times && 0.0 <= c.step <= EXPIRY
    && Fall(p, c) >= 0.0 && Times(c.times - 1, Fall(p, c)) <= p.msgBurst - 1.0
    && (c.times > 1 ==> Gain(c.step, p.recipients) >= c.n as real)
  }

  /** A user with this much left at a time, and nobody else. */
  function Left(u: string, l: Level, now: real): Entries {
    map[u := Allowance(l.messages, l.recipients, now, now)]
  }

  /** What is left after request i. */
  function LevelAfter(p: Rates, c: Pace, i: nat): Level {
    Level(p.msgBurst - 1.0 - Times(i, Fall(p, c)), p.rcptBurst - c.n as real)
  }

  /** The table after request i. */
  predicate Paced(p: Rates, c: Pace, t: Table, u: string, start: real, i: nat) {
    t.entries == Left(u, LevelAfter(p, c, i), At(c, start, i)) && t.pruned <= At(c, start, i)
  }

  /** The first request after a sweep that leaves nobody spends from the bursts. */
  lemma FirstPaced(p: Rates, c: Pace, t: Table, u: string, start: real)
    requires RatesOk(p) && PaceOk(p, c) && Swept(t, u, start).entries == map[] && t.pruned <= start
    ensures Granted(p, t, u, c.n, start) && Paced(p, c, After(p, t, u, c.n, start), u, start, 0)
  {
    assert Times(0, c.step) == 0.0 && Times(0, Fall(p, c)) == 0.0;
  }

  /** What has come back before the next request. */
  lemma PaceRefill(p: Rates, c: Pace, start: real, i: nat)
    requires RatesOk(p) && PaceOk(p, c) && i + 1 < c.times
    ensures
      var l, now := LevelAfter(p, c, i), At(c, start, i + 1);
      var before := Allowance(l.messages, l.recipients, At(c, start, i), At(c, start, i));
      var risen := Level(p.msgBurst - Times(i + 1, Fall(p, c)), p.rcptBurst);
      && Refill(p, before, now).(seen := now) == Allowance(risen.messages, risen.recipients, now, now)
      && Enough(risen, c.n)
  {
    TimesNext(i, c.step);
    TimesNext(i, Fall(p, c));
    TimesGrows(i + 1, c.times - 1, Fall(p, c));
    assert c.step > 0.0;
    assert At(c, start, i + 1) - At(c, start, i) == c.step;
  }

  lemma NextPaced(p: Rates, c: Pace, t: Table, u: string, start: real, i: nat)
    requires RatesOk(p) && PaceOk(p, c) && i + 1 < c.times && Paced(p, c, t, u, start, i)
    ensures
      var now := At(c, start, i + 1);
      Granted(p, t, u, c.n, now) && Paced(p, c, After(p, t, u, c.n, now), u, start, i + 1)
  {
    var now := At(c, start, i + 1);
    TimesNext(i, c.step);
    assert u in t.entries && !Idle(t.entries[u], now);
    assert Pruned(t.entries, now) == t.entries;
    PaceRefill(p, c, start, i);
  }

  /** The requests of a pace. */
  function Batch(c: Pace, u: string, start: real): seq<Request> {
    seq(c.times, i requires 0 <= i < c.times => Request(u, c.n, At(c, start, i)))
  }

  lemma NextTable(p: Rates, t: Table, requests: seq<Request>, k: nat, before: Table)
    requires k < |requests| && before == TableAfter(p, t, requests, k)
    ensures TableAfter(p, t, requests, k + 1) == After(p, before, requests[k].user, requests[k].n, requests[k].now)
  {
  }

  lemma NextGrant(p: Rates, t: Table, requests: seq<Request>, k: nat, before: Table)
    requires k < |requests| && before == TableAfter(p, t, requests, k)
    ensures Grants(p, t, requests, k + 1) ==
      Grants(p, t, requests, k) + [Granted(p, before, requests[k].user, requests[k].n, requests[k].now)]
  {
  }

  /** A sweep at this time leaves nobody. */
  predicate Fresh(t: Table, u: string, start: real) {
    Swept(t, u, start).entries == map[] && t.pruned <= start
  }

  /** After a sweep that leaves nobody every request of a pace is granted. */
  lemma {:induction false} BatchPaced(p: Rates, c: Pace, t: Table, u: string, start: real, i: nat)
    requires RatesOk(p) && PaceOk(p, c) && i < c.times && Fresh(t, u, start)
    ensures Granted(p, TableAfter(p, t, Batch(c, u, start), i), u, c.n, At(c, start, i))
    ensures Paced(p, c, TableAfter(p, t, Batch(c, u, start), i + 1), u, start, i)
    decreases i
  {
    var b := Batch(c, u, start);
    NextTable(p, t, b, i, TableAfter(p, t, b, i));
    if i == 0 {
      assert At(c, start, 0) == start;
      FirstPaced(p, c, t, u, start);
    } else {
      BatchPaced(p, c, t, u, start, i - 1);
      NextPaced(p, c, TableAfter(p, t, b, i), u, start, i - 1);
    }
  }

  /** The time of the last request of a batch. */
  function EndOf(c: Pace, start: real): real
    requires c.times >= 1
  {
    At(c, start, c.times - 1)
  }

  lemma BatchRuns(c: Pace, u: string, start: real)
    requires c.n >= 1 && c.times >= 1 && c.step >= 0.0
    ensures Run(Batch(c, u, start), start)
    ensures forall q :: q in Batch(c, u, start) ==> q.user == u && q.n == c.n && start <= q.now <= EndOf(c, start)
    ensures Batch(c, u, start)[0].now == start && Batch(c, u, start)[c.times - 1].now == EndOf(c, start)
  {
    var b := Batch(c, u, start);
    assert Times(0, c.step) == 0.0;
    forall i, j | 0 <= i <= j < |b| ensures start <= b[i].now <= b[j].now {
      TimesGrows(i, j, c.step);
    }
    forall q | q in b ensures q.user == u && q.n == c.n && start <= q.now <= EndOf(c, start) {
      var i :| 0 <= i < |b| && b[i] == q;
      assert b[i].now <= b[c.times - 1].now;
    }
  }

  /** A batch on a new limiter. */
  lemma OneBatch(p: Rates, c: Pace, u: string, start: real)
    requires RatesOk(p) && PaceOk(p, c)
    ensures Run(Batch(c, u, start), start) && Since(Batch(c, u, start), EndOf(c, start)) && start <= EndOf(c, start)
    ensures Paced(p, c, Reached(p, start, Batch(c, u, start)), u, start, c.times - 1)
  {
    var b := Batch(c, u, start);
    BatchRuns(c, u, start);
    assert |b| == c.times;
    BatchPaced(p, c, Table(map[], start), u, start, c.times - 1);
  }

  /** Just after the expiry a sweep forgets the user. */
  lemma Forgotten(p: Rates, c: Pace, t: Table, u: string, start: real, later: real)
    requires PaceOk(p, c) && Paced(p, c, t, u, start, c.times - 1) && later - EndOf(c, start) > EXPIRY
    ensures Fresh(t, u, later)
  {
    assert Pruned(t.entries, later) == map[];
  }

  lemma {:induction false} AllCounted(requests: seq<Request>, oks: seq<bool>, u: string, n: nat, j: nat)
    requires j <= |oks| <= |requests|
    requires forall i :: 0 <= i < j ==> oks[i] && requests[i].user == u && requests[i].n == n
    ensures Messages(requests, oks, u, 0, j) == j && Recipients(requests, oks, u, 0, j) == j * n
    decreases j
  {
    if j > 0 {
      AllCounted(requests, oks, u, n, j - 1);
      assert j * n == (j - 1) * n + n;
    }
  }

  lemma JoinRuns(a: seq<Request>, b: seq<Request>, start: real, later: real)
    requires Run(a, start) && Run(b, later) && start <= later && Since(a, later)
    ensures Run(a + b, start)
  {
  }

  /** Two batches, the second just after the expiry: both are granted in full. */
  lemma TwoBatches(p: Rates, c: Pace, u: string, start: real, gap: real) returns (requests: seq<Request>)
    requires RatesOk(p) && PaceOk(p, c) && gap > EXPIRY
    ensures Run(requests, start) && |requests| == 2 * c.times
    ensures requests[|requests| - 1].now - requests[0].now == 2.0 * Times(c.times - 1, c.step) + gap
    ensures
      var oks := Grants(p, Table(map[], start), requests, |requests|);
      && Messages(requests, oks, u, 0, 2 * c.times) == 2 * c.times
      && Recipients(requests, oks, u, 0, 2 * c.times) == 2 * c.times * c.n
  {
    var later := EndOf(c, start) + gap;
    var a, b := Batch(c, u, start), Batch(c, u, later);
    requests := a + b;
    BatchRuns(c, u, start);
    BatchRuns(c, u, later);
    JoinRuns(a, b, start, later);
    TwoGranted(p, c, u, start, later, requests);
    BothCounted(requests, a, b, Grants(p, Table(map[], start), requests, |requests|), u, c);
  }

  lemma TwoGranted(p: Rates, c: Pace, u: string, start: real, later: real, requests: seq<Request>)
    requires RatesOk(p) && PaceOk(p, c) && later - EndOf(c, start) > EXPIRY
    requires requests == Batch(c, u, start) + Batch(c, u, later)
    ensures AllTrue(Grants(p, Table(map[], start), requests, |requests|))
  {
    var t, a, b := Table(map[], start), Batch(c, u, start), Batch(c, u, later);
    var mid := TableAfter(p, t, a, c.times);
    BatchPaced(p, c, t, u, start, c.times - 1);
    Forgotten(p, c, mid, u, start, later);
    BatchGranted(p, c, t, u, start);
    BatchGranted(p, c, mid, u, later);
    BothGranted(Limiting(p), t, a, b);
  }

  lemma BatchGranted(p: Rates, c: Pace, t: Table, u: string, start: real)
    requires RatesOk(p) && PaceOk(p, c) && Fresh(t, u, start)
    ensures AllGranted(Limiting(p), t, Batch(c, u, start))
  {
    var b := Batch(c, u, start);
    forall i | 0 <= i < |b| ensures Answers(Limiting(p), t, b, |b|)[i] {
      AnswerAt(Limiting(p), t, b, |b|, i);
      BatchPaced(p, c, t, u, start, i);
    }
  }

  lemma BothCounted(requests: seq<Request>, a: seq<Request>, b: seq<Request>, oks: seq<bool>, u: string, c: Pace)
    requires requests == a + b && |a| == c.times && |b| == c.times && |oks| == |requests|
    requires forall q :: q in a || q in b ==> q.user == u && q.n == c.n
    requires AllTrue(oks)
    ensures Messages(requests, oks, u, 0, 2 * c.times) == 2 * c.times
    ensures Recipients(requests, oks, u, 0, 2 * c.times) == 2 * c.times * c.n
  {
    assert forall i :: 0 <= i < |requests| ==> requests[i] in a || requests[i] in b;
    AllCounted(requests, oks, u, c.n, 2 * c.times);
  }

  // ---------- paces that drain a bucket ----------

  /** The last message of the pace takes the last token. */
  predicate Drains(p: Rates, c: Pace) {
    PaceOk(p, c) && Times(c.times - 1, Fall(p, c)) == p.msgBurst - 1.0
  }

  /** Where recipients come back faster than messages, messages with one recipient each can take all tokens for
      messages: slowly enough that a recipient comes back each time, and fast enough that the messages do not. */
  lemma DrainingPace(p: Rates, msgBurst: int, rcptBurst: int) returns (c: Pace)
    requires Configured(p, msgBurst, rcptBurst)
    requires p.rcptBurst <= Gain(EXPIRY, p.recipients) && p.recipients > p.messages
    ensures Drains(p, c)
  {
    if msgBurst == 1 {
      c := Pace(1, 1, 0.0);
    } else if p.messages == 0.0 {
      c := Pace(1, msgBurst, 1.0 / p.recipients);
      EvenStep(p.recipients);
    } else {
      c := SlowPace(p, msgBurst);
    }
  }

  lemma EvenStep(rate: real)
    requires rate >= 2.0
    ensures 0.0 < 1.0 / rate <= EXPIRY && Gain(1.0 / rate, rate) == 1.0
  {
  }

  lemma SlowPace(p: Rates, msgBurst: int) returns (c: Pace)
    requires RatesOk(p) && p.msgBurst == msgBurst as real && msgBurst >= 2 && p.msgBurst <= p.messages < p.recipients
    ensures Drains(p, c)
  {
    var times := SlowTimes(p.messages, p.recipients, p.msgBurst);
    var step := (times as real - p.msgBurst) / (p.messages * (times as real - 1.0));
    SlowStep(p.messages, p.recipients, p.msgBurst, times as real, step);
    SlowDrains(p, times, step);
    c := Pace(1, times, step);
  }

  lemma SlowDrains(p: Rates, times: nat, step: real)
    requires RatesOk(p) && times >= 1 && 0.0 < step <= EXPIRY && step * p.recipients >= 1.0
    requires 0.0 <= 1.0 - step * p.messages && (times as real - 1.0) * (1.0 - step * p.messages) == p.msgBurst - 1.0
    ensures Drains(p, Pace(1, times, step))
  {
    assert (times - 1) as real == times as real - 1.0;
  }

  lemma SlowTimes(m: real, r: real, b: real) returns (times: nat)
    requires 2.0 <= b <= m < r
    ensures times as real > b && times as real * (r - m) >= r * b - m
  {
    Spread(m, r, b);
    times := JustAbove(r - m, r * b - m, b, m * (b - 1.0));
  }

  lemma Spread(m: real, r: real, b: real)
    requires 2.0 <= b <= m
    ensures r * b - m == b * (r - m) + m * (b - 1.0) && m * (b - 1.0) >= 0.0
  {
  }

  lemma JustAbove(x: real, y: real, b: real, more: real) returns (times: nat)
    requires x > 0.0 && b >= 0.0 && more >= 0.0 && y == b * x + more
    ensures times as real > b && times as real * x >= y
  {
    var least := y / x;
    assert least * x == y;
    Cancel(x, b, least, more);
    times := least.Floor + 1;
    assert least < times as real;
    Scale(x, least, times as real);
  }

  lemma Cancel(x: real, a: real, b: real, more: real)
    requires x > 0.0 && more >= 0.0 && b * x == a * x + more
    ensures a <= b
  {
    assert (b - a) * x == more;
  }

  lemma Scale(x: real, a: real, b: real)
    requires x >= 0.0 && a <= b
    ensures a * x <= b * x
  {
    assert (b - a) * x >= 0.0;
  }

  lemma SlowStep(m: real, r: real, b: real, k: real, step: real)
    requires 2.0 <= b <= m < r && b < k && k * (r - m) >= r * b - m && step == (k - b) / (m * (k - 1.0))
    ensures 0.0 < step <= EXPIRY && step * r >= 1.0
    ensures 0.0 <= 1.0 - step * m && (k - 1.0) * (1.0 - step * m) == b - 1.0
  {
    var mk := m * (k - 1.0);
    Scale(k - 1.0, 2.0, m);
    assert mk > 0.0 && step * mk == k - b && k - b > 0.0;
    assert (step * m) * (k - 1.0) == step * mk;
    Cancel(k - 1.0, step * m, 1.0, b - 1.0);
    Cancel(m, step, EXPIRY, EXPIRY * m - step * m);
    assert (step * r) * mk == (k - b) * r;
    Cancel(mk, 1.0, step * r, (k - b) * r - mk);
  }

  /** The pace that shows the failure, the rate and the burst that fail, and which they are. */
  lemma FailingPace(p: Rates, msgBurst: int, rcptBurst: int) returns (c: Pace, byMessages: bool)
    requires Configured(p, msgBurst, rcptBurst) && !Steady(p)
    ensures PaceOk(p, c)
    ensures byMessages ==> p.msgBurst > Gain(EXPIRY, p.messages) && Drains(p, c)
    ensures !byMessages ==> p.rcptBurst > Gain(EXPIRY, p.recipients) && c == Pace(rcptBurst, 1, 0.0)
  {
    byMessages := p.rcptBurst <= Gain(EXPIRY, p.recipients);
    if byMessages {
      c := DrainingPace(p, msgBurst, rcptBurst);
    } else {
      c := Pace(rcptBurst, 1, 0.0);
    }
  }

  /** A time just past the expiry at which the bucket that was drained is not full again. */
  function FailingGap(p: Rates, byMessages: bool): real
    requires RatesOk(p)
    requires if byMessages then p.msgBurst > Gain(EXPIRY, p.messages) else p.rcptBurst > Gain(EXPIRY, p.recipients)
  {
    if byMessages then JustPast(p.messages, p.msgBurst) else JustPast(p.recipients, p.rcptBurst)
  }

  /** Twice the pace is too much. */
  lemma Exceeds(p: Rates, c: Pace, byMessages: bool, gap: real, hours: real)
    requires RatesOk(p) && PaceOk(p, c) && hours == 2.0 * Times(c.times - 1, c.step) + gap
    requires if byMessages then Drains(p, c) && Gain(gap, p.messages) < p.msgBurst
      else c.times == 1 && c.n as real == p.rcptBurst && Gain(gap, p.recipients) < p.rcptBurst
    ensures byMessages ==> (2 * c.times) as real > p.msgBurst + Gain(hours, p.messages)
    ensures !byMessages ==> (2 * c.times * c.n) as real > p.rcptBurst + Gain(hours, p.recipients)
  {
    if byMessages {
      var k := c.times - 1;
      assert Gain(hours, p.messages) == 2.0 * (k as real * Gain(c.step, p.messages)) + Gain(gap, p.messages);
      assert Times(k, Fall(p, c)) == k as real - k as real * Gain(c.step, p.messages);
    } else {
      assert Times(0, c.step) == 0.0;
    }
  }

  lemma TooMuch(p: Rates, c: Pace, byMessages: bool, gap: real, start: real)
    requires RatesOk(p) && PaceOk(p, c) && gap > EXPIRY
    requires if byMessages then Drains(p, c) && Gain(gap, p.messages) < p.msgBurst
      else c.times == 1 && c.n as real == p.rcptBurst && Gain(gap, p.recipients) < p.rcptBurst
    ensures !BoundHolds(p, start)
  {
    var requests := TwoBatches(p, c, "", start, gap);
    Exceeds(p, c, byMessages, gap, requests[|requests| - 1].now - requests[0].now);
    var oks := Grants(p, Table(map[], start), requests, |requests|);
    assert !Within(p, requests, oks, "", 0, |requests|);
    assert !AllWithin(p, requests, oks);
  }

  /** The window bound holds for every run of a new limiter if and only if the rates are steady: otherwise a user
      drains a bucket, is forgotten just after the expiry, and drains it again. */
  lemma WindowIff(p: Rates, msgBurst: int, rcptBurst: int, start: real)
    requires Configured(p, msgBurst, rcptBurst)
    ensures Steady(p) <==> BoundHolds(p, start)
  {
    if Steady(p) {
      SteadyBound(p, start);
    } else {
      var c, byMessages := FailingPace(p, msgBurst, rcptBurst);
      var gap := FailingGap(p, byMessages);
      TooMuch(p, c, byMessages, gap, start);
    }
  }

  /** Forgetting idle users is invisible after every run of a new limiter if and only if the rates are steady:
      otherwise a user drains a bucket and is forgotten before it is full. */
  lemma PruneInvisibleIff(p: Rates, msgBurst: int, rcptBurst: int, start: real)
    requires Configured(p, msgBurst, rcptBurst)
    ensures Steady(p) <==> Invisible(p, start)
  {
    if Steady(p) {
      SteadyInvisible(p, start);
    } else {
      var c, byMessages := FailingPace(p, msgBurst, rcptBurst);
      var gap := FailingGap(p, byMessages);
      var requests, now := Batch(c, "", start), EndOf(c, start) + gap;
      OneBatch(p, c, "", start);
      NotFull(p, c, byMessages, gap, start, Reached(p, start, requests));
      assert Since(requests, now) && start <= now;
    }
  }

  lemma NotFull(p: Rates, c: Pace, byMessages: bool, gap: real, start: real, t: Table)
    requires RatesOk(p) && PaceOk(p, c) && gap > EXPIRY && Paced(p, c, t, "", start, c.times - 1)
    requires if byMessages then Drains(p, c) && Gain(gap, p.messages) < p.msgBurst
      else c.n as real == p.rcptBurst && Gain(gap, p.recipients) < p.rcptBurst
    ensures
      var now := EndOf(c, start) + gap;
      LevelAt(p, Pruned(t.entries, now), "", now) != LevelAt(p, t.entries, "", now)
  {
    var now := EndOf(c, start) + gap;
    assert now - t.entries[""].updated == gap;
    assert "" !in Pruned(t.entries, now);
  }
}
