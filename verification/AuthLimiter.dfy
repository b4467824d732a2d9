/** The authentication limiter (internal/smtpd/limiter.go): failures and in-flight attempts per
    source IP, per identity (IP and user name) and per user name.

    The three tables must agree: an IP record holds the sums over its identities, and a user record
    the sum over the identities of that user. */
module AuthLimiter {
  import opened Options
  import opened Sums

  const FREE_ATTEMPTS := 5
  const LOCKOUT_BASE := 2_000_000_000
  const LOCKOUT_MAX := 300_000_000_000
  const CAP_SWEEP_INTERVAL := 1_000_000_000
  const NO_LOCKOUT := 0

  /** Times are nanoseconds; NO_LOCKOUT stands for the zero time. */
  datatype Attempt = Attempt(failures: int, until: int, seen: int, inFlight: int)

  datatype Key = Key(ip: string, user: string)

  datatype Tables = Tables(byIP: map<string, Attempt>, byKey: map<Key, Attempt>, byUser: map<string, Attempt>)

  const NEW_ATTEMPT := Attempt(0, NO_LOCKOUT, 0, 0)

  // ---------- rules for one record ----------

  predicate CanReserve(st: Attempt, now: int) {
    && now >= st.until
    && if st.failures < FREE_ATTEMPTS then st.failures + st.inFlight < FREE_ATTEMPTS else st.inFlight == 0
  }

  predicate IsEmpty(st: Attempt, now: int) {
    st.failures == 0 && st.inFlight == 0 && now >= st.until
  }

  predicate SafeToPrune(st: Attempt, now: int, expiry: int) {
    && st.inFlight <= 0 && now >= st.until
    && (IsEmpty(st, now) || now - st.seen > expiry)
  }

  /** Neither active work nor an active lockout. */
  predicate Evictable(st: Attempt, now: int) {
    st.inFlight == 0 && now >= st.until
  }

  function Pow2(n: nat): (p: int)
    ensures p >= 1
  {
    if n == 0 then 1 else 2 * Pow2(n - 1)
  }

  function Min(a: int, b: int): int {
    if a <= b then a else b
  }

  function Lockout(failures: int): (d: int)
    requires failures >= FREE_ATTEMPTS
    ensures 0 < d <= LOCKOUT_MAX
  {
    Min(LOCKOUT_BASE * Pow2(Min(failures - FREE_ATTEMPTS, 10)), LOCKOUT_MAX)
  }

  lemma {:induction false} Pow2Grows(a: nat, b: nat)
    requires a <= b
    ensures Pow2(a) <= Pow2(b)
    decreases b - a
  {
    if a < b {
      Pow2Grows(a, b - 1);
    }
  }

  /** More failures never shorten the lockout. */
  lemma LockoutGrows(a: int, b: int)
    requires FREE_ATTEMPTS <= a <= b
    ensures Lockout(a) <= Lockout(b)
  {
    Pow2Grows(Min(a - FREE_ATTEMPTS, 10), Min(b - FREE_ATTEMPTS, 10));
  }

  /** The lockout is two seconds at first, doubles with every further failure, and is never above five minutes. */
  lemma LockoutDoubles(failures: int)
    requires failures >= FREE_ATTEMPTS
    ensures Lockout(FREE_ATTEMPTS) == 2_000_000_000
    ensures Lockout(failures + 1) == Min(2 * Lockout(failures), 300_000_000_000)
  {
    assert Pow2(0) == 1 && Pow2(1) == 2 && Pow2(2) == 4 && Pow2(3) == 8 && Pow2(4) == 16;
    assert Pow2(5) == 32 && Pow2(6) == 64 && Pow2(7) == 128;
    if failures - FREE_ATTEMPTS >= 8 {
      Pow2Grows(8, Min(failures - FREE_ATTEMPTS, 10));
      Pow2Grows(8, Min(failures + 1 - FREE_ATTEMPTS, 10));
    }
  }

  /** A record has an attempt left if it is not locked and one more keeps it within its budget: five failures and
      attempts in all, and past five failures one attempt at a time. */
  lemma CanReserveIff(st: Attempt, now: int)
    requires 0 <= st.failures && 0 <= st.inFlight
    ensures CanReserve(st, now) <==>
      now >= st.until && if st.failures < 5 then st.failures + st.inFlight + 1 <= 5 else st.inFlight + 1 <= 1
  {
  }

  function Positive(n: int): int {
    if n > 0 then n - 1 else n
  }

  /** One reservation becomes one failure. */
  function ConvertFail(st: Attempt, now: int): Attempt {
    var failures := st.failures + 1;
    var until := if failures < FREE_ATTEMPTS then st.until else now + Lockout(failures);
    Attempt(failures, until, now, Positive(st.inFlight))
  }

  function Release(st: Attempt, now: int): Attempt {
    st.(inFlight := Positive(st.inFlight), seen := now)
  }

  /** An IP record without the contribution of a dropped identity. */
  function Without(ip: Attempt, dropped: Attempt, now: int): Attempt {
    var failures := if dropped.failures <= 0 then ip.failures
                    else if ip.failures >= dropped.failures then ip.failures - dropped.failures else 0;
    var inFlight := if dropped.inFlight <= 0 then ip.inFlight
                    else if ip.inFlight >= dropped.inFlight then ip.inFlight - dropped.inFlight else 0;
    Attempt(failures, if failures < FREE_ATTEMPTS then NO_LOCKOUT else ip.until, now, inFlight)
  }

  /** An IP record after one of its attempts succeeded and cleared that many failures. */
  function AfterSuccess(ip: Attempt, cleared: int, now: int): Attempt {
    var failures := if cleared <= 0 then ip.failures
                    else if ip.failures >= cleared then ip.failures - cleared else 0;
    Attempt(failures, if failures < FREE_ATTEMPTS then NO_LOCKOUT else ip.until, now, Positive(ip.inFlight))
  }

  function Reserved(st: Attempt, now: int): Attempt {
    st.(inFlight := st.inFlight + 1, seen := now)
  }

  // ---------- rules for the tables ----------

  /** What an operation leaves of an identity, of its IP and of its user; None removes the record. */
  datatype Change = Change(id: Option<Attempt>, ip: Option<Attempt>, user: Option<Attempt>)

  function Put<K>(m: map<K, Attempt>, k: K, st: Option<Attempt>): map<K, Attempt> {
    if st.None? then m - {k} else m[k := st.value]
  }

  function Apply(t: Tables, k: Key, c: Change): Tables {
    Tables(Put(t.byIP, k.ip, c.ip), Put(t.byKey, k, c.id), Put(t.byUser, k.user, c.user))
  }

  function Lookup<K>(m: map<K, Attempt>, k: K): Option<Attempt> {
    if k in m then Some(m[k]) else None
  }

  function UnlessEmpty(st: Attempt, now: int): Option<Attempt> {
    if IsEmpty(st, now) then None else Some(st)
  }

  /** A user record disappears with the user's last attempt. */
  function ReleaseUser(user: Option<Attempt>, now: int): Option<Attempt> {
    if user.None? || Release(user.value, now).inFlight == 0 then None else Some(Release(user.value, now))
  }

  function DropIdentity(t: Tables, k: Key, now: int): Tables
    requires k in t.byKey
  {
    var ip := Lookup(t.byIP, k.ip);
    Apply(t, k, Change(
      None,
      if ip.None? then None else UnlessEmpty(Without(ip.value, t.byKey[k], now), now),
      Lookup(t.byUser, k.user)))
  }

  /** An attempt that ends must have been reserved; otherwise the call changes nothing. */
  predicate InProgress(t: Tables, k: Key) {
    k in t.byKey && t.byKey[k].inFlight != 0
  }

  function FailChange(t: Tables, k: Key, now: int): Change
    requires InProgress(t, k)
  {
    var ip := Lookup(t.byIP, k.ip);
    Change(
      Some(ConvertFail(t.byKey[k], now)),
      if ip.None? then None else Some(ConvertFail(ip.value, now)),
      ReleaseUser(Lookup(t.byUser, k.user), now))
  }

  function CancelChange(t: Tables, k: Key, now: int): Change
    requires InProgress(t, k)
  {
    var ip := Lookup(t.byIP, k.ip);
    Change(
      UnlessEmpty(Release(t.byKey[k], now), now),
      if ip.None? then None else UnlessEmpty(Release(ip.value, now), now),
      ReleaseUser(Lookup(t.byUser, k.user), now))
  }

  function SucceedChange(t: Tables, k: Key, now: int): Change
    requires InProgress(t, k)
  {
    var st := t.byKey[k];
    var ip := Lookup(t.byIP, k.ip);
    Change(
      UnlessEmpty(Attempt(0, NO_LOCKOUT, now, Positive(st.inFlight)), now),
      if ip.None? then None else UnlessEmpty(AfterSuccess(ip.value, st.failures, now), now),
      ReleaseUser(Lookup(t.byUser, k.user), now))
  }

  function Fail(t: Tables, k: Key, now: int): Tables {
    if InProgress(t, k) then Apply(t, k, FailChange(t, k, now)) else t
  }

  function Cancel(t: Tables, k: Key, now: int): Tables {
    if InProgress(t, k) then Apply(t, k, CancelChange(t, k, now)) else t
  }

  function Succeed(t: Tables, k: Key, now: int): Tables {
    if InProgress(t, k) then Apply(t, k, SucceedChange(t, k, now)) else t
  }

  function OrNew(st: Option<Attempt>): Attempt {
    if st.Some? then st.value else NEW_ATTEMPT
  }

  // ---------- what the end of an attempt changes ----------

  /** Only the records of this identity, its IP and its user have changed. */
  ghost predicate OthersSame(t: Tables, t': Tables, k: Key) {
    && (forall j :: j != k ==> Lookup(t'.byKey, j) == Lookup(t.byKey, j))
    && (forall ip :: ip != k.ip ==> Lookup(t'.byIP, ip) == Lookup(t.byIP, ip))
    && (forall user :: user != k.user ==> Lookup(t'.byUser, user) == Lookup(t.byUser, user))
  }

  /** One attempt less, one failure more, and from the fifth failure on a lockout. */
  predicate FailedMore(st: Option<Attempt>, st': Option<Attempt>, now: int) {
    && (st.Some? <==> st'.Some?)
    && (st.Some? && st.value.inFlight > 0 ==>
          && st'.value.failures == st.value.failures + 1 && st'.value.inFlight == st.value.inFlight - 1
          && st'.value.seen == now
          && (st'.value.failures < FREE_ATTEMPTS ==> st'.value.until == st.value.until)
          && (st'.value.failures >= FREE_ATTEMPTS ==> st'.value.until == now + Lockout(st'.value.failures)))
  }

  /** One attempt less and nothing else; a record goes only if it has neither failures, attempts nor a lockout. */
  predicate ReleasedOnly(st: Option<Attempt>, st': Option<Attempt>, now: int) {
    && (st.None? ==> st'.None?)
    && (st.Some? && st.value.inFlight > 0 ==>
          var left := st.value.(inFlight := st.value.inFlight - 1, seen := now);
          st' == if left.failures == 0 && left.inFlight == 0 && now >= left.until then None else Some(left))
  }

  /** A user has one attempt less, and is forgotten after the last. */
  predicate UserReleased(st: Option<Attempt>, st': Option<Attempt>) {
    && (st.None? ==> st'.None?)
    && (st.Some? && st.value.inFlight > 0 ==>
          if st.value.inFlight == 1 then st'.None?
          else st'.Some? && st'.value.inFlight == st.value.inFlight - 1 && st'.value.failures == st.value.failures)
  }

  /** The identity has no failures left, and its IP not those that were the identity's. */
  predicate Forgiven(t: Tables, t': Tables, k: Key)
    requires k in t.byKey
  {
    var st := t.byKey[k];
    && (st.inFlight > 0 ==>
        if st.inFlight == 1 then k !in t'.byKey
        else k in t'.byKey && t'.byKey[k].failures == 0 && t'.byKey[k].until == NO_LOCKOUT
             && t'.byKey[k].inFlight == st.inFlight - 1)
    && (k.ip in t.byIP && 0 <= st.failures <= t.byIP[k.ip].failures && t.byIP[k.ip].inFlight > 0 ==>
          var ip, left := t.byIP[k.ip], OrNew(Lookup(t'.byIP, k.ip));
          && left.failures == ip.failures - st.failures && left.inFlight == ip.inFlight - 1
          && left.until == if left.failures < FREE_ATTEMPTS then NO_LOCKOUT else ip.until)
  }

  /** What a failure does. */
  ghost predicate FailsOnce(t: Tables, t': Tables, k: Key, now: int) {
    && OthersSame(t, t', k) && FailedMore(Lookup(t.byKey, k), Lookup(t'.byKey, k), now)
    && FailedMore(Lookup(t.byIP, k.ip), Lookup(t'.byIP, k.ip), now)
    && UserReleased(Lookup(t.byUser, k.user), Lookup(t'.byUser, k.user))
  }

  /** What a cancellation does: it changes no failures and no lockout. */
  ghost predicate CancelsOnce(t: Tables, t': Tables, k: Key, now: int) {
    && OthersSame(t, t', k) && ReleasedOnly(Lookup(t.byKey, k), Lookup(t'.byKey, k), now)
    && ReleasedOnly(Lookup(t.byIP, k.ip), Lookup(t'.byIP, k.ip), now)
    && UserReleased(Lookup(t.byUser, k.user), Lookup(t'.byUser, k.user))
  }

  lemma FailFailsOnce(t: Tables, k: Key, now: int)
    requires InProgress(t, k)
    ensures FailsOnce(t, Fail(t, k, now), k, now)
  {
  }

  lemma CancelCancelsOnce(t: Tables, k: Key, now: int)
    requires InProgress(t, k)
    ensures CancelsOnce(t, Cancel(t, k, now), k, now)
  {
  }

  lemma SucceedSucceedsOnce(t: Tables, k: Key, now: int)
    requires InProgress(t, k) && 0 <= now
    ensures SucceedsOnce(t, Succeed(t, k, now), k)
  {
  }

  /** What a success does. */
  ghost predicate SucceedsOnce(t: Tables, t': Tables, k: Key)
    requires k in t.byKey
  {
    OthersSame(t, t', k) && Forgiven(t, t', k) && UserReleased(Lookup(t.byUser, k.user), Lookup(t'.byUser, k.user))
  }

  /** The records after a granted reservation. `detached` says that the reservation still holds an
      IP record that is no longer in the table: its increment is lost. */
  function Admit(t: Tables, k: Key, detached: bool, now: int): Tables {
    Apply(t, k, Change(
      Some(Reserved(OrNew(Lookup(t.byKey, k)), now)),
      if detached then None else Some(Reserved(OrNew(Lookup(t.byIP, k.ip)), now)),
      Some(Reserved(OrNew(Lookup(t.byUser, k.user)), now))))
  }

  // ---------- the invariant ----------

  function FailuresAt(ip: string): (Key, Attempt) -> int {
    (k: Key, st: Attempt) => if k.ip == ip then st.failures else 0
  }

  function InFlightAt(ip: string): (Key, Attempt) -> int {
    (k: Key, st: Attempt) => if k.ip == ip then st.inFlight else 0
  }

  function InFlightOf(user: string): (Key, Attempt) -> int {
    (k: Key, st: Attempt) => if k.user == user then st.inFlight else 0
  }

  ghost function IpFailures(m: map<Key, Attempt>, ip: string): int { Total(m, FailuresAt(ip)) }
  ghost function IpInFlight(m: map<Key, Attempt>, ip: string): int { Total(m, InFlightAt(ip)) }
  ghost function UserInFlight(m: map<Key, Attempt>, user: string): int { Total(m, InFlightOf(user)) }

  /** Five free attempts count failures and work in progress; past them one attempt at a time. */
  predicate WithinBudget(st: Attempt) {
    && 0 <= st.failures && 0 <= st.inFlight
    && (if st.failures < FREE_ATTEMPTS then st.failures + st.inFlight <= FREE_ATTEMPTS else st.inFlight <= 1)
  }

  predicate RecordOk(st: Attempt, now: int) {
    && WithinBudget(st)
    && 0 <= st.seen <= now
    && NO_LOCKOUT <= st.until && (st.failures < FREE_ATTEMPTS ==> st.until == NO_LOCKOUT)
  }

  /** A lockout ends no later than the failures it was imposed for allow. */
  predicate LockoutBounded(st: Attempt) {
    st.failures >= FREE_ATTEMPTS ==> st.until <= st.seen + Lockout(st.failures)
  }

  /** An identity has a record of its IP that was seen no earlier and is locked no shorter. */
  predicate IdentityOk(t: Tables, k: Key, now: int)
    requires k in t.byKey
  {
    var st := t.byKey[k];
    && RecordOk(st, now) && LockoutBounded(st) && st.failures + st.inFlight > 0
    && k.ip in t.byIP && st.seen <= t.byIP[k.ip].seen && st.until <= t.byIP[k.ip].until
    && (st.inFlight > 0 ==> k.user in t.byUser)
  }

  ghost predicate IpOk(t: Tables, ip: string, now: int)
    requires ip in t.byIP
  {
    var st := t.byIP[ip];
    RecordOk(st, now) && st.failures == IpFailures(t.byKey, ip) && st.inFlight == IpInFlight(t.byKey, ip)
  }

  ghost predicate UserOk(t: Tables, user: string)
    requires user in t.byUser
  {
    var st := t.byUser[user];
    st.failures == 0 && 1 <= st.inFlight <= FREE_ATTEMPTS && st.inFlight == UserInFlight(t.byKey, user)
  }

  ghost predicate Consistent(t: Tables, now: int) {
    && (forall k {:trigger IdentityOk(t, k, now)} :: k in t.byKey ==> IdentityOk(t, k, now))
    && (forall ip {:trigger IpOk(t, ip, now)} :: ip in t.byIP ==> IpOk(t, ip, now))
    && (forall user {:trigger UserOk(t, user)} :: user in t.byUser ==> UserOk(t, user))
  }

  // ---------- how the sums move ----------

  /** The totals of one IP and one user when only identity `k` changes. */
  lemma SumsChange(m: map<Key, Attempt>, k: Key, st: Option<Attempt>, ip: string, user: string)
    ensures
      var m' := Put(m, k, st);
      var was := OrNew(Lookup(m, k));
      && IpFailures(m', ip) == IpFailures(m, ip) + (if ip == k.ip then OrNew(st).failures - was.failures else 0)
      && IpInFlight(m', ip) == IpInFlight(m, ip) + (if ip == k.ip then OrNew(st).inFlight - was.inFlight else 0)
      && UserInFlight(m', user) ==
         UserInFlight(m, user) + (if user == k.user then OrNew(st).inFlight - was.inFlight else 0)
  {
    var m' := Put(m, k, st);
    assert m' - {k} == m - {k};
    TotalChange(m, m', FailuresAt(ip), k);
    TotalChange(m, m', InFlightAt(ip), k);
    TotalChange(m, m', InFlightOf(user), k);
  }

  /** The record of an IP, if any, holds the totals over its identities. */
  lemma IpTotals(t: Tables, ip: string, now: int)
    requires Consistent(t, now)
    ensures OrNew(Lookup(t.byIP, ip)).failures == IpFailures(t.byKey, ip)
    ensures OrNew(Lookup(t.byIP, ip)).inFlight == IpInFlight(t.byKey, ip)
  {
    if ip in t.byIP {
      assert IpOk(t, ip, now);
    } else {
      forall k | k in t.byKey ensures k.ip != ip { assert IdentityOk(t, k, now); }
      TotalZero(t.byKey, FailuresAt(ip));
      TotalZero(t.byKey, InFlightAt(ip));
    }
  }

  lemma UserTotals(t: Tables, user: string, now: int)
    requires Consistent(t, now)
    ensures OrNew(Lookup(t.byUser, user)).inFlight == UserInFlight(t.byKey, user)
  {
    if user in t.byUser {
      assert UserOk(t, user);
    } else {
      forall k | k in t.byKey ensures InFlightOf(user)(k, t.byKey[k]) == 0 { assert IdentityOk(t, k, now); }
      TotalZero(t.byKey, InFlightOf(user));
    }
  }

  /** The totals of the IP cover two of its identities at once. */
  lemma OthersCount(t: Tables, k: Key, j: Key, now: int)
    requires Consistent(t, now)
    requires k in t.byKey && j in t.byKey && j != k && j.ip == k.ip
    ensures k.ip in t.byIP && t.byKey[k].failures + t.byKey[j].failures <= t.byIP[k.ip].failures
    ensures t.byKey[k].inFlight + t.byKey[j].inFlight <= t.byIP[k.ip].inFlight
  {
    assert IdentityOk(t, k, now);
    assert IpOk(t, k.ip, now);
    var rest := t.byKey - {k};
    forall i | i in rest ensures 0 <= FailuresAt(k.ip)(i, rest[i]) {
      assert IdentityOk(t, i, now) && rest[i] == t.byKey[i];
    }
    forall i | i in rest ensures 0 <= InFlightAt(k.ip)(i, rest[i]) {
      assert IdentityOk(t, i, now) && rest[i] == t.byKey[i];
    }
    assert j in rest;
    TotalRemove(t.byKey, FailuresAt(k.ip), k);
    TotalRemove(t.byKey, InFlightAt(k.ip), k);
    TotalBounds(rest, FailuresAt(k.ip));
    TotalBounds(rest, InFlightAt(k.ip));
    assert FailuresAt(k.ip)(j, rest[j]) == t.byKey[j].failures;
    assert InFlightAt(k.ip)(j, rest[j]) == t.byKey[j].inFlight;
  }

  // ---------- every operation keeps the tables consistent ----------

  /** Consistency survives the passage of time. */
  lemma LaterConsistent(t: Tables, before: int, now: int)
    requires Consistent(t, before) && before <= now
    ensures Consistent(t, now)
  {
    forall k | k in t.byKey ensures IdentityOk(t, k, now) { assert IdentityOk(t, k, before); }
    forall ip | ip in t.byIP ensures IpOk(t, ip, now) { assert IpOk(t, ip, before); }
  }

  predicate SameMove(before: Attempt, after: Attempt, idBefore: Attempt, idAfter: Attempt) {
    && after.failures - before.failures == idAfter.failures - idBefore.failures
    && after.inFlight - before.inFlight == idAfter.inFlight - idBefore.inFlight
  }

  /** The identity, its IP and its user moved by the same amounts and stayed within their rules. */
  predicate Balanced(id: Attempt, ip: Attempt, user: Attempt, c: Change, now: int) {
    && SameMove(ip, OrNew(c.ip), id, OrNew(c.id))
    && OrNew(c.user).inFlight - user.inFlight == OrNew(c.id).inFlight - id.inFlight
    && OrNew(c.user).failures == 0 && OrNew(c.user).inFlight <= FREE_ATTEMPTS
    && (c.user.Some? <==> OrNew(c.user).inFlight > 0)
    && (c.ip.Some? ==> RecordOk(c.ip.value, now) && ip.seen <= c.ip.value.seen)
    && (c.id.Some? ==>
          && RecordOk(c.id.value, now) && LockoutBounded(c.id.value) && c.id.value.failures + c.id.value.inFlight > 0
          && c.ip.Some? && c.id.value.seen <= c.ip.value.seen && c.id.value.until <= c.ip.value.until
          && (c.id.value.inFlight > 0 ==> c.user.Some?))
  }

  predicate ChangeOk(t: Tables, k: Key, c: Change, now: int) {
    && Balanced(OrNew(Lookup(t.byKey, k)), OrNew(Lookup(t.byIP, k.ip)), OrNew(Lookup(t.byUser, k.user)), c, now)
    && (forall j :: j in t.byKey && j.ip == k.ip && j != k ==> c.ip.Some? && t.byKey[j].until <= c.ip.value.until)
  }

  /** Another identity of the same user with work in progress keeps the user's record. */
  lemma OthersInFlight(t: Tables, k: Key, c: Change, j: Key, now: int)
    requires Consistent(t, now) && ChangeOk(t, k, c, now)
    requires j != k && j in t.byKey && j.user == k.user && t.byKey[j].inFlight > 0
    ensures c.user.Some?
  {
    var m' := Put(t.byKey, k, c.id);
    SumsChange(t.byKey, k, c.id, "", k.user);
    UserTotals(t, k.user, now);
    forall i | i in m' ensures InFlightOf(k.user)(i, m'[i]) >= 0 {
      if i != k { assert IdentityOk(t, i, now); }
    }
    TotalBounds(m', InFlightOf(k.user));
    assert InFlightOf(k.user)(j, m'[j]) == t.byKey[j].inFlight;
  }

  lemma ChangeKeepsIdentity(t: Tables, k: Key, c: Change, j: Key, now: int)
    requires Consistent(t, now) && ChangeOk(t, k, c, now) && j in Apply(t, k, c).byKey
    ensures IdentityOk(Apply(t, k, c), j, now)
  {
    if j != k {
      assert IdentityOk(t, j, now);
      if t.byKey[j].inFlight > 0 && j.user == k.user {
        OthersInFlight(t, k, c, j, now);
      }
    }
  }

  lemma ChangeKeepsIp(t: Tables, k: Key, c: Change, ip: string, now: int)
    requires Consistent(t, now) && ChangeOk(t, k, c, now) && ip in Apply(t, k, c).byIP
    ensures IpOk(Apply(t, k, c), ip, now)
  {
    SumsChange(t.byKey, k, c.id, ip, "");
    IpTotals(t, ip, now);
    if ip != k.ip { assert IpOk(t, ip, now); }
  }

  lemma ChangeKeepsUser(t: Tables, k: Key, c: Change, user: string, now: int)
    requires Consistent(t, now) && ChangeOk(t, k, c, now) && user in Apply(t, k, c).byUser
    ensures UserOk(Apply(t, k, c), user)
  {
    SumsChange(t.byKey, k, c.id, "", user);
    UserTotals(t, user, now);
    if user != k.user { assert UserOk(t, user); }
  }

  /** The one argument behind every operation. */
  lemma ChangeKeeps(t: Tables, k: Key, c: Change, now: int)
    requires Consistent(t, now) && ChangeOk(t, k, c, now)
    ensures Consistent(Apply(t, k, c), now)
  {
    var t' := Apply(t, k, c);
    forall j | j in t'.byKey ensures IdentityOk(t', j, now) { ChangeKeepsIdentity(t, k, c, j, now); }
    forall ip | ip in t'.byIP ensures IpOk(t', ip, now) { ChangeKeepsIp(t, k, c, ip, now); }
    forall user | user in t'.byUser ensures UserOk(t', user) { ChangeKeepsUser(t, k, c, user, now); }
  }

  /** What consistency says about an identity in the table and the records it shares. */
  lemma Known(t: Tables, k: Key, now: int)
    requires Consistent(t, now) && k in t.byKey
    ensures IdentityOk(t, k, now) && IpOk(t, k.ip, now)
    ensures k.user in t.byUser ==> UserOk(t, k.user)
    ensures t.byKey[k].inFlight <= OrNew(Lookup(t.byUser, k.user)).inFlight
    ensures t.byKey[k].failures <= t.byIP[k.ip].failures && t.byKey[k].inFlight <= t.byIP[k.ip].inFlight
  {
    assert IdentityOk(t, k, now) && IpOk(t, k.ip, now);
    forall i | i in t.byKey
      ensures FailuresAt(k.ip)(i, t.byKey[i]) >= 0 && InFlightAt(k.ip)(i, t.byKey[i]) >= 0
      ensures InFlightOf(k.user)(i, t.byKey[i]) >= 0
    {
      assert IdentityOk(t, i, now);
    }
    TotalBounds(t.byKey, FailuresAt(k.ip));
    TotalBounds(t.byKey, InFlightAt(k.ip));
    TotalBounds(t.byKey, InFlightOf(k.user));
    UserTotals(t, k.user, now);
    assert FailuresAt(k.ip)(k, t.byKey[k]) == t.byKey[k].failures;
    assert InFlightAt(k.ip)(k, t.byKey[k]) == t.byKey[k].inFlight;
    assert InFlightOf(k.user)(k, t.byKey[k]) == t.byKey[k].inFlight;
  }

  lemma DropKeeps(t: Tables, k: Key, now: int)
    requires Consistent(t, now) && k in t.byKey && t.byKey[k].inFlight == 0
    ensures Consistent(DropIdentity(t, k, now), now)
  {
    Known(t, k, now);
    var ip := Without(t.byIP[k.ip], t.byKey[k], now);
    var c := Change(None, UnlessEmpty(ip, now), Lookup(t.byUser, k.user));
    forall j | j in t.byKey && j.ip == k.ip && j != k ensures c.ip.Some? && t.byKey[j].until <= c.ip.value.until {
      Known(t, j, now);
      OthersCount(t, k, j, now);
    }
    ChangeKeeps(t, k, c, now);
  }

  /** A failure locks the IP at least as long as each of its identities. */
  lemma FailureLocksIp(t: Tables, k: Key, j: Key, now: int)
    requires Consistent(t, now) && InProgress(t, k) && j in t.byKey && j.ip == k.ip
    ensures k.ip in t.byIP
    ensures (if j == k then ConvertFail(t.byKey[k], now) else t.byKey[j]).until <= ConvertFail(t.byIP[k.ip], now).until
  {
    Known(t, j, now);
    var failures := if j == k then t.byKey[j].failures + 1 else t.byKey[j].failures;
    if failures >= FREE_ATTEMPTS {
      LockoutGrows(failures, t.byIP[k.ip].failures + 1);
    }
  }

  lemma FailedKeeps(t: Tables, k: Key, now: int)
    requires Consistent(t, now)
    ensures Consistent(Fail(t, k, now), now)
  {
    if InProgress(t, k) {
      Known(t, k, now);
      FailureLocksIp(t, k, k, now);
      var id, ip := ConvertFail(t.byKey[k], now), ConvertFail(t.byIP[k.ip], now);
      var c := Change(Some(id), Some(ip), ReleaseUser(Lookup(t.byUser, k.user), now));
      forall j | j in t.byKey && j.ip == k.ip && j != k ensures t.byKey[j].until <= ip.until {
        FailureLocksIp(t, k, j, now);
      }
      ChangeKeeps(t, k, c, now);
    }
  }

  lemma CanceledKeeps(t: Tables, k: Key, now: int)
    requires Consistent(t, now)
    ensures Consistent(Cancel(t, k, now), now)
  {
    if InProgress(t, k) {
      Known(t, k, now);
      var id, ip := Release(t.byKey[k], now), Release(t.byIP[k.ip], now);
      var c := Change(UnlessEmpty(id, now), UnlessEmpty(ip, now), ReleaseUser(Lookup(t.byUser, k.user), now));
      forall j | j in t.byKey && j.ip == k.ip && j != k ensures c.ip.Some? && t.byKey[j].until <= c.ip.value.until {
        Known(t, j, now);
        OthersCount(t, k, j, now);
      }
      ChangeKeeps(t, k, c, now);
    }
  }

  lemma SucceededKeeps(t: Tables, k: Key, now: int)
    requires Consistent(t, now)
    ensures Consistent(Succeed(t, k, now), now)
  {
    if InProgress(t, k) {
      Known(t, k, now);
      var id := Attempt(0, NO_LOCKOUT, now, Positive(t.byKey[k].inFlight));
      var ip := AfterSuccess(t.byIP[k.ip], t.byKey[k].failures, now);
      var c := Change(UnlessEmpty(id, now), UnlessEmpty(ip, now), ReleaseUser(Lookup(t.byUser, k.user), now));
      forall j | j in t.byKey && j.ip == k.ip && j != k ensures c.ip.Some? && t.byKey[j].until <= c.ip.value.until {
        Known(t, j, now);
        OthersCount(t, k, j, now);
      }
      ChangeKeeps(t, k, c, now);
    }
  }

  lemma AdmitKeeps(t: Tables, k: Key, now: int)
    requires Consistent(t, now) && 0 <= now
    requires CanReserve(OrNew(Lookup(t.byIP, k.ip)), now) && CanReserve(OrNew(Lookup(t.byKey, k)), now)
    requires OrNew(Lookup(t.byUser, k.user)).inFlight < FREE_ATTEMPTS
    ensures Consistent(Admit(t, k, false, now), now)
  {
    var id := Reserved(OrNew(Lookup(t.byKey, k)), now);
    var ip := Reserved(OrNew(Lookup(t.byIP, k.ip)), now);
    var user := Reserved(OrNew(Lookup(t.byUser, k.user)), now);
    if k in t.byKey { Known(t, k, now); }
    if k.ip in t.byIP { assert IpOk(t, k.ip, now); }
    if k.user in t.byUser { assert UserOk(t, k.user); }
    forall j | j in t.byKey && j.ip == k.ip && j != k ensures t.byKey[j].until <= ip.until {
      assert IdentityOk(t, j, now);
    }
    ChangeKeeps(t, k, Change(Some(id), Some(ip), Some(user)), now);
  }

  /** An IP record that is idle while none of its identities is can only be a record without
      identities, so pruning it loses no contribution. */
  lemma PruneIpKeeps(t: Tables, ip: string, now: int, expiry: int)
    requires Consistent(t, now) && ip in t.byIP && SafeToPrune(t.byIP[ip], now, expiry)
    requires forall k :: k in t.byKey ==> !SafeToPrune(t.byKey[k], now, expiry)
    ensures Consistent(t.(byIP := t.byIP - {ip}), now)
  {
    var t' := t.(byIP := t.byIP - {ip});
    forall k | k in t.byKey ensures k.ip != ip && IdentityOk(t', k, now) {
      Known(t, k, now);
    }
    forall other | other in t'.byIP ensures IpOk(t', other, now) { assert IpOk(t, other, now); }
    forall user | user in t'.byUser ensures UserOk(t', user) { assert UserOk(t, user); }
  }

  function IdentitiesOf(m: map<Key, Attempt>, ip: string): set<Key> {
    set k | k in m && k.ip == ip
  }

  /** Evicting an IP with all its identities, none of which is at work. */
  function DropIp(t: Tables, ip: string): Tables {
    Tables(t.byIP - {ip}, t.byKey - IdentitiesOf(t.byKey, ip), t.byUser)
  }

  lemma DropIpKeeps(t: Tables, ip: string, now: int)
    requires Consistent(t, now)
    requires forall k :: k in t.byKey && k.ip == ip ==> t.byKey[k].inFlight == 0
    ensures Consistent(DropIp(t, ip), now)
  {
    var t' := DropIp(t, ip);
    var gone := IdentitiesOf(t.byKey, ip);
    forall k | k in t'.byKey ensures IdentityOk(t', k, now) { assert IdentityOk(t, k, now); }
    forall other | other in t'.byIP ensures IpOk(t', other, now) {
      assert IpOk(t, other, now);
      TotalWithout(t.byKey, gone, FailuresAt(other));
      TotalWithout(t.byKey, gone, InFlightAt(other));
    }
    forall user | user in t'.byUser ensures UserOk(t', user) {
      assert UserOk(t, user);
      TotalWithout(t.byKey, gone, InFlightOf(user));
    }
  }

  // ---------- the eviction that breaks the tables ----------

  predicate SoleIdentity(m: map<Key, Attempt>, k: Key) {
    k in m && forall j :: j in m && j.ip == k.ip ==> j == k
  }

  /** Dropping an idle identity removes its IP record exactly when it was the IP's only identity. */
  lemma DropRemovesIpIff(t: Tables, k: Key, now: int)
    requires Consistent(t, now) && 0 <= now && k in t.byKey && Evictable(t.byKey[k], now)
    ensures k.ip !in DropIdentity(t, k, now).byIP <==> SoleIdentity(t.byKey, k)
    ensures forall ip :: ip != k.ip ==> (ip in DropIdentity(t, k, now).byIP <==> ip in t.byIP)
  {
    Known(t, k, now);
    var rest := t.byKey - {k};
    TotalRemove(t.byKey, FailuresAt(k.ip), k);
    TotalRemove(t.byKey, InFlightAt(k.ip), k);
    if SoleIdentity(t.byKey, k) {
      TotalZero(rest, FailuresAt(k.ip));
      TotalZero(rest, InFlightAt(k.ip));
    } else {
      var j :| j in t.byKey && j.ip == k.ip && j != k;
      Known(t, j, now);
      OthersCount(t, k, j, now);
    }
  }

  /** The tables that a granted reservation leaves when it evicted identity `victim` first: the
      reservation increments the IP record it had looked up before the eviction. */
  function AdmitAfterEviction(t: Tables, k: Key, victim: Key, now: int): Tables
    requires victim in t.byKey
  {
    var t' := DropIdentity(t, victim, now);
    Admit(t', k, k.ip in t.byIP && k.ip !in t'.byIP, now)
  }

  /** A reservation that evicts keeps the tables consistent if and only if the victim is not the
      only identity of the very IP it is reserving for. In that case the IP has work in progress but
      no record, which is the mismatch that the source's own check reports. */
  lemma EvictionKeepsIff(t: Tables, k: Key, victim: Key, now: int)
    requires Consistent(t, now) && 0 <= now
    requires k !in t.byKey && victim in t.byKey && Evictable(t.byKey[victim], now)
    requires
      var t' := DropIdentity(t, victim, now);
      CanReserve(OrNew(Lookup(t'.byIP, k.ip)), now) && OrNew(Lookup(t'.byUser, k.user)).inFlight < FREE_ATTEMPTS
    ensures
      var after := AdmitAfterEviction(t, k, victim, now);
      && (Consistent(after, now) <==> !(victim.ip == k.ip && SoleIdentity(t.byKey, victim)))
      && (victim.ip == k.ip && SoleIdentity(t.byKey, victim) ==>
            k.ip !in after.byIP && IpInFlight(after.byKey, k.ip) == 1)
  {
    var t' := DropIdentity(t, victim, now);
    var after := AdmitAfterEviction(t, k, victim, now);
    DropKeeps(t, victim, now);
    DropRemovesIpIff(t, victim, now);
    if victim.ip == k.ip && SoleIdentity(t.byKey, victim) {
      Known(t, victim, now);
      IpTotals(t', k.ip, now);
      SumsChange(t'.byKey, k, Some(Reserved(NEW_ATTEMPT, now)), k.ip, "");
      assert !IdentityOk(after, k, now);
    } else {
      AdmitKeeps(t', k, now);
    }
  }

  // ---------- the limiter ----------

  /** The identities that a sweep keeps. */
  function Unpruned(m: map<Key, Attempt>, now: int, expiry: int): map<Key, Attempt> {
    map k | k in m && !SafeToPrune(m[k], now, expiry) :: m[k]
  }

  /** `k` is an evictable identity, and none was seen earlier. */
  predicate Oldest(m: map<Key, Attempt>, k: Key, now: int) {
    && k in m && Evictable(m[k], now)
    && forall j :: j in m && Evictable(m[j], now) ==> m[k].seen <= m[j].seen
  }

  /** An IP none of whose records is at work or locked out. */
  ghost predicate EvictableIp(t: Tables, ip: string, now: int) {
    && ip in t.byIP && Evictable(t.byIP[ip], now)
    && forall k :: k in t.byKey && k.ip == ip ==> Evictable(t.byKey[k], now)
  }

  /** And none such was seen earlier. */
  ghost predicate OldestIp(t: Tables, ip: string, now: int) {
    EvictableIp(t, ip, now) && forall other :: EvictableIp(t, other, now) ==> t.byIP[ip].seen <= t.byIP[other].seen
  }

  /** The tables after a full sweep: exactly the identities that are safe to prune are gone, and no IP is left that
      is. */
  ghost predicate IsSweep(t: Tables, t': Tables, now: int, expiry: int) {
    && Consistent(t', now) && t'.byUser == t.byUser && t'.byIP.Keys <= t.byIP.Keys
    && t'.byKey == Unpruned(t.byKey, now, expiry)
    && forall ip :: ip in t'.byIP ==> !SafeToPrune(t'.byIP[ip], now, expiry)
  }

  lemma SweepTwice(t: Tables, t': Tables, t'': Tables, now: int, expiry: int)
    requires IsSweep(t, t', now, expiry) && IsSweep(t', t'', now, expiry)
    ensures IsSweep(t, t'', now, expiry)
  {
    UnprunedTwice(t.byKey, now, expiry);
  }

  /** After a sweep an IP that may be evicted has identities, so that its eviction makes room for one. */
  lemma EvictedIpFrees(t: Tables, ip: string, now: int, expiry: int)
    requires Consistent(t, now) && EvictableIp(t, ip, now) && !SafeToPrune(t.byIP[ip], now, expiry)
    ensures |DropIp(t, ip).byKey| < |t.byKey|
  {
    assert IpOk(t, ip, now);
    if IdentitiesOf(t.byKey, ip) == {} {
      forall k | k in t.byKey ensures FailuresAt(ip)(k, t.byKey[k]) == 0 {
        assert k !in IdentitiesOf(t.byKey, ip);
      }
      TotalZero(t.byKey, FailuresAt(ip));
    }
    var k :| k in IdentitiesOf(t.byKey, ip);
    var rest := DropIp(t, ip).byKey;
    FewerKeys(rest, t.byKey - {k});
    assert t.byKey.Keys == (t.byKey - {k}).Keys + {k};
  }

  /** An IP or an identity is wanted for which there is no room. */
  predicate NoIpLeft(t: Tables, k: Key, maxIP: nat) {
    k.ip !in t.byIP && |t.byIP| >= maxIP
  }

  predicate NoKeyLeft(t: Tables, k: Key, maxKey: nat) {
    k !in t.byKey && |t.byKey| >= maxKey
  }

  /** Room can be made by an eviction, where it is wanted. */
  ghost predicate RoomFor(t: Tables, k: Key, now: int, maxIP: nat, maxKey: nat) {
    if NoIpLeft(t, k, maxIP) then exists ip :: EvictableIp(t, ip, now)
    else if NoKeyLeft(t, k, maxKey) then exists j :: j in t.byKey && Evictable(t.byKey[j], now)
    else true
  }

  /** The tables that a reservation looks at, after the eviction of an identity. */
  function Evicted(t: Tables, victim: Option<Key>, now: int): Tables {
    if victim.Some? && victim.value in t.byKey then DropIdentity(t, victim.value, now) else t
  }

  /** A sweep leaves every count of attempts under way. */
  lemma SweptInFlight(t: Tables, t': Tables, k: Key, now: int, expiry: int)
    requires Consistent(t, now) && IsSweep(t, t', now, expiry)
    ensures OrNew(Lookup(t'.byKey, k)).inFlight == OrNew(Lookup(t.byKey, k)).inFlight
  {
    assert k in t.byKey ==> IdentityOk(t, k, now);
  }

  /** A reservation for `k` is counted for the identity and the user, if it was granted. */
  ghost predicate Counted(t: Tables, t': Tables, k: Key, now: int, ok: bool) {
    if ok then
      && k in t'.byKey && t'.byKey[k].seen == now
      && t'.byKey[k].inFlight == OrNew(Lookup(t.byKey, k)).inFlight + 1
      && t'.byUser == t.byUser[k.user := Reserved(OrNew(Lookup(t.byUser, k.user)), now)]
    else t'.byUser == t.byUser
  }

  /** Tables in which a reservation for `k` may evict the only identity of its own IP: the identities are many and
      none can be swept, `k` is new, and an oldest one that may be evicted is the only one of the IP. */
  predicate AtRisk(t: Tables, k: Key, now: int, expiry: int, maxKey: nat) {
    && k !in t.byKey && |Unpruned(t.byKey, now, expiry)| >= maxKey
    && exists j :: j in t.byKey && j.ip == k.ip && SoleIdentity(t.byKey, j) && Oldest(t.byKey, j, now)
  }

  /** In such tables there is nothing to sweep, and an identity must be evicted. */
  lemma AtRiskSwept(t: Tables, t': Tables, k: Key, now: int, expiry: int, maxIP: nat, maxKey: nat)
    requires Consistent(t, now) && |t.byKey| <= maxKey && AtRisk(t, k, now, expiry, maxKey)
    requires t' == t || IsSweep(t, t', now, expiry)
    ensures t'.byKey == t.byKey && NoKeyLeft(t', k, maxKey) && !NoIpLeft(t', k, maxIP)
    ensures RoomFor(t', k, now, maxIP, maxKey)
  {
    UnprunedAll(t.byKey, now, expiry);
    var j :| j in t.byKey && j.ip == k.ip && SoleIdentity(t.byKey, j) && Oldest(t.byKey, j, now);
    Known(t', j, now);
  }

  /** An eviction that does harm is made in such tables only. */
  lemma OnlyAtRisk(t: Tables, t': Tables, k: Key, victim: Key, now: int, expiry: int, maxKey: nat)
    requires Consistent(t, now) && |t.byKey| <= maxKey && IsSweep(t, t', now, expiry)
    requires NoKeyLeft(t', k, maxKey) && Oldest(t'.byKey, victim, now)
    requires victim.ip == k.ip && SoleIdentity(t'.byKey, victim)
    ensures AtRisk(t, k, now, expiry, maxKey)
  {
    UnprunedAll(t.byKey, now, expiry);
  }

  /** Once that identity is gone, only the user can be in the way. */
  lemma HarmIsGranted(t: Tables, k: Key, victim: Key, now: int)
    requires Consistent(t, now) && 0 <= now && k !in t.byKey && Oldest(t.byKey, victim, now)
    requires victim.ip == k.ip && SoleIdentity(t.byKey, victim)
    ensures MayTry(Evicted(t, Some(victim), now), k, now) <==> OrNew(Lookup(t.byUser, k.user)).inFlight < FREE_ATTEMPTS
  {
    DropRemovesIpIff(t, victim, now);
  }

  lemma UnprunedAll(m: map<Key, Attempt>, now: int, expiry: int)
    requires |Unpruned(m, now, expiry)| >= |m|
    ensures Unpruned(m, now, expiry) == m
  {
    var rest := Unpruned(m, now, expiry);
    assert m.Keys == rest.Keys + (m.Keys - rest.Keys) && |m.Keys| == |rest.Keys| + |m.Keys - rest.Keys|;
    assert m.Keys - rest.Keys == {};
  }

  // ---------- lockouts last ----------

  function FailuresOf(t: Tables, ip: string): int {
    OrNew(Lookup(t.byIP, ip)).failures
  }

  /** A record that can be locked. */
  datatype Subject = OfKey(k: Key) | OfIp(ip: string)

  /** An identity that is locked stays as locked. The failures of an IP do not rise, and as long as they do not fall
      either, an IP past its free attempts stays locked as long. */
  predicate LockKept(t: Tables, t': Tables, now: int, x: Subject) {
    match x
    case OfKey(k) =>
      k in t.byKey && now < t.byKey[k].until ==> k in t'.byKey && t'.byKey[k].until == t.byKey[k].until
    case OfIp(ip) =>
      && FailuresOf(t', ip) <= FailuresOf(t, ip)
      && (FailuresOf(t', ip) == FailuresOf(t, ip) >= FREE_ATTEMPTS ==> t'.byIP[ip].until == t.byIP[ip].until)
  }

  ghost predicate LocksKept(t: Tables, t': Tables, now: int) {
    forall x :: LockKept(t, t', now, x)
  }

  lemma LocksTrans(a: Tables, b: Tables, c: Tables, now: int)
    requires LocksKept(a, b, now) && LocksKept(b, c, now)
    ensures LocksKept(a, c, now)
  {
    forall x ensures LockKept(a, c, now, x) {
      assert LockKept(a, b, now, x) && LockKept(b, c, now, x);
    }
  }

  lemma DropLocks(t: Tables, k: Key, now: int)
    requires Consistent(t, now) && k in t.byKey && now >= t.byKey[k].until
    ensures LocksKept(t, DropIdentity(t, k, now), now)
  {
    Known(t, k, now);
    assert IpOk(t, k.ip, now);
    forall x ensures LockKept(t, DropIdentity(t, k, now), now, x) {}
  }

  lemma DropIpLocks(t: Tables, ip: string, now: int)
    requires Consistent(t, now) && EvictableIp(t, ip, now)
    ensures LocksKept(t, DropIp(t, ip), now)
  {
    assert IpOk(t, ip, now);
  }

  lemma PruneIpLocks(t: Tables, ip: string, now: int)
    requires Consistent(t, now) && ip in t.byIP
    ensures LocksKept(t, t.(byIP := t.byIP - {ip}), now)
  {
    assert IpOk(t, ip, now);
  }

  lemma AdmitLocks(t: Tables, k: Key, detached: bool, now: int)
    requires detached ==> k.ip !in t.byIP
    ensures LocksKept(t, Admit(t, k, detached, now), now)
  {
  }

  lemma GrantLocks(t: Tables, t': Tables, k: Key, detached: bool, ok: bool, now: int)
    requires (detached ==> k.ip !in t.byIP) && t' == if ok then Admit(t, k, detached, now) else t
    ensures LocksKept(t, t', now)
  {
    AdmitLocks(t, k, detached, now);
  }

  /** A call that is granted did not find its identity locked, nor its IP unless the failures of the IP fell. */
  ghost predicate Refuses(t: Tables, t': Tables, k: Key, now: int, ok: bool) {
    ok ==>
      && (k in t.byKey ==> now >= t.byKey[k].until)
      && (FailuresOf(t, k.ip) >= FREE_ATTEMPTS && now < t.byIP[k.ip].until ==>
            FailuresOf(t', k.ip) < FailuresOf(t, k.ip))
  }

  lemma RefusesLocked(t: Tables, made: Tables, t': Tables, k: Key, now: int, ok: bool)
    requires LocksKept(t, made, now) && LocksKept(made, t', now) && (ok ==> MayTry(made, k, now))
    ensures Refuses(t, t', k, now, ok)
  {
    assert LockKept(t, made, now, OfKey(k)) && LockKept(t, made, now, OfIp(k.ip));
    assert LockKept(made, t', now, OfIp(k.ip));
  }

  lemma RefusesEarlier(t: Tables, once: Tables, t': Tables, k: Key, now: int, ok: bool)
    requires LocksKept(t, once, now) && LocksKept(once, t', now) && Refuses(once, t', k, now, ok)
    ensures Refuses(t, t', k, now, ok)
  {
    assert LockKept(t, once, now, OfKey(k)) && LockKept(t, once, now, OfIp(k.ip));
    assert LockKept(once, t', now, OfIp(k.ip));
  }

  lemma MinusMore(m: map<Key, Attempt>, gone: set<Key>, k: Key)
    ensures m - gone - {k} == m - (gone + {k})
  {
  }

  /** Drops every identity of an IP. */
  method WithoutIp(m: map<Key, Attempt>, ip: string) returns (rest: map<Key, Attempt>)
    ensures rest == m - IdentitiesOf(m, ip)
  {
    rest := m;
    var todo := m.Keys;
    ghost var gone: set<Key> := {};
    while todo != {}
      invariant rest == m - gone
      invariant todo <= m.Keys && gone <= IdentitiesOf(m, ip) <= gone + todo
      decreases |todo|
    {
      var k :| k in todo;
      todo := todo - {k};
      if k.ip == ip {
        MinusMore(m, gone, k);
        rest := rest - {k};
        gone := gone + {k};
      }
    }
    assert gone == IdentitiesOf(m, ip);
  }

  /** IP and identity have an attempt left, and the user is not busy with five others. */
  predicate MayTry(t: Tables, k: Key, now: int) {
    && CanReserve(OrNew(Lookup(t.byIP, k.ip)), now) && CanReserve(OrNew(Lookup(t.byKey, k)), now)
    && OrNew(Lookup(t.byUser, k.user)).inFlight < FREE_ATTEMPTS
  }

  class Limiter {
    var byIP: map<string, Attempt>
    var byKey: map<Key, Attempt>
    var byUser: map<string, Attempt>
    var pruned: int
    var lastCapSweep: int
    const maxIP: nat
    const maxKey: nat
    const maxUser: nat
    const expiry: nat
    const pruneEvery: nat
    /** The latest clock value that an operation has used. */
    ghost var clock: int

    ghost function T(): Tables reads this {
      Tables(byIP, byKey, byUser)
    }

    ghost predicate WithinCapacity() reads this {
      |byIP| <= maxIP && |byKey| <= maxKey && |byUser| <= maxUser
    }

    ghost predicate Valid() reads this {
      Consistent(T(), clock) && WithinCapacity() && 0 <= clock
    }

    /** There is room for the records that a reservation needs. */
    ghost predicate Roomy(k: Key) reads this {
      && (k.ip in byIP || |byIP| < maxIP) && (k in byKey || |byKey| < maxKey)
      && (k.user in byUser || |byUser| < maxUser)
    }

    constructor (maxIP: nat, maxKey: nat, maxUser: nat, expiry: nat, pruneEvery: nat, now: nat)
      ensures Valid() && T() == Tables(map[], map[], map[]) && clock == now && lastCapSweep == 0
      ensures this.maxIP == maxIP && this.maxKey == maxKey && this.maxUser == maxUser
      ensures this.expiry == expiry && this.pruneEvery == pruneEvery && pruned == now
    {
      byIP, byKey, byUser := map[], map[], map[];
      pruned, lastCapSweep, clock := now, 0, now;
      this.maxIP, this.maxKey, this.maxUser, this.expiry, this.pruneEvery := maxIP, maxKey, maxUser, expiry, pruneEvery;
    }

    method DropIdentityLocked(k: Key, now: int)
      requires k in byKey
      modifies `byIP, `byKey
      ensures T() == DropIdentity(old(T()), k, now)
    {
      var st := byKey[k];
      if k.ip in byIP {
        byIP := Put(byIP, k.ip, UnlessEmpty(Without(byIP[k.ip], st, now), now));
      }
      byKey := byKey - {k};
      assert old(byIP) - {k.ip} == old(byIP) || k.ip in old(byIP);
      assert Put(byUser, k.user, Lookup(byUser, k.user)) == byUser;
    }

    method PruneIdentities(now: int)
      requires Consistent(T(), now)
      modifies `byIP, `byKey
      ensures Consistent(T(), now) && byKey == Unpruned(old(byKey), now, expiry)
      ensures byIP.Keys <= old(byIP).Keys && LocksKept(old(T()), T(), now)
    {
      var todo := byKey.Keys;
      while todo != {}
        invariant Consistent(T(), now) && LocksKept(old(T()), T(), now)
        invariant todo <= byKey.Keys <= old(byKey).Keys
        invariant forall k :: k in byKey ==> byKey[k] == old(byKey)[k]
        invariant forall k :: k in old(byKey) && k !in todo ==>
          (k in byKey <==> !SafeToPrune(old(byKey)[k], now, expiry))
        invariant byIP.Keys <= old(byIP).Keys
        decreases |todo|
      {
        var k :| k in todo;
        todo := todo - {k};
        if SafeToPrune(byKey[k], now, expiry) {
          assert IdentityOk(T(), k, now);
          DropKeeps(T(), k, now);
          DropLocks(T(), k, now);
          ghost var before := T();
          DropIdentityLocked(k, now);
          LocksTrans(old(T()), before, T(), now);
        }
      }
    }

    method PruneIps(now: int)
      requires Consistent(T(), now)
      requires forall k :: k in byKey ==> !SafeToPrune(byKey[k], now, expiry)
      modifies `byIP
      ensures Consistent(T(), now) && byIP.Keys <= old(byIP).Keys && LocksKept(old(T()), T(), now)
      ensures forall ip :: ip in byIP ==> !SafeToPrune(byIP[ip], now, expiry)
    {
      var todo := byIP.Keys;
      while todo != {}
        invariant Consistent(T(), now) && LocksKept(old(T()), T(), now)
        invariant todo <= byIP.Keys <= old(byIP).Keys
        invariant forall ip :: ip in byIP && ip !in todo ==> !SafeToPrune(byIP[ip], now, expiry)
        decreases |todo|
      {
        var ip :| ip in todo;
        todo := todo - {ip};
        if SafeToPrune(byIP[ip], now, expiry) {
          PruneIpKeeps(T(), ip, now, expiry);
          PruneIpLocks(T(), ip, now);
          ghost var before := T();
          byIP := byIP - {ip};
          LocksTrans(old(T()), before, T(), now);
        }
      }
    }

    method PruneUsers()
      modifies `byUser
      ensures byUser == map user | user in old(byUser) && old(byUser)[user].inFlight != 0 :: old(byUser)[user]
    {
      var todo := byUser.Keys;
      while todo != {}
        invariant todo <= byUser.Keys <= old(byUser).Keys
        invariant forall user :: user in byUser ==> byUser[user] == old(byUser)[user]
        invariant forall user :: user in old(byUser) && user !in todo ==>
          (user in byUser <==> old(byUser)[user].inFlight != 0)
        decreases |todo|
      {
        var user :| user in todo;
        todo := todo - {user};
        if byUser[user].inFlight == 0 {
          byUser := byUser - {user};
        }
      }
    }

    /** A full sweep drops exactly the identities that are safe to prune. */
    method ForcePrune(now: int)
      requires Consistent(T(), now)
      modifies `byIP, `byKey, `byUser, `pruned
      ensures IsSweep(old(T()), T(), now, expiry) && pruned == now && LocksKept(old(T()), T(), now)
      ensures |byIP| <= |old(byIP)| && |byKey| <= |old(byKey)|
      ensures forall k :: k in old(byKey) ==>
        var st := old(byKey)[k];
        (k in byKey <==> st.inFlight > 0 || now < st.until || (st.failures != 0 && now - st.seen <= expiry))
    {
      pruned := now;
      forall k | k in byKey ensures byKey[k].inFlight >= 0 { assert IdentityOk(T(), k, now); }
      PruneIdentities(now);
      ghost var mid := T();
      PruneIps(now);
      LocksTrans(old(T()), mid, T(), now);
      UsersBusy(T(), now);
      PruneUsers();
      assert byUser == old(byUser);
      FewerKeys(byIP, old(byIP));
      FewerKeys(byKey, old(byKey));
    }

    method EvictOldestKey(now: int) returns (victim: Option<Key>)
      modifies `byIP, `byKey
      ensures victim.None? ==> T() == old(T()) && forall k :: k in byKey ==> !Evictable(byKey[k], now)
      ensures victim.Some? ==> Oldest(old(byKey), victim.value, now) && T() == DropIdentity(old(T()), victim.value, now)
      ensures victim.Some? ==> |byKey| == |old(byKey)| - 1 && |byIP| <= |old(byIP)|
    {
      victim := None;
      var todo := byKey.Keys;
      while todo != {}
        invariant todo <= byKey.Keys
        invariant victim.None? ==> forall k :: k in byKey && k !in todo ==> !Evictable(byKey[k], now)
        invariant victim.Some? ==> victim.value in byKey && Evictable(byKey[victim.value], now)
        invariant victim.Some? ==>
          forall k :: k in byKey && k !in todo && Evictable(byKey[k], now) ==> byKey[victim.value].seen <= byKey[k].seen
        decreases |todo|
      {
        var k :| k in todo;
        todo := todo - {k};
        if Evictable(byKey[k], now) && (victim.None? || byKey[k].seen < byKey[victim.value].seen) {
          victim := Some(k);
        }
      }
      if victim.Some? {
        DropIdentityLocked(victim.value, now);
        assert byKey.Keys == old(byKey).Keys - {victim.value};
        FewerKeys(byIP, old(byIP));
      }
    }

    /** An IP none of whose records is at work or locked out. The empty string stands for none. */
    method FindOldestIp(now: int) returns (oldestIp: string)
      ensures oldestIp != "" ==> EvictableIp(T(), oldestIp, now)
      ensures "" !in byIP ==>
        if oldestIp != "" then OldestIp(T(), oldestIp, now) else forall ip :: !EvictableIp(T(), ip, now)
    {
      var unsafe: set<string> := {};
      var keys := byKey.Keys;
      while keys != {}
        invariant keys <= byKey.Keys
        invariant forall k :: k in byKey && k !in keys && !Evictable(byKey[k], now) ==> k.ip in unsafe
        invariant forall ip :: ip in unsafe ==> exists k :: k in byKey && k.ip == ip && !Evictable(byKey[k], now)
        decreases |keys|
      {
        var k :| k in keys;
        keys := keys - {k};
        if !Evictable(byKey[k], now) {
          unsafe := unsafe + {k.ip};
        }
      }
      oldestIp := "";
      var oldest := 0;
      var ips := byIP.Keys;
      while ips != {}
        invariant ips <= byIP.Keys
        invariant oldestIp != "" ==> oldestIp in byIP && oldestIp !in unsafe
        invariant oldestIp != "" ==> Evictable(byIP[oldestIp], now) && oldest == byIP[oldestIp].seen
        invariant oldestIp == "" && "" !in byIP ==>
          forall ip :: ip in byIP && ip !in ips ==> ip in unsafe || !Evictable(byIP[ip], now)
        invariant oldestIp != "" && "" !in byIP ==>
          forall ip :: ip in byIP && ip !in ips && ip !in unsafe && Evictable(byIP[ip], now) ==> oldest <= byIP[ip].seen
        decreases |ips|
      {
        var ip :| ip in ips;
        ips := ips - {ip};
        if ip !in unsafe && Evictable(byIP[ip], now) && (oldestIp == "" || byIP[ip].seen < oldest) {
          oldestIp, oldest := ip, byIP[ip].seen;
        }
      }
      forall ip | EvictableIp(T(), ip, now) ensures ip !in unsafe {
        assert forall k :: k in byKey && k.ip == ip ==> Evictable(byKey[k], now);
      }
    }

    method DropIpLocked(ip: string)
      modifies `byIP, `byKey
      ensures T() == DropIp(old(T()), ip)
    {
      byKey := WithoutIp(byKey, ip);
      byIP := byIP - {ip};
    }

    /** Evicts an oldest such IP with all its identities; the empty string reports that there was none. */
    method EvictOldestIp(now: int) returns (oldestIp: string)
      requires Consistent(T(), now)
      modifies `byIP, `byKey
      ensures Consistent(T(), now)
      ensures T() == if oldestIp == "" then old(T()) else DropIp(old(T()), oldestIp)
      ensures oldestIp != "" ==> EvictableIp(old(T()), oldestIp, now)
      ensures "" !in old(byIP) ==>
        if oldestIp != "" then OldestIp(old(T()), oldestIp, now) else forall ip :: !EvictableIp(old(T()), ip, now)
      ensures oldestIp != "" ==> |byIP| == |old(byIP)| - 1 && |byKey| <= |old(byKey)|
    {
      oldestIp := FindOldestIp(now);
      if oldestIp != "" {
        DropIpKeeps(T(), oldestIp, now);
        DropIpLocked(oldestIp);
        assert byIP.Keys == old(byIP).Keys - {oldestIp};
        FewerKeys(byKey, old(byKey));
      }
    }

    /** A sweep for want of room is due. */
    predicate MaySweep(now: int) reads this {
      now - lastCapSweep >= CAP_SWEEP_INTERVAL
    }

    /** What the exact conditions below leave open: the empty string is an IP, and one must be evicted. */
    ghost predicate Odd(t: Tables, k: Key) {
      NoIpLeft(t, k, maxIP) && "" in t.byIP
    }

    /** Makes room for the records that a reservation needs, first by a sweep and then by an eviction. `detached`
        reports that the IP record which the reservation holds has left the table. */
    method MakeRoom(k: Key, now: int) returns (ok: bool, evicted: Option<Key>, detached: bool, ghost swept: Tables)
      requires Consistent(T(), now) && WithinCapacity() && 0 <= now
      modifies `byIP, `byKey, `byUser, `pruned, `lastCapSweep
      ensures Consistent(T(), now) && WithinCapacity() && byUser == old(byUser)
      ensures (lastCapSweep == old(lastCapSweep) || lastCapSweep == now) && (pruned == old(pruned) || pruned == now)
      ensures SweptFor(old(T()), swept, k, now, old(MaySweep(now)))
      ensures ok ==> CanSweep(old(T()), k, old(MaySweep(now)))
      ensures !Odd(swept, k) ==>
        (ok <==> CanSweep(old(T()), k, old(MaySweep(now))) && RoomFor(swept, k, now, maxIP, maxKey))
      ensures Made(swept, T(), k, now, ok, evicted, detached)
      ensures LocksKept(old(T()), T(), now)
    {
      evicted, detached, swept := None, false, T();
      if (k.ip !in byIP && |byIP| >= maxIP) || (k !in byKey && |byKey| >= maxKey) {
        if now - lastCapSweep < CAP_SWEEP_INTERVAL {
          return false, None, false, swept;
        }
        lastCapSweep := now;
        ForcePrune(now);
        swept := T();
        ok, evicted, detached := EvictFor(k, now);
        LocksTrans(old(T()), swept, T(), now);
      } else {
        ok := true;
      }
    }

    /** The tables `t'` are `t` after room was made in them. */
    ghost predicate Made(t: Tables, t': Tables, k: Key, now: int, ok: bool, evicted: Option<Key>, detached: bool) {
      && t'.byUser == t.byUser
      && (ok ==> k in t'.byKey || |t'.byKey| < maxKey)
      && (ok && !detached ==> k.ip in t'.byIP || |t'.byIP| < maxIP)
      && (detached ==> ok && k.ip !in t'.byIP && k !in t'.byKey)
      && (evicted.Some? ==> ok && NoKeyLeft(t, k, maxKey) && !NoIpLeft(t, k, maxIP))
      && (evicted.Some? ==> Oldest(t.byKey, evicted.value, now) && t' == DropIdentity(t, evicted.value, now))
      && (ok && !NoIpLeft(t, k, maxIP) && NoKeyLeft(t, k, maxKey) ==> evicted.Some?)
      && (detached <==> Harmful(t, k, evicted))
      && (ok ==> Lookup(t'.byKey, k) == Lookup(t.byKey, k))
      && (ok && evicted.None? ==> Lookup(t'.byIP, k.ip) == Lookup(t.byIP, k.ip))
      && (ok && !NoIpLeft(t, k, maxIP) && !NoKeyLeft(t, k, maxKey) ==> t' == t)
    }

    /** The only identity of the reserving IP was evicted. */
    predicate Harmful(t: Tables, k: Key, evicted: Option<Key>) {
      evicted.Some? && evicted.value.ip == k.ip && SoleIdentity(t.byKey, evicted.value)
    }

    method EvictFor(k: Key, now: int) returns (ok: bool, evicted: Option<Key>, detached: bool)
      requires Consistent(T(), now) && WithinCapacity() && 0 <= now
      requires forall ip :: ip in byIP ==> !SafeToPrune(byIP[ip], now, expiry)
      modifies `byIP, `byKey
      ensures Consistent(T(), now) && WithinCapacity() && LocksKept(old(T()), T(), now)
      ensures !Odd(old(T()), k) ==> (ok <==> RoomFor(old(T()), k, now, maxIP, maxKey))
      ensures Made(old(T()), T(), k, now, ok, evicted, detached)
    {
      evicted, detached := None, false;
      var needNewIp := k.ip !in byIP;
      if needNewIp && |byIP| >= maxIP {
        var freed := EvictIpFor(k, now);
        if !freed { return false, None, false; }
      }
      if k !in byKey && |byKey| >= maxKey {
        ghost var mid := T();
        ok, evicted, detached := EvictKeyFor(k, needNewIp, now);
        LocksTrans(old(T()), mid, T(), now);
      } else {
        ok := true;
      }
    }

    /** Makes room for an IP, and with it for an identity. */
    method EvictIpFor(k: Key, now: int) returns (ok: bool)
      requires Consistent(T(), now) && WithinCapacity() && NoIpLeft(T(), k, maxIP)
      requires forall ip :: ip in byIP ==> !SafeToPrune(byIP[ip], now, expiry)
      modifies `byIP, `byKey
      ensures Consistent(T(), now) && WithinCapacity() && LocksKept(old(T()), T(), now)
      ensures "" !in old(byIP) ==> (ok <==> exists ip :: EvictableIp(old(T()), ip, now))
      ensures ok ==> |byIP| < maxIP && |byKey| < maxKey
      ensures Lookup(byIP, k.ip) == Lookup(old(byIP), k.ip) && Lookup(byKey, k) == Lookup(old(byKey), k)
    {
      ghost var before := T();
      assert k in byKey ==> IdentityOk(before, k, now);
      var freed := EvictOldestIp(now);
      ok := freed != "";
      if ok {
        EvictedIpFrees(before, freed, now, expiry);
        DropIpLocks(before, freed, now);
      }
    }

    /** Makes room for an identity. */
    method EvictKeyFor(k: Key, needNewIp: bool, now: int) returns (ok: bool, evicted: Option<Key>, detached: bool)
      requires Consistent(T(), now) && WithinCapacity() && 0 <= now
      requires NoKeyLeft(T(), k, maxKey) && !NoIpLeft(T(), k, maxIP) && needNewIp == (k.ip !in byIP)
      modifies `byIP, `byKey
      ensures Consistent(T(), now) && WithinCapacity() && LocksKept(old(T()), T(), now)
      ensures ok <==> exists j :: j in old(byKey) && Evictable(old(byKey)[j], now)
      ensures Made(old(T()), T(), k, now, ok, evicted, detached)
    {
      ghost var before := T();
      evicted := EvictOldestKey(now);
      if evicted.None? { return false, None, false; }
      Known(before, evicted.value, now);
      DropKeeps(before, evicted.value, now);
      DropLocks(before, evicted.value, now);
      DropRemovesIpIff(before, evicted.value, now);
      ok := true;
      detached := !needNewIp && k.ip !in byIP;
    }

    /** There is room for the user, who is not busy with five other attempts. */
    predicate UserReady(k: Key) reads this {
      (k.user in byUser || |byUser| < maxUser) && OrNew(Lookup(byUser, k.user)).inFlight < FREE_ATTEMPTS
    }

    /** A call that breaks the tables if it evicts that identity: nothing else stands in the way. */
    predicate Exposed(k: Key, now: int) reads this {
      AtRisk(Tables(byIP, byKey, byUser), k, now, expiry, maxKey) && MaySweep(now) && UserReady(k)
    }

    /** Reserves an attempt. All tables stay within capacity, and they stay consistent if and only if the call is
        not exposed or evicts another oldest identity than the one at its own IP. `swept` are the tables after the
        sweeps that were due. */
    method Reserve(k: Key, now: int) returns (ok: bool, evicted: Option<Key>, ghost swept: Tables)
      requires Valid() && clock <= now
      modifies this
      ensures clock == now && WithinCapacity()
      ensures (lastCapSweep == old(lastCapSweep) || lastCapSweep == now) && (pruned == old(pruned) || pruned == now)
      ensures Valid() <==> !(old(Exposed(k, now)) && evicted.Some? && evicted.value.ip == k.ip)
      ensures old(Exposed(k, now)) ==> evicted.Some? && Oldest(old(byKey), evicted.value, now)
      ensures
        if now - old(pruned) >= pruneEvery then IsSweep(old(T()), swept, now, expiry)
        else SweptFor(old(T()), swept, k, now, old(MaySweep(now)))
      ensures GrantedIff(swept, k, now, ok, evicted, old(MaySweep(now)), old(UserReady(k)))
      ensures Counted(old(T()), T(), k, now, ok)
      ensures LocksKept(old(T()), T(), now) && Refuses(old(T()), T(), k, now, ok)
      ensures old(Roomy(k)) && now - old(pruned) < pruneEvery ==>
        (ok <==> MayTry(old(T()), k, now)) && T() == if ok then Admit(old(T()), k, false, now) else old(T())
    {
      LaterConsistent(T(), clock, now);
      clock := now;
      ok, evicted, swept := ReserveNow(k, now);
    }

    /** What the caller learns of a call between the tables `t` and `t'`; `due` says that a periodic sweep was. */
    ghost predicate Report(t: Tables, swept: Tables, t': Tables, k: Key, now: int, ok: bool, evicted: Option<Key>,
                           may: bool, ready: bool, due: bool)
    {
      var exposed := AtRisk(t, k, now, expiry, maxKey) && may && ready;
      && (exposed && evicted.Some? && evicted.value.ip == k.ip <==> !Consistent(t', now))
      && (exposed ==> evicted.Some? && Oldest(t.byKey, evicted.value, now))
      && (if due then IsSweep(t, swept, now, expiry) else SweptFor(t, swept, k, now, may))
      && GrantedIff(swept, k, now, ok, evicted, may, ready)
      && Counted(t, t', k, now, ok)
      && (!due && Spare(t, k, ready) ==> (ok <==> MayTry(t, k, now)) && t' == if ok then Admit(t, k, false, now) else t)
    }

    /** There is room for all records. */
    ghost predicate Spare(t: Tables, k: Key, ready: bool) {
      && !NoIpLeft(t, k, maxIP) && !NoKeyLeft(t, k, maxKey)
      && (ready <==> OrNew(Lookup(t.byUser, k.user)).inFlight < FREE_ATTEMPTS)
    }

    method ReserveNow(k: Key, now: int) returns (ok: bool, evicted: Option<Key>, ghost swept: Tables)
      requires Consistent(T(), now) && WithinCapacity() && 0 <= now
      modifies `byIP, `byKey, `byUser, `pruned, `lastCapSweep
      ensures WithinCapacity()
      ensures (lastCapSweep == old(lastCapSweep) || lastCapSweep == now) && (pruned == old(pruned) || pruned == now)
      ensures Report(old(T()), swept, T(), k, now, ok, evicted, old(MaySweep(now)), old(UserReady(k)),
                     now - old(pruned) >= pruneEvery)
      ensures LocksKept(old(T()), T(), now) && Refuses(old(T()), T(), k, now, ok)
    {
      ghost var start, may, ready, due := T(), MaySweep(now), UserReady(k), now - pruned >= pruneEvery;
      PrunePeriodically(now);
      ghost var once := T();
      ok, evicted, swept := ReserveLocked(k, now);
      RefusesEarlier(start, once, T(), k, now, ok);
      LocksTrans(start, once, T(), now);
      Reports(start, once, swept, T(), k, now, ok, evicted, may, ready, due);
    }

    lemma Reports(t: Tables, once: Tables, swept: Tables, t': Tables, k: Key, now: int, ok: bool,
                  evicted: Option<Key>, may: bool, ready: bool, due: bool)
      requires Consistent(t, now) && 0 <= now && |t.byKey| <= maxKey
      requires if due then IsSweep(t, once, now, expiry) else once == t
      requires Decided(once, swept, t', k, now, ok, evicted, may, ready)
      requires ready ==> OrNew(Lookup(t.byUser, k.user)).inFlight < FREE_ATTEMPTS
      ensures Report(t, swept, t', k, now, ok, evicted, may, ready, due)
    {
      ReserveHarm(t, once, swept, t', k, now, ok, evicted, may, ready);
      RoomyDecides(t, once, swept, t', k, now, ok, evicted, may, ready);
    }

    method PrunePeriodically(now: int)
      requires Consistent(T(), now) && WithinCapacity()
      modifies `byIP, `byKey, `byUser, `pruned
      ensures Consistent(T(), now) && WithinCapacity() && byUser == old(byUser)
      ensures pruned == old(pruned) || pruned == now
      ensures if now - old(pruned) >= pruneEvery then IsSweep(old(T()), T(), now, expiry) else T() == old(T())
      ensures LocksKept(old(T()), T(), now)
    {
      if now - pruned >= pruneEvery {
        ForcePrune(now);
      }
    }

    /** With room for all records it is the budgets alone that decide. */
    lemma RoomyDecides(t: Tables, once: Tables, swept: Tables, t': Tables, k: Key, now: int, ok: bool,
                       evicted: Option<Key>, may: bool, ready: bool)
      requires Decided(once, swept, t', k, now, ok, evicted, may, ready)
      ensures once == t && Spare(t, k, ready) ==>
        (ok <==> MayTry(t, k, now)) && t' == if ok then Admit(t, k, false, now) else t
    {
    }

    /** What a call does between the tables `t` and `t'`. */
    ghost predicate Decided(t: Tables, swept: Tables, t': Tables, k: Key, now: int, ok: bool, evicted: Option<Key>,
                            may: bool, ready: bool)
    {
      && (Consistent(t', now) <==> !(ok && Harmful(swept, k, evicted)))
      && SweptFor(t, swept, k, now, may)
      && GrantedIff(swept, k, now, ok, evicted, may, ready)
      && (evicted.Some? ==> NoKeyLeft(swept, k, maxKey) && Oldest(swept.byKey, evicted.value, now))
      && (evicted.Some? ==> IsSweep(t, swept, now, expiry) && may)
      && (MustEvict(swept, k, now, may) ==> evicted.Some?)
      && Counted(t, t', k, now, ok)
      && (!NoIpLeft(t, k, maxIP) && !NoKeyLeft(t, k, maxKey) ==> t' == if ok then Admit(t, k, false, now) else t)
    }

    /** A call is granted if and only if there is room, or room can be made by a sweep and an eviction, and user, IP
        and identity have an attempt left. */
    ghost predicate GrantedIff(swept: Tables, k: Key, now: int, ok: bool, evicted: Option<Key>, may: bool, ready: bool)
    {
      !Odd(swept, k) ==>
        (ok <==>
          && CanSweep(swept, k, may) && RoomFor(swept, k, now, maxIP, maxKey)
          && ready && MayTry(Evicted(swept, evicted, now), k, now))
    }

    /** Room for the identity, and for nothing else, must be and can be made. */
    ghost predicate MustEvict(swept: Tables, k: Key, now: int, may: bool) {
      may && NoKeyLeft(swept, k, maxKey) && !NoIpLeft(swept, k, maxIP) && RoomFor(swept, k, now, maxIP, maxKey)
    }

    /** The harm that a call has done, told from the tables before it and before a periodic sweep. */
    lemma ReserveHarm(t: Tables, once: Tables, swept: Tables, t': Tables, k: Key, now: int, ok: bool,
                      evicted: Option<Key>, may: bool, ready: bool)
      requires Consistent(t, now) && 0 <= now && |t.byKey| <= maxKey
      requires once == t || IsSweep(t, once, now, expiry)
      requires Decided(once, swept, t', k, now, ok, evicted, may, ready)
      requires ready ==> OrNew(Lookup(t.byUser, k.user)).inFlight < FREE_ATTEMPTS
      ensures IsSweep(t, once, now, expiry) ==> IsSweep(t, swept, now, expiry)
      ensures Counted(t, t', k, now, ok)
      ensures
        var exposed := AtRisk(t, k, now, expiry, maxKey) && may && ready;
        && (exposed ==> evicted.Some? && Oldest(t.byKey, evicted.value, now))
        && (exposed && evicted.Some? && evicted.value.ip == k.ip <==> !Consistent(t', now))
    {
      if once != t { SweptInFlight(t, once, k, now, expiry); }
      if swept != once && once != t { SweepTwice(t, once, swept, now, expiry); }
      if evicted.Some? && once != t { SweepTwice(t, once, swept, now, expiry); }
      HarmIff(t, swept, k, now, ok, evicted, may, ready);
    }

    lemma HarmIff(t: Tables, swept: Tables, k: Key, now: int, ok: bool, evicted: Option<Key>, may: bool, ready: bool)
      requires Consistent(t, now) && 0 <= now && |t.byKey| <= maxKey && (swept == t || IsSweep(t, swept, now, expiry))
      requires GrantedIff(swept, k, now, ok, evicted, may, ready)
      requires ready ==> OrNew(Lookup(t.byUser, k.user)).inFlight < FREE_ATTEMPTS
      requires evicted.Some? ==> NoKeyLeft(swept, k, maxKey) && Oldest(swept.byKey, evicted.value, now)
      requires evicted.Some? ==> IsSweep(t, swept, now, expiry) && may
      requires MustEvict(swept, k, now, may) ==> evicted.Some?
      ensures
        var exposed := AtRisk(t, k, now, expiry, maxKey) && may && ready;
        && (exposed ==> evicted.Some? && Oldest(t.byKey, evicted.value, now))
        && (exposed && evicted.Some? && evicted.value.ip == k.ip <==> ok && Harmful(swept, k, evicted))
    {
      if AtRisk(t, k, now, expiry, maxKey) { AtRiskSwept(t, swept, k, now, expiry, maxIP, maxKey); }
      if Harmful(swept, k, evicted) {
        HarmIsGranted(swept, k, evicted.value, now);
        OnlyAtRisk(t, swept, k, evicted.value, now, expiry, maxKey);
      }
    }

    method ReserveLocked(k: Key, now: int) returns (ok: bool, evicted: Option<Key>, ghost swept: Tables)
      requires Consistent(T(), now) && WithinCapacity() && 0 <= now
      modifies `byIP, `byKey, `byUser, `pruned, `lastCapSweep
      ensures WithinCapacity()
      ensures (lastCapSweep == old(lastCapSweep) || lastCapSweep == now) && (pruned == old(pruned) || pruned == now)
      ensures Decided(old(T()), swept, T(), k, now, ok, evicted, old(MaySweep(now)), old(UserReady(k)))
      ensures LocksKept(old(T()), T(), now) && Refuses(old(T()), T(), k, now, ok)
    {
      var detached;
      ghost var start, may, ready := T(), MaySweep(now), UserReady(k);
      ok, evicted, detached, swept := FindRoom(k, now, ready);
      if ok {
        ok := TryGrant(start, swept, k, evicted, detached, now, may);
      }
    }

    /** Makes room; without room the call is decided. */
    method FindRoom(k: Key, now: int, ghost ready: bool)
      returns (ok: bool, evicted: Option<Key>, detached: bool, ghost swept: Tables)
      requires Consistent(T(), now) && WithinCapacity() && 0 <= now
      modifies `byIP, `byKey, `byUser, `pruned, `lastCapSweep
      ensures Consistent(T(), now) && WithinCapacity() && byUser == old(byUser) && LocksKept(old(T()), T(), now)
      ensures (lastCapSweep == old(lastCapSweep) || lastCapSweep == now) && (pruned == old(pruned) || pruned == now)
      ensures ok ==> SweptFor(old(T()), swept, k, now, old(MaySweep(now))) && CanSweep(old(T()), k, old(MaySweep(now)))
      ensures ok && !Odd(swept, k) ==> RoomFor(swept, k, now, maxIP, maxKey)
      ensures ok ==> Made(swept, T(), k, now, true, evicted, detached)
      ensures !ok ==> Decided(old(T()), swept, T(), k, now, false, evicted, old(MaySweep(now)), ready)
    {
      ghost var start, may := T(), MaySweep(now);
      ok, evicted, detached, swept := MakeRoom(k, now);
      if !ok { NoRoomDecides(start, swept, T(), k, now, evicted, detached, may, ready); }
    }

    /** No room could be made. */
    lemma NoRoomDecides(t: Tables, swept: Tables, t': Tables, k: Key, now: int, evicted: Option<Key>, detached: bool,
                        may: bool, ready: bool)
      requires Consistent(t', now)
      requires SweptFor(t, swept, k, now, may)
      requires Made(swept, t', k, now, false, evicted, detached) && t'.byUser == t.byUser
      requires NoIpLeft(t, k, maxIP) || NoKeyLeft(t, k, maxKey)
      requires !Odd(swept, k) ==> !(CanSweep(t, k, may) && RoomFor(swept, k, now, maxIP, maxKey))
      ensures Decided(t, swept, t', k, now, false, evicted, may, ready)
    {
    }

    /** There is no need for a sweep, or it may be made. */
    ghost predicate CanSweep(t: Tables, k: Key, may: bool) {
      may || !(NoIpLeft(t, k, maxIP) || NoKeyLeft(t, k, maxKey))
    }

    /** The tables after the sweep that is made for want of room. */
    ghost predicate SweptFor(t: Tables, swept: Tables, k: Key, now: int, may: bool) {
      if (NoIpLeft(t, k, maxIP) || NoKeyLeft(t, k, maxKey)) && may then IsSweep(t, swept, now, expiry) else swept == t
    }

    /** Room was made, and the call was granted or not. */
    lemma GrantDecides(t: Tables, swept: Tables, made: Tables, t': Tables, k: Key, now: int, ok: bool,
                       evicted: Option<Key>, detached: bool, may: bool, ready: bool)
      requires Consistent(t, now) && (Consistent(t', now) <==> !(ok && detached))
      requires SweptFor(t, swept, k, now, may) && CanSweep(t, k, may)
      requires !Odd(swept, k) ==> RoomFor(swept, k, now, maxIP, maxKey)
      requires Made(swept, made, k, now, true, evicted, detached)
      requires ok <==> ready && MayTry(made, k, now)
      requires t' == if ok then Admit(made, k, detached, now) else made
      ensures Decided(t, swept, t', k, now, ok, evicted, may, ready)
    {
      if swept != t { SweptInFlight(t, swept, k, now, expiry); }
      MadeMayTry(swept, made, k, now, evicted, detached);
    }

    /** What was evicted does not change what the reservation may do. */
    lemma MadeMayTry(t: Tables, t': Tables, k: Key, now: int, evicted: Option<Key>, detached: bool)
      requires Made(t, t', k, now, true, evicted, detached)
      ensures MayTry(t', k, now) <==> MayTry(Evicted(t, evicted, now), k, now)
    {
    }

    /** Grants the reservation if user, IP and identity have an attempt left. */
    method TryGrant(ghost start: Tables, ghost swept: Tables, k: Key, ghost evicted: Option<Key>, detached: bool,
                    now: int, ghost may: bool) returns (ok: bool)
      requires Consistent(start, now) && Consistent(T(), now) && WithinCapacity() && 0 <= now
      requires LocksKept(start, T(), now)
      requires SweptFor(start, swept, k, now, may) && CanSweep(start, k, may)
      requires !Odd(swept, k) ==> RoomFor(swept, k, now, maxIP, maxKey)
      requires Made(swept, T(), k, now, true, evicted, detached)
      modifies `byIP, `byKey, `byUser
      ensures WithinCapacity()
      ensures Decided(start, swept, T(), k, now, ok, evicted, may, old(UserReady(k)))
      ensures LocksKept(start, T(), now) && Refuses(start, T(), k, now, ok)
    {
      ghost var made := T();
      ok := GrantIf(k, detached, now);
      GrantDecides(start, swept, made, T(), k, now, ok, evicted, detached, may, old(UserReady(k)));
      GrantLocks(made, T(), k, detached, ok, now);
      RefusesLocked(start, made, T(), k, now, ok);
      LocksTrans(start, made, T(), now);
    }

    method GrantIf(k: Key, detached: bool, now: int) returns (ok: bool)
      requires Consistent(T(), now) && WithinCapacity() && 0 <= now
      requires !detached ==> k.ip in byIP || |byIP| < maxIP
      requires k in byKey || |byKey| < maxKey
      requires detached ==> k.ip !in byIP && k !in byKey
      modifies `byIP, `byKey, `byUser
      ensures WithinCapacity() && (Consistent(T(), now) <==> !(ok && detached))
      ensures ok <==> old(UserReady(k)) && MayTry(old(T()), k, now)
      ensures T() == if ok then Admit(old(T()), k, detached, now) else old(T())
    {
      if k.user !in byUser && |byUser| >= maxUser {
        ok := false;
      } else if !CanReserve(OrNew(Lookup(byIP, k.ip)), now) || !CanReserve(OrNew(Lookup(byKey, k)), now)
                || OrNew(Lookup(byUser, k.user)).inFlight >= FREE_ATTEMPTS {
        ok := false;
      } else {
        Grant(k, detached, now);
        ok := true;
      }
    }

    /** Creates the missing records and counts the attempt. A detached IP record is not in the table. */
    method Grant(k: Key, detached: bool, now: int)
      requires Consistent(T(), now) && WithinCapacity() && 0 <= now
      requires !detached ==> k.ip in byIP || |byIP| < maxIP
      requires k in byKey || |byKey| < maxKey
      requires k.user in byUser || |byUser| < maxUser
      requires detached ==> k.ip !in byIP && k !in byKey
      requires CanReserve(OrNew(Lookup(byIP, k.ip)), now) && CanReserve(OrNew(Lookup(byKey, k)), now)
      requires OrNew(Lookup(byUser, k.user)).inFlight < FREE_ATTEMPTS
      modifies `byIP, `byKey, `byUser
      ensures T() == Admit(old(T()), k, detached, now)
      ensures WithinCapacity()
      ensures Consistent(T(), now) <==> !detached
    {
      ghost var before := T();
      if !detached {
        AdmitKeeps(before, k, now);
        byIP := byIP[k.ip := Reserved(OrNew(Lookup(byIP, k.ip)), now)];
      }
      byKey := byKey[k := Reserved(OrNew(Lookup(byKey, k)), now)];
      byUser := byUser[k.user := Reserved(OrNew(Lookup(byUser, k.user)), now)];
      if detached {
        assert byIP == byIP - {k.ip};
        assert !IdentityOk(T(), k, now);
      }
      assert T() == Admit(before, k, detached, now);
    }

    /** One attempt of `k` failed. */
    method Failed(k: Key, now: int)
      requires clock <= now
      modifies `byIP, `byKey, `byUser, `clock
      ensures T() == Fail(old(T()), k, now) && clock == now
      ensures if InProgress(old(T()), k) then FailsOnce(old(T()), T(), k, now) else T() == old(T())
      ensures old(Valid()) ==> Valid()
    {
      ghost var before, was := T(), clock;
      clock := now;
      FailLocked(k, now);
      if InProgress(before, k) { FailFailsOnce(before, k, now); }
      if Consistent(before, was) {
        LaterConsistent(before, was, now);
        FailedKeeps(before, k, now);
        if InProgress(before, k) { TerminalsAddNothing(before, k, FailChange(before, k, now)); }
      }
    }

    method FailLocked(k: Key, now: int)
      modifies `byIP, `byKey, `byUser
      ensures T() == Fail(old(T()), k, now)
    {
      if k !in byKey || byKey[k].inFlight == 0 {
        return;
      }
      byKey := byKey[k := ConvertFail(byKey[k], now)];
      if k.ip in byIP {
        byIP := byIP[k.ip := ConvertFail(byIP[k.ip], now)];
      }
      ReleaseUserLocked(k.user, now);
      assert k.ip !in old(byIP) ==> old(byIP) - {k.ip} == old(byIP);
    }

    /** One attempt of `k` was abandoned. */
    method Canceled(k: Key, now: int)
      requires clock <= now
      modifies `byIP, `byKey, `byUser, `clock
      ensures T() == Cancel(old(T()), k, now) && clock == now
      ensures if InProgress(old(T()), k) then CancelsOnce(old(T()), T(), k, now) else T() == old(T())
      ensures old(Valid()) ==> Valid()
    {
      ghost var before, was := T(), clock;
      clock := now;
      CancelLocked(k, now);
      if InProgress(before, k) { CancelCancelsOnce(before, k, now); }
      if Consistent(before, was) {
        LaterConsistent(before, was, now);
        CanceledKeeps(before, k, now);
        if InProgress(before, k) { TerminalsAddNothing(before, k, CancelChange(before, k, now)); }
      }
    }

    method CancelLocked(k: Key, now: int)
      modifies `byIP, `byKey, `byUser
      ensures T() == Cancel(old(T()), k, now)
    {
      if k !in byKey || byKey[k].inFlight == 0 {
        return;
      }
      byKey := byKey[k := Release(byKey[k], now)];
      if k.ip in byIP {
        byIP := byIP[k.ip := Release(byIP[k.ip], now)];
      }
      ReleaseUserLocked(k.user, now);
      if IsEmpty(byKey[k], now) {
        byKey := byKey - {k};
      }
      if k.ip in byIP && IsEmpty(byIP[k.ip], now) {
        byIP := byIP - {k.ip};
      }
      ghost var spec := Cancel(old(T()), k, now);
      assert byKey == spec.byKey;
      assert byIP == spec.byIP;
    }

    /** One attempt of `k` succeeded. */
    method Succeeded(k: Key, now: int)
      requires clock <= now
      modifies `byIP, `byKey, `byUser, `clock
      ensures T() == Succeed(old(T()), k, now) && clock == now
      ensures if InProgress(old(T()), k) then 0 <= now ==> SucceedsOnce(old(T()), T(), k) else T() == old(T())
      ensures old(Valid()) ==> Valid()
    {
      ghost var before, was := T(), clock;
      clock := now;
      SucceedLocked(k, now);
      if InProgress(before, k) && 0 <= now { SucceedSucceedsOnce(before, k, now); }
      if Consistent(before, was) {
        LaterConsistent(before, was, now);
        SucceededKeeps(before, k, now);
        if InProgress(before, k) { TerminalsAddNothing(before, k, SucceedChange(before, k, now)); }
      }
    }

    method SucceedLocked(k: Key, now: int)
      modifies `byIP, `byKey, `byUser
      ensures T() == Succeed(old(T()), k, now)
    {
      if k !in byKey || byKey[k].inFlight == 0 {
        return;
      }
      var cleared := byKey[k].failures;
      byKey := byKey[k := Attempt(0, NO_LOCKOUT, now, Positive(byKey[k].inFlight))];
      if IsEmpty(byKey[k], now) {
        byKey := byKey - {k};
      }
      if k.ip in byIP {
        byIP := byIP[k.ip := AfterSuccess(byIP[k.ip], cleared, now)];
        if IsEmpty(byIP[k.ip], now) {
          byIP := byIP - {k.ip};
        }
      }
      ReleaseUserLocked(k.user, now);
      ghost var spec := Succeed(old(T()), k, now);
      assert byKey == spec.byKey;
      assert byIP == spec.byIP;
    }

    method ReleaseUserLocked(user: string, now: int)
      modifies `byUser
      ensures byUser == Put(old(byUser), user, ReleaseUser(Lookup(old(byUser), user), now))
    {
      if user in byUser {
        byUser := byUser[user := Release(byUser[user], now)];
        if byUser[user].inFlight == 0 {
          byUser := byUser - {user};
        }
      }
    }

    /** Performs a call, and reports whether it has broken the tables. */
    method Perform(call: Call) returns (ok: bool, broken: bool)
      requires Valid() && clock <= call.now
      modifies this
      ensures clock == call.now && WithinCapacity() && (Valid() <==> !broken) && (broken ==> call.Reserving?)
      ensures Stepped(old(T()), T(), call, ok)
    {
      ok, broken := false, false;
      match call
      case Reserving(k, now) =>
        var exposed := Exposed(k, now);
        var evicted;
        ghost var swept;
        ok, evicted, swept := Reserve(k, now);
        broken := exposed && evicted.Some? && evicted.value.ip == k.ip;
      case Failing(k, now) => Failed(k, now);
      case Canceling(k, now) => Canceled(k, now);
      case Succeeding(k, now) => Succeeded(k, now);
    }

    /** Any sequence of calls under a clock that does not go back. It stops right after a reservation that
        evicted the only identity of its own IP; if there is none, the tables are consistent, within
        capacity and within every budget after all of them. */
    method AnyRun(calls: seq<Call>) returns (done: nat)
      requires Valid() && InOrder(clock, calls)
      modifies this
      ensures done <= |calls| && WithinCapacity()
      ensures Valid() <==> done == |calls|
      ensures done < |calls| ==> calls[done].Reserving?
    {
      done := 0;
      while done < |calls|
        invariant done <= |calls| && Valid() && InOrder(clock, calls[done..])
        decreases |calls| - done
      {
        assert calls[done..][0] == calls[done] && calls[done..][1..] == calls[done + 1..];
        var ok, broken := Perform(calls[done]);
        if broken { return; }
        done := done + 1;
      }
    }

    /** After a failure that is the fifth or a later one of an identity, every reservation of the identity is refused
        for the time of the lockout, unless a success has come first; and after one that is the fifth or a later one
        of an IP every reservation at the IP is, unless its failures have fallen first, by a success or by an
        identity that was dropped. `marks` are the failures of the IP before each call and after the last. The run
        stops with a call that breaks the tables. */
    method LockedOut(k: Key, now: int, calls: seq<Call>) returns (oks: seq<bool>, ghost marks: seq<int>)
      requires Valid() && clock <= now && InProgress(T(), k) && InOrder(now, calls)
      modifies this
      ensures |oks| <= |calls| && |marks| == |oks| + 1 && (|oks| < |calls| ==> !Valid())
      ensures
        var f := old(byKey)[k].failures + 1;
        f >= FREE_ATTEMPTS ==> KeyRefusals(calls, oks, k, now + Lockout(f))
      ensures
        var f := FailuresOf(old(T()), k.ip) + 1;
        marks[0] == f && (f >= FREE_ATTEMPTS ==> IpRefusals(calls, oks, marks, k.ip, now + Lockout(f)))
    {
      ghost var f, g := byKey[k].failures + 1, FailuresOf(T(), k.ip) + 1;
      Known(T(), k, clock);
      Failed(k, now);
      oks, marks := [], [FailuresOf(T(), k.ip)];
      while |oks| < |calls|
        invariant Valid() && now <= clock && |oks| <= |calls| && InOrder(clock, calls[|oks|..])
        invariant Locking(T(), clock, calls, oks, marks, k, f, g, now)
        decreases |calls| - |oks|
      {
        var i := |oks|;
        ghost var before, was := T(), clock;
        assert calls[i..][0] == calls[i] && calls[i..][1..] == calls[i + 1..];
        var ok, broken := Perform(calls[i]);
        LockingStep(before, T(), was, calls, oks, ok, marks, k, f, g, now);
        oks, marks := oks + [ok], marks + [FailuresOf(T(), k.ip)];
        if broken { return; }
      }
    }
  }

  /** What is known of the lockouts of an identity and its IP that begin with f and g failures at `start`. */
  ghost predicate Locking(t: Tables, clock: int, calls: seq<Call>, oks: seq<bool>, marks: seq<int>, k: Key, f: int,
                          g: int, start: int)
  {
    && |oks| <= |calls| && |marks| == |oks| + 1 && marks[0] == g && marks[|oks|] == FailuresOf(t, k.ip)
    && (f >= FREE_ATTEMPTS ==> KeyLocking(t, clock, calls, oks, k, start + Lockout(f)))
    && (g >= FREE_ATTEMPTS ==> IpLocking(t, clock, calls, oks, marks, k.ip, g, start))
  }

  ghost predicate KeyLocking(t: Tables, clock: int, calls: seq<Call>, oks: seq<bool>, k: Key, until: int)
    requires |oks| <= |calls|
  {
    KeyRefusals(calls, oks, k, until) && (NoSuccess(calls, k, |oks|) && clock < until ==> IdentityLocked(t, k, until))
  }

  ghost predicate IpLocking(t: Tables, clock: int, calls: seq<Call>, oks: seq<bool>, marks: seq<int>, ip: string,
                            g: int, start: int)
    requires |oks| <= |calls| && |marks| == |oks| + 1 && g >= FREE_ATTEMPTS
  {
    && IpRefusals(calls, oks, marks, ip, start + Lockout(g))
    && (NoFall(marks, |oks|) && clock < start + Lockout(g) ==> IpLocked(t, ip, g, start))
  }

  lemma LockingStep(t: Tables, t': Tables, was: int, calls: seq<Call>, oks: seq<bool>, ok: bool, marks: seq<int>,
                    k: Key, f: int, g: int, start: int)
    requires Locking(t, was, calls, oks, marks, k, f, g, start) && |oks| < |calls| && start <= was
    requires Consistent(t, was) && 0 <= was <= calls[|oks|].now && Stepped(t, t', calls[|oks|], ok)
    ensures Locking(t', calls[|oks|].now, calls, oks + [ok], marks + [FailuresOf(t', k.ip)], k, f, g, start)
  {
    var call, mark := calls[|oks|], FailuresOf(t', k.ip);
    if f >= FREE_ATTEMPTS {
      StepIdentity(t, t', was, call, ok, k, start + Lockout(f));
      MoreKeyRefusals(calls, oks, ok, k, start + Lockout(f));
    }
    if g >= FREE_ATTEMPTS {
      StepIp(t, t', was, call, ok, k.ip, g, start);
      MoreIpRefusals(calls, oks, ok, marks, mark, k.ip, start + Lockout(g));
      if NoFall(marks + [mark], |oks| + 1) {
        assert (marks + [mark])[|oks|] <= (marks + [mark])[|oks| + 1];
        assert NoFall(marks + [mark], |oks|);
        MarksPrefix(marks, mark, |oks|);
      }
    }
  }

  /** What a call does to the tables, as far as lockouts are concerned. */
  ghost predicate Stepped(t: Tables, t': Tables, call: Call, ok: bool) {
    match call
    case Reserving(k, now) => LocksKept(t, t', now) && Refuses(t, t', k, now, ok)
    case Failing(k, now) => t' == Fail(t, k, now)
    case Canceling(k, now) => t' == Cancel(t, k, now)
    case Succeeding(k, now) => t' == Succeed(t, k, now)
  }

  predicate IdentityLocked(t: Tables, k: Key, until: int) {
    k in t.byKey && t.byKey[k].until >= until
  }

  /** The IP has at least `f` failures, and is locked since `start` at the earliest for as long as they demand. */
  predicate IpLocked(t: Tables, ip: string, f: int, start: int) {
    f >= FREE_ATTEMPTS && FailuresOf(t, ip) >= f && t.byIP[ip].until >= start + Lockout(f)
  }

  predicate NoSuccess(calls: seq<Call>, k: Key, n: nat)
    requires n <= |calls|
  {
    forall i :: 0 <= i < n ==> !(calls[i].Succeeding? && calls[i].k == k)
  }

  predicate NoFall(marks: seq<int>, n: nat)
    requires n < |marks|
  {
    forall i :: 0 <= i < n ==> marks[i] <= marks[i + 1]
  }

  predicate KeyRefused(call: Call, ok: bool, k: Key, until: int) {
    call.Reserving? && call.k == k && call.now < until ==> !ok
  }

  predicate IpRefused(call: Call, ok: bool, ip: string, until: int) {
    call.Reserving? && call.k.ip == ip && call.now < until ==> !ok
  }

  /** Until that time no reservation of the identity is granted, unless a success has come first. */
  ghost predicate KeyRefusals(calls: seq<Call>, oks: seq<bool>, k: Key, until: int)
    requires |oks| <= |calls|
  {
    forall i :: 0 <= i < |oks| ==> NoSuccess(calls, k, i) ==> KeyRefused(calls[i], oks[i], k, until)
  }

  /** The same for an IP whose failures have not fallen. */
  ghost predicate IpRefusals(calls: seq<Call>, oks: seq<bool>, marks: seq<int>, ip: string, until: int)
    requires |oks| <= |calls| && |marks| == |oks| + 1
  {
    forall i :: 0 <= i < |oks| ==> NoFall(marks, i + 1) ==> IpRefused(calls[i], oks[i], ip, until)
  }

  lemma MoreKeyRefusals(calls: seq<Call>, oks: seq<bool>, ok: bool, k: Key, until: int)
    requires |oks| < |calls| && KeyRefusals(calls, oks, k, until)
    requires NoSuccess(calls, k, |oks|) ==> KeyRefused(calls[|oks|], ok, k, until)
    ensures KeyRefusals(calls, oks + [ok], k, until)
  {
  }

  lemma MoreIpRefusals(calls: seq<Call>, oks: seq<bool>, ok: bool, marks: seq<int>, mark: int, ip: string, until: int)
    requires |oks| < |calls| && |marks| == |oks| + 1 && IpRefusals(calls, oks, marks, ip, until)
    requires NoFall(marks, |oks|) && marks[|oks|] <= mark ==> IpRefused(calls[|oks|], ok, ip, until)
    ensures IpRefusals(calls, oks + [ok], marks + [mark], ip, until)
  {
    var more := marks + [mark];
    forall i | 0 <= i <= |oks| && NoFall(more, i + 1) ensures IpRefused(calls[i], (oks + [ok])[i], ip, until) {
      if i < |oks| {
        MarksPrefix(marks, mark, i + 1);
      } else {
        MarksPrefix(marks, mark, i);
        assert more[i] <= more[i + 1];
      }
    }
  }

  lemma MarksPrefix(marks: seq<int>, mark: int, n: nat)
    requires n < |marks|
    ensures NoFall(marks + [mark], n) <==> NoFall(marks, n)
  {
    var more := marks + [mark];
    if NoFall(more, n) {
      forall i | 0 <= i < n ensures marks[i] <= marks[i + 1] { assert more[i] <= more[i + 1]; }
    }
  }

  lemma StepIdentity(t: Tables, t': Tables, was: int, call: Call, ok: bool, k: Key, until: int)
    requires Consistent(t, was) && 0 <= was <= call.now && Stepped(t, t', call, ok)
    ensures IdentityLocked(t, k, until) && call.now < until ==>
      && KeyRefused(call, ok, k, until)
      && (!(call.Succeeding? && call.k == k) ==> IdentityLocked(t', k, until))
  {
    if IdentityLocked(t, k, until) && call.now < until {
      assert IdentityOk(t, k, was);
      var st := t.byKey[k];
      LockoutGrows(st.failures, st.failures + 1);
      if call.Reserving? { assert LockKept(t, t', call.now, OfKey(k)); }
    }
  }

  lemma StepIp(t: Tables, t': Tables, was: int, call: Call, ok: bool, ip: string, f: int, start: int)
    requires Consistent(t, was) && 0 <= was <= call.now && start <= was && Stepped(t, t', call, ok)
    requires f >= FREE_ATTEMPTS
    ensures
      var kept := IpLocked(t, ip, f, start) && call.now < start + Lockout(f) && FailuresOf(t', ip) >= FailuresOf(t, ip);
      kept ==> IpRefused(call, ok, ip, start + Lockout(f)) && IpLocked(t', ip, f, start)
  {
    if f >= FREE_ATTEMPTS && IpLocked(t, ip, f, start) && FailuresOf(t', ip) >= FailuresOf(t, ip) {
      assert IpOk(t, ip, was);
      LockoutGrows(f, FailuresOf(t, ip) + 1);
      if call.Reserving? { assert LockKept(t, t', call.now, OfIp(ip)); }
    }
  }

  // ---------- a run that breaks the tables ----------

  /** A record with one failure. */
  function FailedOnce(now: int): Attempt {
    Attempt(1, NO_LOCKOUT, now, 0)
  }

  function WithFailure(t: Tables, k: Key, now: int): Tables {
    Tables(t.byIP[k.ip := FailedOnce(now)], t.byKey[k := FailedOnce(now)], t.byUser)
  }

  /** A first attempt of a new IP may be made, and when it fails that is all there is of it. */
  lemma FirstFailure(t: Tables, k: Key, now: int)
    requires k !in t.byKey && k.ip !in t.byIP && t.byUser == map[] && 0 <= now
    ensures MayTry(t, k, now) && Fail(Admit(t, k, false, now), k, now) == WithFailure(t, k, now)
  {
    var st := Attempt(0, NO_LOCKOUT, now, 1);
    assert Admit(t, k, false, now) == Tables(t.byIP[k.ip := st], t.byKey[k := st], map[k.user := st]);
  }

  method AddFailure(l: Limiter, k: Key, now: int)
    requires l.Valid() && l.clock <= now && l.byUser == map[] && l.maxUser >= 1 && now - l.pruned < l.pruneEvery
    requires k !in l.byKey && k.ip !in l.byIP && |l.byKey| < l.maxKey && |l.byIP| < l.maxIP
    modifies l
    ensures l.Valid() && l.clock == now && l.T() == WithFailure(old(l.T()), k, now)
    ensures l.lastCapSweep == old(l.lastCapSweep) || l.lastCapSweep == now
    ensures l.pruned == old(l.pruned) || l.pruned == now
  {
    FirstFailure(l.T(), k, now);
    TryNew(l, k, now);
    l.Failed(k, now);
  }

  lemma RoomIsSafe(t: Tables, k: Key, now: int, expiry: int, maxKey: nat)
    requires |t.byKey| < maxKey
    ensures !AtRisk(t, k, now, expiry, maxKey)
  {
    FewerKeys(Unpruned(t.byKey, now, expiry), t.byKey);
  }

  /** A reservation with room for it. */
  method TryNew(l: Limiter, k: Key, now: int)
    requires l.Valid() && l.clock <= now && l.Roomy(k) && now - l.pruned < l.pruneEvery
    requires |l.byKey| < l.maxKey && MayTry(l.T(), k, now)
    modifies l
    ensures l.Valid() && l.clock == now && l.T() == Admit(old(l.T()), k, false, now)
    ensures l.lastCapSweep == old(l.lastCapSweep) || l.lastCapSweep == now
    ensures l.pruned == old(l.pruned) || l.pruned == now
  {
    RoomIsSafe(l.T(), k, now, l.expiry, l.maxKey);
    assert !l.Exposed(k, now);
    var ok, evicted, swept := l.Reserve(k, now);
  }

  /** A table of identities with one failure each, every one at an IP of its own that is no longer than `n`. The
      first one failed before the others. */
  ghost predicate Failures(t: Tables, first: Key, n: nat) {
    && t.byUser == map[] && first in t.byKey && t.byKey[first] == FailedOnce(0)
    && (forall k :: k in t.byKey && k != first ==> t.byKey[k] == FailedOnce(1) && k.ip != first.ip)
    && (forall k :: k in t.byKey ==> k.ip in t.byIP) && (forall ip :: ip in t.byIP ==> |ip| <= n)
  }

  lemma MoreFailures(t: Tables, first: Key, k: Key, n: nat)
    requires Failures(t, first, n) && |k.ip| == n + 1
    ensures k !in t.byKey && k.ip !in t.byIP && Failures(WithFailure(t, k, 1), first, n + 1)
    ensures |WithFailure(t, k, 1).byKey| == |t.byKey| + 1 && |WithFailure(t, k, 1).byIP| == |t.byIP| + 1
  {
  }

  lemma OneFailure(k: Key)
    ensures Failures(WithFailure(Tables(map[], map[], map[]), k, 0), k, |k.ip|)
  {
  }

  /** Fills a new limiter with identities that have failed once. */
  method Fill(maxIP: nat, maxKey: nat, maxUser: nat, expiry: nat, pruneEvery: nat, first: Key) returns (l: Limiter)
    requires 1 <= maxKey <= maxIP && maxUser >= 1 && pruneEvery > 1
    ensures fresh(l) && l.Valid() && l.clock <= 1 && l.lastCapSweep <= 1
    ensures l.maxKey == maxKey && l.maxUser == maxUser && l.expiry == expiry
    ensures |l.byKey| == maxKey && exists n :: Failures(l.T(), first, n)
  {
    l := new Limiter(maxIP, maxKey, maxUser, expiry, pruneEvery, 0);
    AddFailure(l, first, 0);
    OneFailure(first);
    var ip := first.ip;
    for i := 1 to maxKey
      invariant fresh(l) && Filling(l, first, |ip|, i)
    {
      ip := ip + "x";
      FillNext(l, first, ip, i);
    }
  }

  /** The limiter with i of them. */
  ghost predicate Filling(l: Limiter, first: Key, n: nat, i: nat) reads l {
    && l.Valid() && 0 <= l.clock <= 1 && 0 <= l.lastCapSweep <= 1 && 0 <= l.pruned <= 1
    && |l.byKey| == i && |l.byIP| == i && Failures(l.T(), first, n)
  }

  method FillNext(l: Limiter, first: Key, ip: string, i: nat)
    requires |ip| >= 1 && Filling(l, first, |ip| - 1, i) && i < l.maxKey <= l.maxIP
    requires l.maxUser >= 1 && l.pruneEvery > 1
    modifies l
    ensures Filling(l, first, |ip|, i + 1)
  {
    var k := Key(ip, first.user);
    MoreFailures(l.T(), first, k, |ip| - 1);
    AddFailure(l, k, 1);
  }

  /** When the table is full the first of them is at risk from another user of its IP. */
  lemma FirstAtRisk(t: Tables, first: Key, second: Key, now: int, expiry: int, maxKey: nat, n: nat)
    requires Failures(t, first, n) && |t.byKey| >= maxKey && first.ip == second.ip && first != second
    requires 1 <= now <= expiry
    ensures AtRisk(t, second, now, expiry, maxKey)
    ensures forall k :: Oldest(t.byKey, k, now) ==> k == first
  {
    assert Unpruned(t.byKey, now, expiry) == t.byKey;
    assert SoleIdentity(t.byKey, first) && Oldest(t.byKey, first, now);
  }

  /** The failing case is reached on a limiter of any size: every identity it has room for fails once, each at an
      IP of its own, and then another user of the IP that failed first tries. */
  method BreakingRun(
    maxIP: nat, maxKey: nat, maxUser: nat, expiry: nat, pruneEvery: nat, ip: string, user: string, other: string)
    returns (l: Limiter)
    requires 1 <= maxKey <= maxIP && maxUser >= 1 && expiry > CAP_SWEEP_INTERVAL && pruneEvery > 1 && user != other
    ensures fresh(l) && l.maxKey == maxKey && l.WithinCapacity() && !l.Valid()
  {
    var first, second, now := Key(ip, user), Key(ip, other), CAP_SWEEP_INTERVAL + 1;
    l := Fill(maxIP, maxKey, maxUser, expiry, pruneEvery, first);
    ghost var n :| Failures(l.T(), first, n);
    FirstAtRisk(l.T(), first, second, now, expiry, maxKey, n);
    var ok, evicted, swept := l.Reserve(second, now);
  }

  datatype Call =
    | Reserving(k: Key, now: int) | Failing(k: Key, now: int) | Canceling(k: Key, now: int)
    | Succeeding(k: Key, now: int)

  predicate InOrder(clock: int, calls: seq<Call>)
    decreases |calls|
  {
    calls != [] ==> clock <= calls[0].now && InOrder(calls[0].now, calls[1..])
  }

  /** Two sweeps at one instant drop what one sweep drops. */
  lemma UnprunedTwice(m: map<Key, Attempt>, now: int, expiry: int)
    ensures Unpruned(Unpruned(m, now, expiry), now, expiry) == Unpruned(m, now, expiry)
  {
  }

  lemma UsersBusy(t: Tables, now: int)
    requires Consistent(t, now)
    ensures forall user :: user in t.byUser ==> t.byUser[user].inFlight != 0
  {
    forall user | user in t.byUser ensures t.byUser[user].inFlight != 0 { assert UserOk(t, user); }
  }

  lemma PutAddsNothing<K>(m: map<K, Attempt>, k: K, st: Option<Attempt>)
    requires st.Some? ==> k in m
    ensures |Put(m, k, st)| <= |m|
  {
    FewerKeys(Put(m, k, st), m);
  }

  /** The three ways an attempt ends never create a record. */
  lemma TerminalsAddNothing(t: Tables, k: Key, c: Change)
    requires InProgress(t, k) && (k.ip !in t.byIP ==> c.ip.None?) && (k.user !in t.byUser ==> c.user.None?)
    ensures var t' := Apply(t, k, c); |t'.byIP| <= |t.byIP| && |t'.byKey| <= |t.byKey| && |t'.byUser| <= |t.byUser|
  {
    PutAddsNothing(t.byIP, k.ip, c.ip);
    PutAddsNothing(t.byKey, k, c.id);
    PutAddsNothing(t.byUser, k.user, c.user);
  }

  lemma FewerKeys<K, V>(small: map<K, V>, large: map<K, V>)
    requires small.Keys <= large.Keys
    ensures |small| <= |large|
  {
    var rest := large.Keys - small.Keys;
    assert large.Keys == small.Keys + rest && |large.Keys| == |small.Keys| + |rest|;
  }
}
