/** The retry loop of sendMessages, as a function of the server's replies. */
module Sending {
  import opened Connectivity

  /** The HTTP timeout of an offline retry, in seconds. */
  const OFFLINE_TIMEOUT := 5

  /** A 2xx; a 429 or 5xx; any other status; or no response at all. */
  datatype Reply = Accepted | Busy | Refused | NetworkError

  predicate Again(r: Reply) { r.Busy? || r.NetworkError? }

  /** Attempts made from attempt a on, when MaxRetries reads max throughout. */
  function Needed(replies: nat -> Reply, max: nat, a: nat): nat
    requires a <= max
    decreases max - a
  {
    if a == max || !Again(replies(a)) then a + 1 else Needed(replies, max, a + 1)
  }

  /** Some attempt within the budget is accepted, and every earlier one invites another. */
  ghost predicate Succeeds(replies: nat -> Reply, max: nat) {
    exists a: nat :: a <= max && replies(a).Accepted? && forall b: nat :: b < a ==> Again(replies(b))
  }

  lemma {:induction false} NeededStopsAtFirst(replies: nat -> Reply, max: nat, a: nat)
    requires a <= max && forall b: nat :: b < a ==> Again(replies(b))
    ensures var n := Needed(replies, max, a);
      && a < n <= max + 1
      && (forall b: nat :: b < n - 1 ==> Again(replies(b)))
      && (n <= max ==> !Again(replies(n - 1)))
      && (replies(n - 1).Accepted? <==> Succeeds(replies, max))
    decreases max - a
  {
    if a == max || !Again(replies(a)) {
      if Succeeds(replies, max) {
        var c: nat :| c <= max && replies(c).Accepted? && forall b: nat :: b < c ==> Again(replies(b));
        assert c < a ==> Again(replies(c));
        assert a < c ==> Again(replies(a));
      }
    } else {
      NeededStopsAtFirst(replies, max, a + 1);
    }
  }

  /** Seconds slept when n attempts are followed by a pause: 1 + 2 + ... + n. */
  function Backoff(n: nat): nat { if n == 0 then 0 else Backoff(n - 1) + n }

  lemma {:induction false} BackoffIsTriangular(n: nat)
    ensures 2 * Backoff(n) == n * (n + 1)
  {
    if n > 0 { BackoffIsTriangular(n - 1); }
  }

  lemma {:induction false} BackoffMonotone(m: nat, n: nat)
    requires m <= n
    ensures Backoff(m) <= Backoff(n)
    decreases n
  {
    if m < n { BackoffMonotone(m, n - 1); }
  }

  function Report(r: Reply, now: int): seq<Change> {
    match r
    case NetworkError => [Change(false, now)]
    case Accepted => [Change(true, now)]
    case _ => []
  }

  /** What n attempts report about connectivity. */
  function Reports(replies: nat -> Reply, clock: nat -> int, n: nat): seq<Change> {
    if n == 0 then [] else Reports(replies, clock, n - 1) + Report(replies(n - 1), clock(n - 1))
  }

  // ---- With MaxRetries changing underneath ----

  /**
   The world during one send: replies and clock per attempt, and what MaxRetries is read as.
   Attempt a reads it twice, for the loop test (reading 2a) and before another try (2a + 1).
   */
  datatype Network = Network(replies: nat -> Reply, limits: nat -> int, clock: nat -> int)

  /** Only a concurrent offline retry changes MaxRetries, to 1 and back. */
  ghost predicate Interfered(net: Network, max: int) {
    max >= 1 && forall r: nat :: net.limits(r) == max || net.limits(r) == 1
  }

  ghost predicate Undisturbed(net: Network, max: int) {
    forall r: nat :: net.limits(r) == max
  }

  /** Attempt a is made, invites another, and the limit then read allows one. */
  predicate GoesOn(net: Network, a: nat) {
    Again(net.replies(a)) && a <= net.limits(2 * a) && a < net.limits(2 * a + 1)
  }

  /** All attempts before this one went on. */
  ghost predicate Trying(net: Network, max: nat, attempt: nat) {
    attempt <= max && forall a: nat :: a < attempt ==> GoesOn(net, a)
  }

  /** The last attempt is followed by a pause, but the limit is lower when the loop tests it again. */
  predicate StopsAtHead(net: Network, attempts: nat)
    requires attempts > 0
  {
    GoesOn(net, attempts - 1) && net.limits(2 * attempts) < attempts
  }

  /** What a send of a good batch comes to. */
  ghost predicate Outcome(net: Network, max: nat, ok: bool, attempts: nat, backoff: nat) {
    && 1 <= attempts <= max + 1
    && (forall a: nat :: a < attempts - 1 ==> GoesOn(net, a)) && attempts - 1 <= net.limits(2 * (attempts - 1))
    && (GoesOn(net, attempts - 1) ==> StopsAtHead(net, attempts))
    && (ok <==> net.replies(attempts - 1).Accepted?)
    && backoff == Backoff(if GoesOn(net, attempts - 1) then attempts else attempts - 1)
    && backoff <= Backoff(max)
    && (Undisturbed(net, max) ==> attempts == Needed(net.replies, max, 0) && (ok <==> Succeeds(net.replies, max)))
  }

  /** How a send came out: accepted or not, after so many attempts. */
  datatype Try = Try(ok: bool, attempts: nat)

  /** A send of messages that can be sent comes out as the network decides; any other fails at once. */
  ghost predicate Honest(sendable: bool, max: int, net: Network, try: Try) {
    if sendable then exists backoff: nat :: max >= 0 && Outcome(net, max, try.ok, try.attempts, backoff)
    else try == Try(false, 0)
  }

  /** The replies and the readings determine the outcome. */
  lemma OutcomeIsUnique(net: Network, max: nat, ok: bool, n: nat, b: nat, ok': bool, n': nat, b': nat)
    requires Outcome(net, max, ok, n, b) && Outcome(net, max, ok', n', b')
    ensures ok == ok' && n == n' && b == b'
  {
    assert n < n' ==> GoesOn(net, n - 1) && (n < n' - 1 ==> GoesOn(net, n));
    assert n' < n ==> GoesOn(net, n' - 1) && (n' < n - 1 ==> GoesOn(net, n'));
  }

  /** The first attempt that stops an undisturbed send is where Needed stops. */
  lemma FirstStopIsNeeded(replies: nat -> Reply, max: nat, n: nat)
    requires n <= max && (forall a: nat :: a < n ==> Again(replies(a))) && (n == max || !Again(replies(n)))
    ensures Needed(replies, max, 0) == n + 1
  {
    NeededStopsAtFirst(replies, max, 0);
    var m := Needed(replies, max, 0);
    var last: nat := m - 1;
    assert last < n ==> Again(replies(last));
    assert n < last ==> Again(replies(n));
  }

  /** The loop ends inside an attempt: accepted, refused, or out of retries at the second reading. */
  lemma StopInAttempt(net: Network, max: nat, attempt: nat)
    requires Interfered(net, max) && Trying(net, max, attempt) && attempt <= net.limits(2 * attempt)
    requires !GoesOn(net, attempt)
    ensures Outcome(net, max, net.replies(attempt).Accepted?, attempt + 1, Backoff(attempt))
  {
    BackoffMonotone(attempt, max);
    NeededStopsAtFirst(net.replies, max, 0);
    forall a: nat | a < attempt ensures Again(net.replies(a)) { assert GoesOn(net, a); }
    if Undisturbed(net, max) {
      assert net.limits(2 * attempt + 1) == max;
      FirstStopIsNeeded(net.replies, max, attempt);
    }
  }

  /** The loop ends at its head: the limit was lowered while the last pause was slept. */
  lemma StopAtHead(net: Network, max: nat, attempt: nat)
    requires Interfered(net, max) && Trying(net, max, attempt) && 0 < attempt && net.limits(2 * attempt) < attempt
    ensures Outcome(net, max, false, attempt, Backoff(attempt))
  {
    BackoffMonotone(attempt, max);
    assert GoesOn(net, attempt - 1);
    var r: nat := 2 * attempt;
    assert Undisturbed(net, max) ==> net.limits(r) == max;
  }

  /** The attempts of an offline retry, which allows itself one more. */
  function RetryAttempts(replies: nat -> Reply): nat { Needed(replies, 1, 0) }

  // ---- By the replies alone ----

  /**
   A send after k replies that were a 429, a 5xx or none at all, with MaxRetries undisturbed: a 2xx
   within the budget ends it with success and any other status with failure, at attempt k + 1; when
   the budget is used up it fails. Before each further attempt it slept one second more.
   */
  lemma AnswersDecide(net: Network, max: nat, ok: bool, attempts: nat, backoff: nat, k: nat)
    requires Outcome(net, max, ok, attempts, backoff) && Undisturbed(net, max)
    requires k <= max + 1 && forall a: nat :: a < k ==> net.replies(a).Busy? || net.replies(a).NetworkError?
    ensures k <= max && net.replies(k).Accepted? ==> ok && attempts == k + 1 && 2 * backoff == k * (k + 1)
    ensures k <= max && net.replies(k).Refused? ==> !ok && attempts == k + 1 && 2 * backoff == k * (k + 1)
    ensures k == max + 1 ==> !ok && attempts == max + 1 && 2 * backoff == max * (max + 1)
  {
    var last: nat := attempts - 1;
    assert net.limits(2 * last) == max && net.limits(2 * last + 1) == max && net.limits(2 * attempts) == max;
    assert last < k ==> !GoesOn(net, last) ==> last == max;
    assert k < last ==> GoesOn(net, k);
    BackoffIsTriangular(last);
  }

  /** The same for a send of messages that may not be sendable at all, as the consumer's flushes record it. */
  lemma TryByReplies(sendable: bool, max: int, net: Network, try: Try, k: nat)
    requires Honest(sendable, max, net, try)
    ensures !sendable ==> !try.ok && try.attempts == 0
    ensures
      && sendable && Undisturbed(net, max) && k <= max + 1
      && (forall a: nat :: a < k ==> net.replies(a).Busy? || net.replies(a).NetworkError?)
      ==>
        && (k <= max && net.replies(k).Accepted? ==> try.ok && try.attempts == k + 1)
        && (k <= max && net.replies(k).Refused? ==> !try.ok && try.attempts == k + 1)
        && (k == max + 1 ==> !try.ok && try.attempts == max + 1)
  {
    if sendable {
      var backoff: nat :| max >= 0 && Outcome(net, max, try.ok, try.attempts, backoff);
      if Undisturbed(net, max) && k <= max + 1
        && forall a: nat :: a < k ==> net.replies(a).Busy? || net.replies(a).NetworkError?
      {
        AnswersDecide(net, max, try.ok, try.attempts, backoff, k);
      }
    }
  }

  /**
   With MaxRetries changing underneath: an attempt is followed by another exactly when its reply was
   a 429, a 5xx or none at all and both readings after it allow one.
   */
  lemma ReadingsDecide(net: Network, max: nat, ok: bool, attempts: nat, backoff: nat, a: nat)
    requires Outcome(net, max, ok, attempts, backoff) && a < attempts
    ensures var again := net.replies(a).Busy? || net.replies(a).NetworkError?;
      a + 1 < attempts <==> again && a < net.limits(2 * a + 1) && a + 1 <= net.limits(2 * (a + 1))
    ensures ok <==> net.replies(attempts - 1).Accepted?
  {
    if a + 1 < attempts {
      assert GoesOn(net, a);
      assert a + 1 < attempts - 1 ==> GoesOn(net, a + 1);
    }
  }

  /** An offline retry makes a second attempt only after a 429, a 5xx or no response. */
  lemma RetryByReplies(replies: nat -> Reply)
    ensures var again := replies(0).Busy? || replies(0).NetworkError?;
      && (Succeeds(replies, 1) <==> replies(0).Accepted? || (again && replies(1).Accepted?))
      && RetryAttempts(replies) == if again then 2 else 1
  {
    NeededStopsAtFirst(replies, 1, 0);
    if replies(0).Accepted? {
      assert 0 <= 1 && replies(0).Accepted? && forall b: nat :: b < 0 ==> Again(replies(b));
    }
  }

  /** Attempt a says u about connectivity. */
  ghost predicate Says(replies: nat -> Reply, clock: nat -> int, a: nat, u: Change) {
    u.at == clock(a) && if u.online then replies(a).Accepted? else replies(a).NetworkError?
  }

  /** What the reports say: each attempt with no response says offline, each 2xx online, others nothing. */
  lemma {:induction false} ReportsByReplies(replies: nat -> Reply, clock: nat -> int, n: nat, u: Change)
    ensures u in Reports(replies, clock, n) <==> exists a: nat :: a < n && Says(replies, clock, a, u)
  {
    if n > 0 {
      ReportsByReplies(replies, clock, n - 1, u);
      if u in Reports(replies, clock, n) && u !in Reports(replies, clock, n - 1) {
        assert Says(replies, clock, n - 1, u);
      }
    }
  }

  /** And there is one for each of those attempts. */
  lemma {:induction false} OneReportEach(replies: nat -> Reply, clock: nat -> int, n: nat)
    ensures |Reports(replies, clock, n)| == |set a: nat | a < n && (replies(a).NetworkError? || replies(a).Accepted?)|
  {
    var telling := set a: nat | a < n && (replies(a).NetworkError? || replies(a).Accepted?);
    if n == 0 {
      assert telling == {};
    } else {
      OneReportEach(replies, clock, n - 1);
      var before := set a: nat | a < n - 1 && (replies(a).NetworkError? || replies(a).Accepted?);
      assert telling == before + if replies(n - 1).NetworkError? || replies(n - 1).Accepted? then {n - 1} else {};
    }
  }

  /** The last report is of the last attempt that says anything. */
  lemma {:induction false} LastReport(replies: nat -> Reply, clock: nat -> int, n: nat, a: nat)
    requires a < n && (replies(a).NetworkError? || replies(a).Accepted?)
    requires forall b: nat :: a < b < n ==> replies(b).Busy? || replies(b).Refused?
    ensures var reports := Reports(replies, clock, n);
      reports != [] && Says(replies, clock, a, reports[|reports| - 1])
  {
    if a < n - 1 {
      LastReport(replies, clock, n - 1, a);
    }
  }

  /** The last report tells whether the client believes it is online; at first it does. */
  function Online(trace: seq<Change>): bool { trace == [] || trace[|trace| - 1].online }
}
