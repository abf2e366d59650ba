/** The fixed-window limiter of failed logins (security.js) and the way the login handler of server.js uses it. */
module LoginLimiter {

  datatype Entry = Entry(count: nat, startedAt: int)

  /** One window of an address: when it started, and when each failure it counted was recorded. */
  datatype Window = Window(start: int, failures: seq<int>)

  // ----- how many failures windows allow

  /** Windows start at least one length apart, and count only failures within their length. */
  predicate Chained(windows: seq<Window>, length: int) {
    && (forall i | 0 <= i < |windows| - 1 :: windows[i].start + length <= windows[i + 1].start)
    && (forall i, k | 0 <= i < |windows| && 0 <= k < |windows[i].failures| ::
          windows[i].start <= windows[i].failures[k] < windows[i].start + length)
  }

  predicate AtMost(windows: seq<Window>, limit: int) { forall i | 0 <= i < |windows| :: |windows[i].failures| <= limit }

  /** How many of the times lie in the half-open interval. */
  function CountIn(times: seq<int>, from: int, to: int): (n: nat)
    ensures n <= |times|
  {
    if times == [] then 0
    else CountIn(times[..|times| - 1], from, to) + if from <= times[|times| - 1] < to then 1 else 0
  }

  function TotalIn(windows: seq<Window>, from: int, to: int): nat {
    if windows == [] then 0
    else TotalIn(windows[..|windows| - 1], from, to) + CountIn(windows[|windows| - 1].failures, from, to)
  }

  lemma {:induction false} CountNone(times: seq<int>, from: int, to: int)
    requires forall k | 0 <= k < |times| :: times[k] < from || to <= times[k]
    ensures CountIn(times, from, to) == 0
    decreases |times|
  {
    if times != [] { CountNone(times[..|times| - 1], from, to); }
  }

  /** Windows that ended before an interval count nothing in it. */
  lemma {:induction false} TotalBefore(windows: seq<Window>, length: int, from: int, to: int)
    requires length > 0 && Chained(windows, length)
    requires windows != [] ==> windows[|windows| - 1].start + length <= from
    ensures TotalIn(windows, from, to) == 0
    decreases |windows|
  {
    if windows != [] {
      var n := |windows| - 1;
      if n > 0 { assert windows[n - 1].start + length <= windows[n].start; }
      TotalBefore(windows[..n], length, from, to);
      CountNone(windows[n].failures, from, to);
    }
  }

  /** Windows of which the last started before an interval and the one before ended by its start. */
  lemma TotalOfLast(windows: seq<Window>, limit: nat, from: int, to: int)
    requires windows != [] && AtMost(windows, limit) && TotalIn(windows[..|windows| - 1], from, to) == 0
    ensures TotalIn(windows, from, to) <= limit
  {
    assert |windows[|windows| - 1].failures| <= limit;
  }

  lemma ChainedPrefix(windows: seq<Window>, length: int, limit: nat, n: nat)
    requires Chained(windows, length) && AtMost(windows, limit) && n <= |windows|
    ensures Chained(windows[..n], length) && AtMost(windows[..n], limit)
  {
  }

  /** An interval as long as a window meets at most two of them. */
  lemma {:induction false} SlidingBound(windows: seq<Window>, length: int, limit: nat, from: int)
    requires length > 0 && Chained(windows, length) && AtMost(windows, limit)
    ensures TotalIn(windows, from, from + length) <= 2 * limit
    decreases |windows|
  {
    if windows != [] {
      var n := |windows| - 1;
      var to, earlier := from + length, windows[..n];
      ChainedPrefix(windows, length, limit, n);
      assert |windows[n].failures| <= limit;
      if to <= windows[n].start {
        SlidingBound(earlier, length, limit, from);
        CountNone(windows[n].failures, from, to);
      } else if n > 0 {
        assert windows[n - 1].start + length <= windows[n].start;
        if n > 1 { assert windows[n - 2].start + length <= windows[n - 1].start; }
        ChainedPrefix(windows, length, limit, n - 1);
        assert earlier[..n - 1] == windows[..n - 1];
        TotalBefore(windows[..n - 1], length, from, to);
        TotalOfLast(earlier, limit, from, to);
      }
    }
  }

  function Repeated(time: int, times: nat): seq<int> { seq(times, i => time) }

  lemma {:induction false} CountRepeated(time: int, times: nat, from: int, to: int)
    requires from <= time < to
    ensures CountIn(Repeated(time, times), from, to) == times
  {
    if times > 0 {
      assert Repeated(time, times)[..times - 1] == Repeated(time, times - 1);
      CountRepeated(time, times - 1, from, to);
    }
  }

  /** Twice the limit is reached: by failures at the end of one window and at the start of the next. */
  lemma SlidingBoundTight(length: int, limit: nat) returns (windows: seq<Window>, from: int)
    requires length > 1
    ensures Chained(windows, length) && AtMost(windows, limit)
    ensures TotalIn(windows, from, from + length) == 2 * limit
  {
    windows := [Window(0, Repeated(length - 1, limit)), Window(length, Repeated(length, limit))];
    from := length - 1;
    CountRepeated(length - 1, limit, from, from + length);
    CountRepeated(length, limit, from, from + length);
    assert windows[..1][..0] == [] && windows[..1][0] == windows[0];
    assert TotalIn(windows[..1], from, from + length) == limit;
  }

  // ----- the limiter

  /** The entry for an address, given the one or two readings of the clock it takes. */
  function EntryAt(attempts: map<string, Entry>, address: string, windowMs: int, first: int, second: int): Entry {
    if address !in attempts || first - attempts[address].startedAt >= windowMs then Entry(0, second)
    else attempts[address]
  }

  datatype Response = TooMany | Unauthorized | LoggedIn

  class Limiter {
    const limit: int
    const windowMs: int
    var attempts: map<string, Entry>
    /** The latest reading of the clock. */
    var clock: int
    /** The windows of each address since it was last reset. */
    ghost var history: map<string, seq<Window>>

    constructor (limit: int, windowMs: int, now: int)
      ensures this.limit == limit && this.windowMs == windowMs && attempts == map[] && history == map[] && Valid()
    {
      this.limit, this.windowMs, attempts, clock, history := limit, windowMs, map[], now, map[];
    }

    /** The entries are those of the last windows. */
    ghost predicate Valid()
      reads this
    {
      && attempts.Keys == history.Keys
      && forall a | a in history :: Matches(history[a], attempts[a], windowMs, clock)
    }

    /** The clock never runs backwards. */
    method Now() returns (t: int)
      modifies this`clock
      ensures t == clock && clock >= old(clock)
    {
      var reading: int := *;
      if reading > clock { clock := reading; }
      return clock;
    }

    method EntryFor(address: string) returns (entry: Entry, ghost first: int, ghost second: int)
      requires Valid() && windowMs > 0
      modifies this
      ensures Valid() && old(clock) <= first <= second == clock
      ensures entry == EntryAt(old(attempts), address, windowMs, first, second)
      ensures attempts == old(attempts)[address := entry]
      ensures history == old(history)[address := Looked(old(history), old(attempts), address, windowMs, first, second)]
      ensures entry.startedAt <= clock < entry.startedAt + windowMs
    {
      first, second := clock, clock;
      if address in attempts {
        var current := attempts[address];
        var t := Now();
        first, second := t, t;
        if t - current.startedAt < windowMs {
          StillMatches(old(history), old(attempts), windowMs, old(clock), clock);
          return current, first, second;
        }
      }
      var startedAt := Now();
      second := startedAt;
      entry := Entry(0, startedAt);
      StillMatches(old(history), old(attempts), windowMs, old(clock), clock);
      attempts := attempts[address := entry];
      history := history[address := Looked(history, old(attempts), address, windowMs, first, second)];
    }

    method IsBlocked(address: string) returns (blocked: bool, ghost first: int)
      requires Valid() && windowMs > 0
      modifies this
      ensures Valid() && old(clock) <= first <= clock
      ensures attempts == old(attempts)[address := EntryAt(old(attempts), address, windowMs, first, clock)]
      ensures history == old(history)[address := Looked(old(history), old(attempts), address, windowMs, first, clock)]
      ensures blocked == (attempts[address].count >= limit)
    {
      hide *;
      var entry;
      ghost var second;
      entry, first, second := EntryFor(address);
      blocked := entry.count >= limit;
    }

    method RecordFailure(address: string) returns (ghost first: int)
      requires Valid() && windowMs > 0
      modifies this
      ensures Valid() && old(clock) <= first <= clock
      ensures var entry := EntryAt(old(attempts), address, windowMs, first, clock);
        attempts == old(attempts)[address := entry.(count := entry.count + 1)]
      ensures var was := Looked(old(history), old(attempts), address, windowMs, first, clock);
        history == old(history)[address := Recorded(was, clock)]
    {
      hide Recorded, Looked, Matches, EntryAt;
      var entry;
      ghost var second;
      entry, first, second := EntryFor(address);
      RecordedMatches(history[address], entry, windowMs, clock);
      attempts := attempts[address := entry.(count := entry.count + 1)];
      history := history[address := Recorded(history[address], clock)];
    }

    method Reset(address: string)
      requires Valid()
      modifies this
      ensures Valid() && clock == old(clock)
      ensures attempts == old(attempts) - {address} && history == old(history) - {address}
    {
      attempts := attempts - {address};
      history := history - {address};
    }

    /** The most failures a window can count; a negative limit blocks everything. */
    ghost function Cap(): nat { if limit < 0 then 0 else limit }

    /**
     * The login handler, one request at a time: look whether the address is blocked, check the password, record a
     * failure or reset the address. No address ever has a window that counts more failures than the limit, and the
     * windows together hold exactly the failures since the last reset.
     */
    method Login(address: string, passwordMatches: bool) returns (r: Response, ghost checked: int)
      requires Valid() && windowMs > 0 && Bounded(history, Cap())
      modifies this
      ensures Valid() && old(clock) <= checked <= clock && Bounded(history, Cap())
      ensures r == TooMany <==>
        limit <= 0 || (address in old(attempts) && old(attempts)[address].count >= limit
                       && checked < old(attempts)[address].startedAt + windowMs)
      ensures r != TooMany ==> (r == LoggedIn <==> passwordMatches)
      ensures forall a | a != address :: Same(old(history), history, a)
      ensures FailureTimes(history, address) == match r
        case TooMany => FailureTimes(old(history), address)
        case Unauthorized => FailureTimes(old(history), address) + [clock]
        case LoggedIn => []
      ensures r == TooMany ==> address in attempts && attempts[address].count >= limit
      ensures address in history <==> r != LoggedIn
      ensures r == TooMany && address in old(history) && clock < old(attempts)[address].startedAt + windowMs ==>
        history[address] == old(history)[address]
      ensures forall a | a != address :: (a in attempts <==> a in old(attempts)) && (a in attempts ==> attempts[a] == old(attempts)[a])
    {
      hide Recorded, Looked, Matches, AtMost, Times, EntryAt, Limiter.Valid;
      SameKeys(this);
      ghost var first, before, entries := 0, history, attempts;
      var blocked;
      blocked, checked := IsBlocked(address);
      BlockedIff(entries, address, windowMs, checked, clock, limit);
      LookedLasts(before, entries, address, windowMs, checked, clock);
      LookedBounded(before, entries, address, windowMs, Cap(), checked, clock);
      LookedTimes(before, entries, address, windowMs, checked, clock);
      if blocked { return TooMany, checked; }
      if !passwordMatches {
        EntryMatches(this, address);
        before, entries := history, attempts;
        ghost var earlier := clock;
        first := RecordFailure(address);
        RecordBounded(before, entries, address, windowMs, Cap(), earlier, first, clock);
        LookedTimes(before, entries, address, windowMs, first, clock);
        RecordedTimes(Looked(before, entries, address, windowMs, first, clock), clock);
        return Unauthorized, checked;
      }
      Reset(address);
      return LoggedIn, checked;
    }
  }

  // ----- runs of the login handler

  datatype Request = Request(address: string, passwordMatches: bool)

  /** What a request was answered, and the clock when it was. */
  datatype Answer = Answer(address: string, response: Response, time: int)

  /** When an address was answered a failure since it last logged in. */
  function FailuresSinceLogin(answers: seq<Answer>, address: string): seq<int> {
    if answers == [] then []
    else
      var n := |answers| - 1;
      if answers[n].address != address then FailuresSinceLogin(answers[..n], address)
      else match answers[n].response
           case TooMany => FailuresSinceLogin(answers[..n], address)
           case Unauthorized => FailuresSinceLogin(answers[..n], address) + [answers[n].time]
           case LoggedIn => []
  }

  function FailuresWithin(answers: seq<Answer>, address: string, from: int, length: int): nat {
    CountIn(FailuresSinceLogin(answers, address), from, from + length)
  }

  /** At no point have there been more than twice the limit of failures within any interval as long as a window. */
  ghost predicate NeverTooMany(answers: seq<Answer>, length: int, limit: nat) {
    forall n, address, from | 0 <= n <= |answers| ::
      FailuresWithin(answers[..n], address, from, length) <= 2 * limit
  }

  /**
   * How an answer must turn out, given the windows of its address: as long as the last one lasts and has counted the
   * limit, whatever the password, the answer is that there were too many; and with a positive limit only then.
   */
  ghost predicate Decided(answer: Answer, request: Request, windows: seq<Window>, limit: int, length: int) {
    var full := windows != [] && |windows[|windows| - 1].failures| >= limit;
    && answer.address == request.address
    && (limit <= 0 ==> answer.response == TooMany)
    && (full && answer.time < windows[|windows| - 1].start + length ==> answer.response == TooMany)
    && (answer.response == TooMany && limit > 0 ==> full)
    && (answer.response != TooMany ==> (answer.response == LoggedIn <==> request.passwordMatches))
  }

  /** Windows that hold exactly the failures answered to an address since it last logged in. */
  ghost predicate Account(windows: seq<Window>, answers: seq<Answer>, address: string, length: int) {
    Chained(windows, length) && Times(windows) == FailuresSinceLogin(answers, address)
  }

  function WindowsOf(history: map<string, seq<Window>>, address: string): seq<Window> {
    if address in history then history[address] else []
  }

  /** An answer touches the windows of its own address only, and being turned away in a window leaves them alone. */
  ghost predicate Kept(answer: Answer, before: map<string, seq<Window>>, after: map<string, seq<Window>>, length: int) {
    && (forall a | a != answer.address :: WindowsOf(after, a) == WindowsOf(before, a))
    && var windows := WindowsOf(before, answer.address);
       (answer.response == TooMany && windows != [] && answer.time < windows[|windows| - 1].start + length ==>
          WindowsOf(after, answer.address) == windows)
  }

  /** An address whose last window has counted the limit and has not ended by the given time. */
  predicate Full(windows: seq<Window>, limit: int, time: int, length: int) {
    windows != [] && |windows[|windows| - 1].failures| >= limit && time < windows[|windows| - 1].start + length
  }

  /**
   * Once an address has been answered the limit of failures in one window, every answer to it until that window ends is
   * that there were too many.
   */
  ghost predicate TurnedAway(answers: seq<Answer>, states: seq<map<string, seq<Window>>>, limit: int, length: int)
    requires |states| == |answers| + 1
  {
    forall j, k | 0 <= j <= k < |answers| ::
      Full(WindowsOf(states[j], answers[k].address), limit, answers[k].time, length) ==> answers[k].response == TooMany
  }

  /** The answers, decided one by one, with the windows of all addresses before and after each. */
  ghost predicate Served(answers: seq<Answer>, requests: seq<Request>, states: seq<map<string, seq<Window>>>, limit: int,
                         length: int) {
    && |states| == |answers| + 1 && |answers| <= |requests|
    && (forall k | 0 <= k < |answers| ::
          && Decided(answers[k], requests[k], WindowsOf(states[k], requests[k].address), limit, length)
          && Kept(answers[k], states[k], states[k + 1], length))
    && (forall k, a | 0 <= k <= |answers| :: Account(WindowsOf(states[k], a), answers[..k], a, length))
    && (forall i, j | 0 <= i < j < |answers| :: answers[i].time <= answers[j].time)
  }

  /** A full window stays as it is as long as it lasts. */
  lemma {:induction false} StaysFull(answers: seq<Answer>, requests: seq<Request>, states: seq<map<string, seq<Window>>>,
                                     limit: int, length: int, j: nat, k: nat, a: string)
    requires Served(answers, requests, states, limit, length) && j <= k < |answers|
    requires Full(WindowsOf(states[j], a), limit, answers[k].time, length)
    ensures WindowsOf(states[k], a) == WindowsOf(states[j], a)
    decreases k
  {
    hide Account;
    if j < k {
      StaysFull(answers, requests, states, limit, length, j, k - 1, a);
      assert Kept(answers[k - 1], states[k - 1], states[k - 1 + 1], length);
      assert Decided(answers[k - 1], requests[k - 1], WindowsOf(states[k - 1], requests[k - 1].address), limit, length);
    }
  }

  lemma AllTurnedAway(answers: seq<Answer>, requests: seq<Request>, states: seq<map<string, seq<Window>>>, limit: int,
                      length: int)
    requires Served(answers, requests, states, limit, length)
    ensures TurnedAway(answers, states, limit, length)
  {
    hide Account, Kept;
    forall j, k | 0 <= j <= k < |answers| && Full(WindowsOf(states[j], answers[k].address), limit, answers[k].time, length)
      ensures answers[k].response == TooMany
    {
      StaysFull(answers, requests, states, limit, length, j, k, answers[k].address);
      assert Decided(answers[k], requests[k], WindowsOf(states[k], requests[k].address), limit, length);
    }
  }

  /**
   * Any requests, one at a time, to a new limiter, whatever the clock does in between. Once an address has been answered
   * the limit of failures in one window, every answer to it until that window ends is that there were too many. And in
   * every half-open interval as long as a window it is answered at most twice the limit of failures, as long as it does
   * not log in.
   */
  method Serve(limiter: Limiter, requests: seq<Request>)
    returns (answers: seq<Answer>, ghost states: seq<map<string, seq<Window>>>)
    requires limiter.Valid() && limiter.windowMs > 0 && limiter.history == map[]
    modifies limiter
    ensures |answers| == |requests| && Served(answers, requests, states, limiter.limit, limiter.windowMs)
    ensures TurnedAway(answers, states, limiter.limit, limiter.windowMs)
    ensures NeverTooMany(answers, limiter.windowMs, limiter.Cap())
  {
    hide Matches, AtMost, CountIn, Times, FailuresSinceLogin, NeverTooMany, Limiter.Valid, Decided, Account, Kept, Served, TurnedAway;
    answers, states := [], [limiter.history];
    NothingAnswered(limiter, requests);
    for k := 0 to |requests|
      invariant limiter.Valid() && Bounded(limiter.history, limiter.Cap()) && |answers| == k && |states| == k + 1
      invariant Served(answers, requests, states, limiter.limit, limiter.windowMs) && states[k] == limiter.history
      invariant k > 0 ==> answers[k - 1].time == limiter.clock
      invariant forall a :: FailureTimes(limiter.history, a) == FailuresSinceLogin(answers, a)
      invariant NeverTooMany(answers, limiter.windowMs, limiter.Cap())
    {
      ghost var history, entries := limiter.history, limiter.attempts;
      var address := requests[k].address;
      LastWindow(limiter, address);
      var response;
      ghost var checked;
      response, checked := limiter.Login(address, requests[k].passwordMatches);
      var answer := Answer(address, response, limiter.clock);
      forall a ensures FailureTimes(limiter.history, a) == FailuresSinceLogin(answers + [answer], a) {
        FailuresPush(answers, answer, a);
        assert FailureTimes(history, a) == FailuresSinceLogin(answers, a);
        assert a != address ==> Same(history, limiter.history, a);
      }
      NeverTooManyPush(answers, answer, limiter.history, limiter);
      DecidedNow(answer, requests[k], history, entries, limiter.limit, limiter.windowMs, checked);
      KeptNow(answer, history, entries, limiter.history, limiter.windowMs);
      Accounts(limiter, answers + [answer]);
      ServedPush(answers, answer, requests, states, limiter.history, limiter.limit, limiter.windowMs);
      answers := answers + [answer];
      states := states + [limiter.history];
    }
    AllTurnedAway(answers, requests, states, limiter.limit, limiter.windowMs);
  }

  lemma KeptNow(answer: Answer, before: map<string, seq<Window>>, entries: map<string, Entry>,
                after: map<string, seq<Window>>, length: int)
    requires forall a | a != answer.address :: Same(before, after, a)
    requires var windows := WindowsOf(before, answer.address);
      if answer.address in entries then
        answer.address in before && windows != [] && windows[|windows| - 1].start == entries[answer.address].startedAt
      else windows == []
    requires answer.response == TooMany && answer.address in before && answer.address in entries
             && answer.time < entries[answer.address].startedAt + length ==>
               answer.address in after && after[answer.address] == before[answer.address]
    ensures Kept(answer, before, after, length)
  {
    forall a | a != answer.address ensures WindowsOf(after, a) == WindowsOf(before, a) {
      assert Same(before, after, a);
    }
  }

  /** What a limiter's entry says of the windows of an address. */
  lemma LastWindow(limiter: Limiter, address: string)
    requires limiter.Valid()
    ensures var windows := WindowsOf(limiter.history, address);
      if address in limiter.attempts then
        && address in limiter.history && windows != [] && |windows[|windows| - 1].failures| == limiter.attempts[address].count
        && windows[|windows| - 1].start == limiter.attempts[address].startedAt
      else windows == []
  {
  }

  lemma Accounts(limiter: Limiter, answers: seq<Answer>)
    requires limiter.Valid() && forall a :: FailureTimes(limiter.history, a) == FailuresSinceLogin(answers, a)
    ensures forall a :: Account(WindowsOf(limiter.history, a), answers, a, limiter.windowMs)
  {
    hide Times, FailuresSinceLogin;
    assert Times([]) == [] by { NoTimes(); }
    forall a ensures Account(WindowsOf(limiter.history, a), answers, a, limiter.windowMs) {
      assert FailureTimes(limiter.history, a) == FailuresSinceLogin(answers, a);
    }
  }

  lemma NoTimes()
    ensures Times([]) == []
  {
  }

  lemma DecidedNow(answer: Answer, request: Request, history: map<string, seq<Window>>, entries: map<string, Entry>,
                   limit: int, length: int, checked: int)
    requires answer.address == request.address && checked <= answer.time
    requires var windows := WindowsOf(history, request.address);
      if request.address in entries then
        && windows != [] && |windows[|windows| - 1].failures| == entries[request.address].count
        && windows[|windows| - 1].start == entries[request.address].startedAt
      else windows == []
    requires answer.response == TooMany <==>
      limit <= 0 || (request.address in entries && entries[request.address].count >= limit
                     && checked < entries[request.address].startedAt + length)
    requires answer.response != TooMany ==> (answer.response == LoggedIn <==> request.passwordMatches)
    ensures Decided(answer, request, WindowsOf(history, request.address), limit, length)
  {
  }

  lemma ServedPush(answers: seq<Answer>, answer: Answer, requests: seq<Request>, states: seq<map<string, seq<Window>>>,
                   after: map<string, seq<Window>>, limit: int, length: int)
    requires Served(answers, requests, states, limit, length) && |answers| < |requests|
    requires answers != [] ==> answers[|answers| - 1].time <= answer.time
    requires Kept(answer, states[|answers|], after, length)
    requires Decided(answer, requests[|answers|], WindowsOf(states[|answers|], requests[|answers|].address), limit, length)
    requires forall a :: Account(WindowsOf(after, a), answers + [answer], a, length)
    ensures Served(answers + [answer], requests, states + [after], limit, length)
  {
    hide Decided, Account, WindowsOf, Kept;
    var more, longer := answers + [answer], states + [after];
    forall k, a | 0 <= k <= |more| ensures Account(WindowsOf(longer[k], a), more[..k], a, length) {
      if k <= |answers| {
        assert more[..k] == answers[..k] && longer[k] == states[k];
      } else {
        assert more[..k] == more;
      }
    }
    forall k | 0 <= k < |more|
      ensures Decided(more[k], requests[k], WindowsOf(longer[k], requests[k].address), limit, length)
      ensures Kept(more[k], longer[k], longer[k + 1], length)
    {
      if k < |answers| {
        assert Kept(answers[k], states[k], states[k + 1], length);
      }
    }
  }

  lemma NothingAnswered(limiter: Limiter, requests: seq<Request>)
    requires limiter.history == map[]
    ensures Served([], requests, [limiter.history], limiter.limit, limiter.windowMs)
    ensures Bounded(limiter.history, limiter.Cap()) && NeverTooMany([], limiter.windowMs, limiter.Cap())
    ensures forall a :: FailureTimes(limiter.history, a) == FailuresSinceLogin([], a)
  {
    var none: seq<Answer> := [];
    assert forall n | 0 <= n <= |none| :: none[..n] == none;
  }

  lemma FailuresPush(answers: seq<Answer>, answer: Answer, address: string)
    ensures FailuresSinceLogin(answers + [answer], address)
      == if answer.address != address then FailuresSinceLogin(answers, address)
         else match answer.response
              case TooMany => FailuresSinceLogin(answers, address)
              case Unauthorized => FailuresSinceLogin(answers, address) + [answer.time]
              case LoggedIn => []
  {
    assert (answers + [answer])[..|answers|] == answers;
  }

  lemma NeverTooManyPush(answers: seq<Answer>, answer: Answer, history: map<string, seq<Window>>, limiter: Limiter)
    requires limiter.Valid() && limiter.windowMs > 0 && Bounded(limiter.history, limiter.Cap())
    requires forall a :: FailureTimes(limiter.history, a) == FailuresSinceLogin(answers + [answer], a)
    requires NeverTooMany(answers, limiter.windowMs, limiter.Cap())
    ensures NeverTooMany(answers + [answer], limiter.windowMs, limiter.Cap())
  {
    hide CountIn, FailuresSinceLogin, FailureTimes, Bounded, Limiter.Valid;
    var more := answers + [answer];
    forall n, address, from | 0 <= n <= |more|
      ensures FailuresWithin(more[..n], address, from, limiter.windowMs) <= 2 * limiter.Cap()
    {
      if n == |more| {
        assert more[..n] == more;
        assert FailuresSinceLogin(more, address) == FailureTimes(limiter.history, address);
        LimiterBound(limiter, address, from);
      } else {
        assert more[..n] == answers[..n];
      }
    }
  }

  lemma LookedLasts(history: map<string, seq<Window>>, attempts: map<string, Entry>, address: string, length: int,
                    first: int, second: int)
    requires first <= second
    ensures address in history && address in attempts && second < attempts[address].startedAt + length ==>
      Looked(history, attempts, address, length, first, second) == history[address]
  {
  }

  lemma SameKeys(limiter: Limiter)
    requires limiter.Valid()
    ensures limiter.attempts.Keys == limiter.history.Keys
  {
    hide Matches;
  }

  lemma EntryMatches(limiter: Limiter, address: string)
    requires limiter.Valid() && address in limiter.attempts
    ensures address in limiter.history
         && Matches(limiter.history[address], limiter.attempts[address], limiter.windowMs, limiter.clock)
  {
    hide Matches;
  }

  lemma BlockedIff(attempts: map<string, Entry>, address: string, windowMs: int, first: int, second: int, limit: int)
    ensures EntryAt(attempts, address, windowMs, first, second).count >= limit <==>
      limit <= 0
      || (address in attempts && attempts[address].count >= limit && first < attempts[address].startedAt + windowMs)
  {
  }

  /** A limiter's entry and clock against the windows it has had. */
  predicate Matches(windows: seq<Window>, entry: Entry, length: int, clock: int) {
    && windows != [] && Chained(windows, length)
    && windows[|windows| - 1].start == entry.startedAt <= clock
    && |windows[|windows| - 1].failures| == entry.count
  }

  ghost predicate Bounded(history: map<string, seq<Window>>, limit: int) {
    forall a | a in history :: AtMost(history[a], limit)
  }

  predicate Same(before: map<string, seq<Window>>, after: map<string, seq<Window>>, a: string) {
    (a in after <==> a in before) && (a in after ==> after[a] == before[a])
  }

  /** The windows of an address after it has been looked up. */
  function Looked(history: map<string, seq<Window>>, attempts: map<string, Entry>, address: string, length: int,
                  first: int, second: int): seq<Window> {
    var windows := if address in history then history[address] else [];
    if address !in attempts || first - attempts[address].startedAt >= length then windows + [Window(second, [])]
    else windows
  }

  function Recorded(windows: seq<Window>, time: int): seq<Window> {
    if windows == [] then []
    else
      var n := |windows| - 1;
      windows[..n] + [Window(windows[n].start, windows[n].failures + [time])]
  }

  /** All the failures that windows have counted, in order. */
  function Times(windows: seq<Window>): seq<int> {
    if windows == [] then [] else Times(windows[..|windows| - 1]) + windows[|windows| - 1].failures
  }

  function FailureTimes(history: map<string, seq<Window>>, address: string): seq<int> {
    if address in history then Times(history[address]) else []
  }

  lemma LookedTimes(history: map<string, seq<Window>>, attempts: map<string, Entry>, address: string, length: int,
                    first: int, second: int)
    ensures Times(Looked(history, attempts, address, length, first, second)) == FailureTimes(history, address)
  {
    var windows := if address in history then history[address] else [];
    assert (windows + [Window(second, [])])[..|windows|] == windows;
  }

  lemma RecordedTimes(windows: seq<Window>, time: int)
    requires windows != []
    ensures Times(Recorded(windows, time)) == Times(windows) + [time]
  {
    var n := |windows| - 1;
    assert Recorded(windows, time)[..n] == windows[..n];
  }

  lemma {:induction false} CountConcat(a: seq<int>, b: seq<int>, from: int, to: int)
    ensures CountIn(a + b, from, to) == CountIn(a, from, to) + CountIn(b, from, to)
    decreases |b|
  {
    if b == [] {
      assert a + b == a;
    } else {
      assert (a + b)[..|a + b| - 1] == a + b[..|b| - 1];
      CountConcat(a, b[..|b| - 1], from, to);
    }
  }

  lemma {:induction false} TotalIsCount(windows: seq<Window>, from: int, to: int)
    ensures TotalIn(windows, from, to) == CountIn(Times(windows), from, to)
    decreases |windows|
  {
    if windows != [] {
      var n := |windows| - 1;
      TotalIsCount(windows[..n], from, to);
      CountConcat(Times(windows[..n]), windows[n].failures, from, to);
    }
  }

  lemma StillMatches(history: map<string, seq<Window>>, attempts: map<string, Entry>, length: int, clock: int, later: int)
    requires attempts.Keys == history.Keys && clock <= later
    requires forall a | a in history :: Matches(history[a], attempts[a], length, clock)
    ensures forall a | a in history :: Matches(history[a], attempts[a], length, later)
  {
  }

  lemma RecordedMatches(windows: seq<Window>, entry: Entry, length: int, time: int)
    requires Matches(windows, entry, length, time) && time < entry.startedAt + length
    ensures Matches(Recorded(windows, time), entry.(count := entry.count + 1), length, time)
  {
  }

  lemma LookedBounded(history: map<string, seq<Window>>, attempts: map<string, Entry>, address: string, length: int,
                      limit: nat, first: int, second: int)
    requires Bounded(history, limit)
    ensures AtMost(Looked(history, attempts, address, length, first, second), limit)
  {
  }

  /** Recording after a check that did not block keeps within the limit, even when a new window starts in between. */
  lemma RecordBounded(history: map<string, seq<Window>>, attempts: map<string, Entry>, address: string, length: int,
                      limit: nat, earlier: int, first: int, second: int)
    requires Bounded(history, limit) && address in history && address in attempts
    requires Matches(history[address], attempts[address], length, earlier) && attempts[address].count < limit
    ensures var after := Recorded(Looked(history, attempts, address, length, first, second), second);
      AtMost(after, limit) && Looked(history, attempts, address, length, first, second) != []
  {
  }

  /**
   * As long as an address is not reset, any half-open interval as long as a window holds at most twice the limit of
   * its recorded failures.
   */
  lemma LimiterBound(limiter: Limiter, address: string, from: int)
    requires limiter.Valid() && limiter.windowMs > 0 && Bounded(limiter.history, limiter.Cap())
    ensures CountIn(FailureTimes(limiter.history, address), from, from + limiter.windowMs) <= 2 * limiter.Cap()
  {
    hide CountIn, TotalIn;
    if address in limiter.history {
      var windows := limiter.history[address];
      SlidingBound(windows, limiter.windowMs, limiter.Cap(), from);
      TotalIsCount(windows, from, from + limiter.windowMs);
    } else {
      CountNothing(from, from + limiter.windowMs);
    }
  }

  lemma CountNothing(from: int, to: int)
    ensures CountIn([], from, to) == 0
  {
  }
}
