/** The single-flight cache of assertion signing keys (internal/pairing/jwks.go). */
module Jwks {
  import opened Wrappers

  type KeySet = map<string, nat>

  datatype Fetch = Fetched(keys: KeySet) | Failed

  const CACHE_TTL := 600
  const MIN_REFRESH := 30

  // ----- the cached fields, and what each critical section does to them -----

  /** lastAttempt is None until the first attempt: the zero time is long ago. */
  datatype Cache = Cache(keys: Option<KeySet>, fetchedAt: int, lastAttempt: Option<int>)

  const EMPTY := Cache(None, 0, None)

  predicate Fresh(c: Cache, now: int) {
    c.keys.Some? && now - c.fetchedAt < CACHE_TTL
  }

  predicate Knows(c: Cache, kid: string) {
    c.keys.Some? && kid in c.keys.value
  }

  predicate RateLimited(c: Cache, now: int) {
    c.lastAttempt.Some? && now - c.lastAttempt.value < MIN_REFRESH
  }

  function Stamped(c: Cache, now: int): Cache {
    c.(lastAttempt := Some(now))
  }

  function Stored(c: Cache, fetch: Fetch, now: int): Cache {
    if fetch.Fetched? then c.(keys := Some(fetch.keys), fetchedAt := now) else c
  }

  /** Who asked for the refresh decides what a failed one becomes. */
  datatype Origin = ForKeys(cached: Option<KeySet>) | ForKid

  /** None is an error. */
  function Reply(origin: Origin, fetch: Fetch): Option<KeySet> {
    match fetch
    case Fetched(keys) => Some(keys)
    case Failed => if origin.ForKeys? then origin.cached else None
  }

  /** What a caller that joined gets: the call's result, or an error if its own context ends. */
  function Shared(shared: Option<Fetch>): Fetch {
    if shared.Some? then shared.value else Failed
  }

  // ----- the source -----

  class FetchCall {
    var result: Option<Fetch>    // Some once the call is done

    constructor ()
      ensures result.None?
    {
      result := None;
    }
  }

  class HttpKeySource {
    var keys: Option<KeySet>
    var fetchedAt: int
    var lastAttempt: Option<int>
    var inflight: FetchCall?

    function State(): Cache
      reads this
    {
      Cache(keys, fetchedAt, lastAttempt)
    }

    constructor ()
      ensures State() == EMPTY && inflight == null
    {
      keys, fetchedAt, lastAttempt, inflight := None, 0, None, null;
    }

    /** First section of refresh: join the call under way, or become the leader of a new one. */
    method Enter(now: int) returns (leader: bool, call: FetchCall)
      modifies this`inflight, this`lastAttempt
      ensures leader <==> old(inflight) == null
      ensures leader ==> fresh(call) && call.result.None? && inflight == call && State() == Stamped(old(State()), now)
      ensures !leader ==> call == old(inflight) && inflight == old(inflight) && State() == old(State())
    {
      if inflight != null {
        return false, inflight;
      }
      call := new FetchCall();
      inflight := call;
      lastAttempt := Some(now);
      leader := true;
    }

    /** Second section, after the fetch. */
    method Store(fetch: Fetch, now: int)
      modifies this`keys, this`fetchedAt, this`inflight
      ensures State() == Stored(old(State()), fetch, now) && inflight == null
    {
      if fetch.Fetched? {
        keys := Some(fetch.keys);
        fetchedAt := now;
      }
      inflight := null;
    }

    /** shared is what a joined call publishes, None if the caller's own context ends first. */
    method Refresh(now: int, fetch: Fetch, stored: int, shared: Option<Fetch>) returns (r: Fetch)
      modifies this
      ensures old(inflight) == null ==> r == fetch && State() == Stored(Stamped(old(State()), now), fetch, stored) && inflight == null
      ensures old(inflight) != null ==> State() == old(State()) && inflight == old(inflight) && r == Shared(shared)
    {
      var leader, call := Enter(now);
      if !leader {
        return if shared.Some? then shared.value else Failed;
      }
      Store(fetch, stored);
      call.result := Some(fetch);
      r := fetch;
    }

    method Keys(now: int, fetch: Fetch, stored: int, shared: Option<Fetch>) returns (r: Option<KeySet>)
      modifies this
      ensures Fresh(old(State()), now) ==> r == old(keys) && State() == old(State())
      ensures !Fresh(old(State()), now) && old(inflight) == null ==>
        r == Reply(ForKeys(old(keys)), fetch) && State() == Stored(Stamped(old(State()), now), fetch, stored)
      ensures !Fresh(old(State()), now) && old(inflight) != null ==>
        r == Reply(ForKeys(old(keys)), Shared(shared)) && State() == old(State()) && inflight == old(inflight)
      ensures r.None? ==> old(keys).None?
    {
      var cached := keys;
      if keys.Some? && now - fetchedAt < CACHE_TTL {
        return cached;
      }
      var got := Refresh(now, fetch, stored, shared);
      if got.Failed? {
        return cached;
      }
      r := Some(got.keys);
    }

    method KeysForKid(kid: string, now: int, fetch: Fetch, stored: int, shared: Option<Fetch>) returns (r: Option<KeySet>)
      modifies this
      ensures Knows(old(State()), kid) || RateLimited(old(State()), now) ==> r == old(keys) && State() == old(State())
      ensures !Knows(old(State()), kid) && !RateLimited(old(State()), now) && old(inflight) == null ==>
        r == Reply(ForKid, fetch) && State() == Stored(Stamped(old(State()), now), fetch, stored)
      ensures !Knows(old(State()), kid) && !RateLimited(old(State()), now) && old(inflight) != null ==>
        r == Reply(ForKid, Shared(shared)) && State() == old(State()) && inflight == old(inflight)
    {
      if keys.Some? && kid in keys.value {
        return keys;
      }
      if lastAttempt.Some? && now - lastAttempt.value < MIN_REFRESH {
        return keys;
      }
      var got := Refresh(now, fetch, stored, shared);
      r := if got.Fetched? then Some(got.keys) else None;
    }
  }

  // ----- many callers -----

  datatype Source = OwnCall(call: nat) | Joined(call: nat) | GaveUp | NoRefresh

  datatype Caller =
    | Outside
    | Entering(origin: Origin, known: nat, checked: Option<int>, checkedAt: int)   // known: successes before the call
    | Fetching(origin: Origin, known: nat, call: nat)
    | Storing(origin: Origin, known: nat, call: nat, fetch: Fetch)
    | Publishing(origin: Origin, known: nat, call: nat, fetch: Fetch)
    | Waiting(origin: Origin, known: nat, call: nat)
    | Answered(origin: Origin, known: nat, reply: Option<KeySet>, source: Source)

  datatype State = State(
    cache: Cache, now: int, inflight: Option<nat>,
    calls: seq<Option<Fetch>>,                   // None until published
    outcomes: map<nat, Fetch>,                   // what the leader of a call fetched
    callers: seq<Caller>,
    successes: seq<KeySet>, storedAt: seq<int>,  // stored, in order, and when
    stamps: seq<int>)                            // times of attempts

  datatype Event =
    | Passes(seconds: nat)
    | AsksKeys(t: nat)
    | AsksKid(t: nat, kid: string)
    | Enters(t: nat)
    | Fetches(t: nat, fetch: Fetch)
    | Stores(t: nat)
    | Publishes(t: nat)
    | Wakes(t: nat)
    | Cancels(t: nat)
    | Leaves(t: nat)

  function Start(callers: nat, now: int): State {
    State(EMPTY, now, None, [], map[], seq(callers, _ => Outside), [], [], [])
  }

  function Put(s: State, t: nat, caller: Caller): State
    requires t < |s.callers|
  {
    s.(callers := s.callers[t := caller])
  }

  function Enter(s: State, t: nat): State
    requires t < |s.callers| && s.callers[t].Entering?
  {
    var Entering(origin, known, _, _) := s.callers[t];
    if s.inflight.Some? then Put(s, t, Waiting(origin, known, s.inflight.value))
    else
      var call := |s.calls|;
      Put(s, t, Fetching(origin, known, call)).(
          cache := Stamped(s.cache, s.now), inflight := Some(call), calls := s.calls + [None], stamps := s.stamps + [s.now])
  }

  function Step(s: State, e: Event): State {
    if e.Passes? then s.(now := s.now + e.seconds)
    else if e.t >= |s.callers| then s
    else
      var t, caller := e.t, s.callers[e.t];
      match e
      case AsksKeys(_) =>
        if !caller.Outside? then s
        else if Fresh(s.cache, s.now) then
          Put(s, t, Answered(ForKeys(s.cache.keys), |s.successes|, s.cache.keys, NoRefresh))
        else Put(s, t, Entering(ForKeys(s.cache.keys), |s.successes|, s.cache.lastAttempt, s.now))
      case AsksKid(_, kid) =>
        if !caller.Outside? then s
        else if Knows(s.cache, kid) || RateLimited(s.cache, s.now) then
          Put(s, t, Answered(ForKid, |s.successes|, s.cache.keys, NoRefresh))
        else Put(s, t, Entering(ForKid, |s.successes|, s.cache.lastAttempt, s.now))
      case Enters(_) => if caller.Entering? then Enter(s, t) else s
      case Fetches(_, fetch) =>
        if !caller.Fetching? then s
        else Put(s, t, Storing(caller.origin, caller.known, caller.call, fetch)).(outcomes := s.outcomes[caller.call := fetch])
      case Stores(_) =>
        if !caller.Storing? then s
        else
          Put(s, t, Publishing(caller.origin, caller.known, caller.call, caller.fetch)).(
              cache := Stored(s.cache, caller.fetch, s.now), inflight := None,
              successes := if caller.fetch.Fetched? then s.successes + [caller.fetch.keys] else s.successes,
              storedAt := if caller.fetch.Fetched? then s.storedAt + [s.now] else s.storedAt)
      case Publishes(_) =>
        if !caller.Publishing? || caller.call >= |s.calls| then s
        else
          Put(s, t, Answered(caller.origin, caller.known, Reply(caller.origin, caller.fetch), OwnCall(caller.call))).(
              calls := s.calls[caller.call := Some(caller.fetch)])
      case Wakes(_) =>
        if !caller.Waiting? || caller.call >= |s.calls| || s.calls[caller.call].None? then s
        else
          Put(s, t, Answered(caller.origin, caller.known, Reply(caller.origin, s.calls[caller.call].value), Joined(caller.call)))
      case Cancels(_) =>
        if !caller.Waiting? then s
        else Put(s, t, Answered(caller.origin, caller.known, Reply(caller.origin, Failed), GaveUp))
      case Leaves(_) => if caller.Answered? then Put(s, t, Outside) else s
  }

  function Play(s: State, events: seq<Event>): State {
    if events == [] then s else Step(Play(s, events[..|events| - 1]), events[|events| - 1])
  }

  // ----- the invariant -----

  predicate Leads(c: Caller, call: nat) {
    (c.Fetching? || c.Storing?) && c.call == call
  }

  predicate Busy(c: Caller) {
    c.Fetching? || c.Storing?
  }

  ghost predicate OneFetch(s: State) {
    && (forall t :: 0 <= t < |s.callers| && Busy(s.callers[t]) ==> s.inflight == Some(s.callers[t].call))
    && (forall t, u :: 0 <= t < |s.callers| && 0 <= u < |s.callers| && Busy(s.callers[t]) && Busy(s.callers[u]) ==> t == u)
    && (s.inflight.Some? ==> s.inflight.value < |s.calls| && exists t :: 0 <= t < |s.callers| && Leads(s.callers[t], s.inflight.value))
  }

  ghost predicate CacheIsLastSuccess(s: State) {
    && |s.storedAt| == |s.successes|
    && s.cache.keys == (if s.successes == [] then None else Some(s.successes[|s.successes| - 1]))
    && (s.successes != [] ==> s.cache.fetchedAt == s.storedAt[|s.storedAt| - 1])
  }

  ghost predicate StampsOk(s: State) {
    && (s.cache.lastAttempt == if s.stamps == [] then None else Some(s.stamps[|s.stamps| - 1]))
    && (forall i :: 0 <= i < |s.stamps| ==> s.stamps[i] <= s.now)
  }

  ghost predicate CallsOk(s: State) {
    && (forall c :: c in s.outcomes ==> c < |s.calls|)
    && (forall c :: 0 <= c < |s.calls| && s.calls[c].Some? ==> c in s.outcomes && s.outcomes[c] == s.calls[c].value)
  }

  /** The last of the first n successes. */
  function SuccessNumber(s: State, n: nat): Option<KeySet>
    requires n <= |s.successes|
  {
    if n == 0 then None else Some(s.successes[n - 1])
  }

  ghost predicate CallerOk(s: State, c: Caller) {
    && (!c.Outside? ==> c.known <= |s.successes| && (c.origin.ForKeys? ==> c.origin.cached == SuccessNumber(s, c.known)))
    && (c.Entering? && c.origin.ForKid? ==> c.checkedAt <= s.now && (c.checked.Some? ==> c.checkedAt - c.checked.value >= MIN_REFRESH))
    && (c.Fetching? ==> c.call < |s.calls| && c.call !in s.outcomes)
    && (c.Storing? || c.Publishing? ==> c.call in s.outcomes && s.outcomes[c.call] == c.fetch)
    && (c.Waiting? ==> c.call < |s.calls|)
    && (c.Answered? ==> AnswerOk(s, c))
  }

  ghost predicate AnswerOk(s: State, c: Caller)
    requires c.Answered?
  {
    match c.source
    case OwnCall(call) => call in s.outcomes && c.reply == Reply(c.origin, s.outcomes[call])
    case Joined(call) => call in s.outcomes && c.reply == Reply(c.origin, s.outcomes[call])
    case GaveUp => c.reply == Reply(c.origin, Failed)
    case NoRefresh => c.origin.ForKeys? ==> c.reply.Some?
  }

  ghost predicate Inv(s: State) {
    && OneFetch(s) && CacheIsLastSuccess(s) && StampsOk(s) && CallsOk(s)
    && (forall t :: 0 <= t < |s.callers| ==> CallerOk(s, s.callers[t]))
  }

  /** A caller's clauses survive when calls, outcomes, successes and time only grow. */
  ghost predicate Grows(s: State, s': State) {
    && |s.callers| == |s'.callers| && s.now <= s'.now && |s.calls| <= |s'.calls| && |s.successes| <= |s'.successes|
    && s.successes <= s'.successes
    && (forall c :: c in s.outcomes ==> c in s'.outcomes && s'.outcomes[c] == s.outcomes[c])
  }

  lemma CallerGrows(s: State, s': State, c: Caller)
    requires CallerOk(s, c) && Grows(s, s')
    requires c.Fetching? ==> c.call !in s'.outcomes
    ensures CallerOk(s', c)
  {
  }

  lemma CallersGrow(s: State, s': State, t: nat)
    requires Inv(s) && Grows(s, s') && t < |s.callers| && CallerOk(s', s'.callers[t])
    requires forall u :: 0 <= u < |s.callers| && u != t ==> s'.callers[u] == s.callers[u]
    requires forall u :: 0 <= u < |s.callers| && u != t && s.callers[u].Fetching? ==> s.callers[u].call !in s'.outcomes
    ensures forall u :: 0 <= u < |s'.callers| ==> CallerOk(s', s'.callers[u])
  {
    forall u | 0 <= u < |s'.callers|
      ensures CallerOk(s', s'.callers[u])
    {
      if u != t {
        CallerGrows(s, s', s.callers[u]);
      }
    }
  }

  lemma AskKeeps(s: State, e: Event)
    requires Inv(s) && (e.AsksKeys? || e.AsksKid? || e.Wakes? || e.Cancels? || e.Leaves?)
    ensures Inv(Step(s, e))
  {
    if e.t < |s.callers| {
      QuietKeeps(s, Step(s, e), e.t);
    }
  }

  /** A step of a caller that is not fetching, into a state that is not fetching. */
  lemma QuietKeeps(s: State, s': State, t: nat)
    requires Inv(s) && t < |s.callers| && |s'.callers| == |s.callers|
    requires s' == s.(callers := s.callers[t := s'.callers[t]])
    requires s' == s || (!Busy(s.callers[t]) && !Busy(s'.callers[t]) && CallerOk(s', s'.callers[t]))
    ensures Inv(s')
  {
    if s' != s {
      CallersGrow(s, s', t);
      if s.inflight.Some? {
        var u :| 0 <= u < |s.callers| && Leads(s.callers[u], s.inflight.value);
        assert Leads(s'.callers[u], s'.inflight.value);
      }
    }
  }

  lemma EnterKeeps(s: State, t: nat)
    requires Inv(s) && t < |s.callers| && s.callers[t].Entering?
    ensures Inv(Enter(s, t))
  {
    var s' := Enter(s, t);
    if s.inflight.Some? {
      QuietKeeps(s, s', t);
    } else {
      CallersGrow(s, s', t);
      assert Leads(s'.callers[t], s'.inflight.value);
    }
  }

  lemma FetchKeeps(s: State, t: nat, fetch: Fetch)
    requires Inv(s)
    ensures Inv(Step(s, Fetches(t, fetch)))
  {
    var s' := Step(s, Fetches(t, fetch));
    if t < |s.callers| && s.callers[t].Fetching? {
      assert CallerOk(s, s.callers[t]);
      CallersGrow(s, s', t);
      assert Leads(s'.callers[t], s'.inflight.value);
    }
  }

  lemma StoreKeeps(s: State, t: nat)
    requires Inv(s)
    ensures Inv(Step(s, Stores(t)))
  {
    var s' := Step(s, Stores(t));
    if t < |s.callers| && s.callers[t].Storing? {
      assert CallerOk(s, s.callers[t]);
      CallersGrow(s, s', t);
    }
  }

  lemma PublishKeeps(s: State, t: nat)
    requires Inv(s)
    ensures Inv(Step(s, Publishes(t)))
  {
    var s' := Step(s, Publishes(t));
    if t < |s.callers| && s.callers[t].Publishing? && s.callers[t].call < |s.calls| {
      assert CallerOk(s, s.callers[t]);
      CallersGrow(s, s', t);
      if s.inflight.Some? {
        var u :| 0 <= u < |s.callers| && Leads(s.callers[u], s.inflight.value);
        assert Leads(s'.callers[u], s'.inflight.value);
      }
    }
  }

  lemma PassKeeps(s: State, seconds: nat)
    requires Inv(s)
    ensures Inv(Step(s, Passes(seconds)))
  {
    var s' := Step(s, Passes(seconds));
    forall u | 0 <= u < |s'.callers|
      ensures CallerOk(s', s'.callers[u])
    {
      CallerGrows(s, s', s.callers[u]);
    }
  }

  lemma StepKeeps(s: State, e: Event)
    requires Inv(s)
    ensures Inv(Step(s, e))
  {
    match e
    case Passes(seconds) => PassKeeps(s, seconds);
    case Enters(t) =>
      if t < |s.callers| && s.callers[t].Entering? {
        EnterKeeps(s, t);
      }
    case Fetches(t, fetch) => FetchKeeps(s, t, fetch);
    case Stores(t) => StoreKeeps(s, t);
    case Publishes(t) => PublishKeeps(s, t);
    case _ => AskKeeps(s, e);
  }

  lemma {:induction false} PlayKeeps(callers: nat, now: int, events: seq<Event>)
    ensures Inv(Play(Start(callers, now), events))
  {
    if events != [] {
      PlayKeeps(callers, now, events[..|events| - 1]);
      StepKeeps(Play(Start(callers, now), events[..|events| - 1]), events[|events| - 1]);
    }
  }

  // ----- what a run promises -----

  /** In every interleaving at most one fetch is executing, and the cache is always the last
      fetch that succeeded. */
  lemma {:induction false} SingleFlight(callers: nat, now: int, events: seq<Event>, t: nat, u: nat)
    ensures
      var s := Play(Start(callers, now), events);
      && CacheIsLastSuccess(s)
      && (t < |s.callers| && u < |s.callers| && s.callers[t].Fetching? && s.callers[u].Fetching? ==> t == u)
  {
    PlayKeeps(callers, now, events);
  }

  /** Every answer after a refresh is the leader's fetch, as the asker reads it, or follows from
      the asker's own cancellation. */
  lemma {:induction false} AnswersComeFromTheLeader(callers: nat, now: int, events: seq<Event>, t: nat)
    ensures
      var s := Play(Start(callers, now), events);
      t < |s.callers| && s.callers[t].Answered? ==> AnswerOk(s, s.callers[t])
  {
    PlayKeeps(callers, now, events);
    var s := Play(Start(callers, now), events);
    assert t < |s.callers| ==> CallerOk(s, s.callers[t]);
  }

  /** What that is: the keys of a call that fetched some; and of a call that failed, or was given up,
      for Keys the keys there were when it was called, for a key id an error. */
  lemma {:induction false} AnswersAre(callers: nat, now: int, events: seq<Event>, t: nat)
    ensures
      var s := Play(Start(callers, now), events);
      t < |s.callers| && s.callers[t].Answered? && !s.callers[t].source.NoRefresh? ==>
        var c := s.callers[t];
        && (c.source.OwnCall? || c.source.Joined? ==> c.source.call in s.outcomes)
        && if !c.source.GaveUp? && s.outcomes[c.source.call].Fetched? then c.reply == Some(s.outcomes[c.source.call].keys)
           else if c.origin.ForKeys? then c.known <= |s.successes| && c.reply == SuccessNumber(s, c.known)
           else c.reply == None
  {
    PlayKeeps(callers, now, events);
    var s := Play(Start(callers, now), events);
    assert t < |s.callers| ==> CallerOk(s, s.callers[t]);
  }

  /** Keys fails only if no fetch had ever succeeded when it was called. */
  lemma {:induction false} KeysNeverFailsAfterASuccess(callers: nat, now: int, events: seq<Event>, t: nat)
    ensures
      var s := Play(Start(callers, now), events);
      t < |s.callers| && s.callers[t].Answered? && s.callers[t].origin.ForKeys? && s.callers[t].reply.None? ==>
        s.callers[t].known == 0
  {
    PlayKeeps(callers, now, events);
    var s := Play(Start(callers, now), events);
    assert t < |s.callers| ==> CallerOk(s, s.callers[t]);
  }

  /** The last fetch that succeeded, and how long ago it was stored. */
  predicate StoredWithin(s: State, seconds: int) {
    s.successes != [] && |s.storedAt| == |s.successes| && s.now - s.storedAt[|s.storedAt| - 1] < seconds
  }

  function LastSuccess(s: State): Option<KeySet> {
    if s.successes == [] then None else Some(s.successes[|s.successes| - 1])
  }

  /** In every reachable state a call of Keys is answered at once, with the last successful fetch, if
      and only if that was stored less than ten minutes ago; otherwise it goes for a refresh. */
  lemma {:induction false} CachedAnswerIsYoung(callers: nat, now: int, events: seq<Event>, t: nat)
    ensures
      var s := Play(Start(callers, now), events);
      t < |s.callers| && s.callers[t].Outside? ==>
        var s' := Step(s, AsksKeys(t));
        && (HasAnswer(s', t, LastSuccess(s)) <==> StoredWithin(s, 600))
        && (!StoredWithin(s, 600) ==> s'.callers[t].Entering?)
  {
    PlayKeeps(callers, now, events);
  }

  /** The last attempt to fetch was made less than this ago. */
  predicate AttemptedWithin(s: State, seconds: int) {
    s.stamps != [] && s.now - s.stamps[|s.stamps| - 1] < seconds
  }

  /** A call for a key id is answered at once, with whatever was fetched last, if and only if that has
      the key or the last attempt was made less than thirty seconds ago. */
  lemma {:induction false} KidAnswerIsKnownOrRateLimited(callers: nat, now: int, events: seq<Event>, t: nat, kid: string)
    ensures
      var s := Play(Start(callers, now), events);
      t < |s.callers| && s.callers[t].Outside? ==>
        var s', known := Step(s, AsksKid(t, kid)), LastSuccess(s).Some? && kid in LastSuccess(s).value;
        && (HasAnswer(s', t, LastSuccess(s)) <==> known || AttemptedWithin(s, 30))
        && (!known && !AttemptedWithin(s, 30) ==> s'.callers[t].Entering?)
  {
    PlayKeeps(callers, now, events);
  }

  /** A waiter is never stranded: its call is published, or some caller is on its way to it. */
  ghost predicate WaitersServed(s: State) {
    forall t :: 0 <= t < |s.callers| && s.callers[t].Waiting? ==> Served(s, s.callers[t].call)
  }

  ghost predicate Served(s: State, call: nat) {
    call < |s.calls| && (s.calls[call].Some? || exists u :: 0 <= u < |s.callers| && Carries(s.callers[u], call))
  }

  predicate Carries(c: Caller, call: nat) {
    (c.Fetching? || c.Storing? || c.Publishing?) && c.call == call
  }

  lemma CarrierStays(s: State, e: Event, u: nat, call: nat)
    requires u < |s.callers| && Carries(s.callers[u], call) && !(e.Publishes? && e.t == u)
    ensures u < |Step(s, e).callers| && Carries(Step(s, e).callers[u], call)
  {
  }

  lemma ServedStays(s: State, e: Event, call: nat)
    requires Inv(s) && Served(s, call)
    ensures Served(Step(s, e), call)
  {
    if s.calls[call].None? {
      var u :| 0 <= u < |s.callers| && Carries(s.callers[u], call);
      if e.Publishes? && e.t == u {
        assert CallerOk(s, s.callers[u]);
      } else {
        CarrierStays(s, e, u, call);
      }
    }
  }

  /** Whoever starts to wait joins the call of a leader that is still under way. */
  lemma JoinedIsServed(s: State)
    requires OneFetch(s) && s.inflight.Some?
    ensures Served(s, s.inflight.value)
  {
    var u :| 0 <= u < |s.callers| && Leads(s.callers[u], s.inflight.value);
    assert Carries(s.callers[u], s.inflight.value);
  }

  lemma WaitsForACall(s: State, e: Event, t: nat)
    requires t < |Step(s, e).callers| && Step(s, e).callers[t].Waiting?
    ensures t < |s.callers|
    ensures Step(s, e).callers[t] == s.callers[t] || s.inflight == Some(Step(s, e).callers[t].call)
  {
  }

  lemma WaitersServedStep(s: State, e: Event)
    requires Inv(s) && WaitersServed(s)
    ensures WaitersServed(Step(s, e))
  {
    var s' := Step(s, e);
    forall t | 0 <= t < |s'.callers| && s'.callers[t].Waiting?
      ensures Served(s', s'.callers[t].call)
    {
      WaitsForACall(s, e, t);
      if s'.callers[t] != s.callers[t] {
        JoinedIsServed(s);
      }
      ServedStays(s, e, s'.callers[t].call);
    }
  }

  lemma {:induction false} NoWaiterStranded(callers: nat, now: int, events: seq<Event>)
    ensures WaitersServed(Play(Start(callers, now), events))
  {
    if events != [] {
      NoWaiterStranded(callers, now, events[..|events| - 1]);
      PlayKeeps(callers, now, events[..|events| - 1]);
      WaitersServedStep(Play(Start(callers, now), events[..|events| - 1]), events[|events| - 1]);
    }
  }

  // ----- one call is the method -----

  lemma {:induction false} PlayThen(s: State, events: seq<Event>, e: Event)
    ensures Play(s, events + [e]) == Step(Play(s, events), e)
  {
    assert (events + [e])[..|events|] == events;
  }

  /** What a caller that may start a fetch does from its check on; time passes while it fetches. */
  function Leading(s: State, t: nat, fetch: Fetch, seconds: nat): State {
    Play(s, [] + [Enters(t)] + [Fetches(t, fetch)] + [Passes(seconds)] + [Stores(t)] + [Publishes(t)])
  }

  lemma LeadingSteps(s: State, t: nat, fetch: Fetch, seconds: nat)
    ensures Leading(s, t, fetch, seconds) ==
      Step(Step(Step(Step(Step(s, Enters(t)), Fetches(t, fetch)), Passes(seconds)), Stores(t)), Publishes(t))
  {
    PlayThen(s, [], Enters(t));
    PlayThen(s, [] + [Enters(t)], Fetches(t, fetch));
    PlayThen(s, [] + [Enters(t)] + [Fetches(t, fetch)], Passes(seconds));
    PlayThen(s, [] + [Enters(t)] + [Fetches(t, fetch)] + [Passes(seconds)], Stores(t));
    PlayThen(s, [] + [Enters(t)] + [Fetches(t, fetch)] + [Passes(seconds)] + [Stores(t)], Publishes(t));
  }

  /** With no call under way it leads one, and answers and stores what it fetched. */
  lemma LeaderAnswers(s: State, t: nat, fetch: Fetch, seconds: nat)
    requires t < |s.callers| && s.callers[t].Entering? && s.inflight.None?
    ensures
      var u := Leading(s, t, fetch, seconds);
      && t < |u.callers| && u.callers[t].Answered?
      && u.callers[t].reply == Reply(s.callers[t].origin, fetch)
      && u.cache == Stored(Stamped(s.cache, s.now), fetch, s.now + seconds) && u.inflight.None?
  {
    LeadingSteps(s, t, fetch, seconds);
  }

  /** An answer from the cache is there already; the steps of a fetch then change nothing. */
  lemma AnsweredStays(s: State, t: nat, fetch: Fetch, seconds: nat)
    requires t < |s.callers| && s.callers[t].Answered?
    ensures Leading(s, t, fetch, seconds) == s.(now := s.now + seconds)
  {
    LeadingSteps(s, t, fetch, seconds);
  }

  /** `Keys`, with no call under way: the steps of one caller leave the answer and the cache that
      the method leaves. */
  lemma UninterruptedKeys(s: State, t: nat, fetch: Fetch, seconds: nat)
    requires t < |s.callers| && s.callers[t].Outside?
    ensures
      var u := Leading(Step(s, AsksKeys(t)), t, fetch, seconds);
      && (Fresh(s.cache, s.now) ==> HasAnswer(u, t, s.cache.keys) && u.cache == s.cache)
      && (!Fresh(s.cache, s.now) && s.inflight.None? ==>
            && HasAnswer(u, t, Reply(ForKeys(s.cache.keys), fetch))
            && u.cache == Stored(Stamped(s.cache, s.now), fetch, s.now + seconds) && u.inflight.None?)
  {
    if Fresh(s.cache, s.now) {
      AnsweredStays(Step(s, AsksKeys(t)), t, fetch, seconds);
    } else if s.inflight.None? {
      LeaderAnswers(Step(s, AsksKeys(t)), t, fetch, seconds);
    }
  }

  predicate HasAnswer(s: State, t: nat, reply: Option<KeySet>) {
    t < |s.callers| && s.callers[t].Answered? && s.callers[t].reply == reply
  }

  /** `KeysForKid`, likewise. */
  lemma UninterruptedKid(s: State, t: nat, kid: string, fetch: Fetch, seconds: nat)
    requires t < |s.callers| && s.callers[t].Outside?
    ensures
      var u := Leading(Step(s, AsksKid(t, kid)), t, fetch, seconds);
      && (Knows(s.cache, kid) || RateLimited(s.cache, s.now) ==> HasAnswer(u, t, s.cache.keys) && u.cache == s.cache)
      && (!Knows(s.cache, kid) && !RateLimited(s.cache, s.now) && s.inflight.None? ==>
            && HasAnswer(u, t, Reply(ForKid, fetch))
            && u.cache == Stored(Stamped(s.cache, s.now), fetch, s.now + seconds) && u.inflight.None?)
  {
    if Knows(s.cache, kid) || RateLimited(s.cache, s.now) {
      AnsweredStays(Step(s, AsksKid(t, kid)), t, fetch, seconds);
    } else if s.inflight.None? {
      LeaderAnswers(Step(s, AsksKid(t, kid)), t, fetch, seconds);
    }
  }

  /** The events of everyone but one caller. */
  predicate NotBy(events: seq<Event>, t: nat) {
    forall e :: e in events ==> e.Passes? || e.t != t
  }

  lemma OtherLeavesIt(s: State, e: Event, t: nat)
    requires t < |s.callers| && (e.Passes? || e.t != t)
    ensures |Step(s, e).callers| == |s.callers| && Step(s, e).callers[t] == s.callers[t]
  {
  }

  lemma {:induction false} OthersLeaveIt(s: State, others: seq<Event>, t: nat)
    requires NotBy(others, t) && t < |s.callers|
    ensures |Play(s, others).callers| == |s.callers| && Play(s, others).callers[t] == s.callers[t]
  {
    if others != [] {
      var n := |others| - 1;
      assert forall e :: e in others[..n] ==> e in others;
      OthersLeaveIt(s, others[..n], t);
      OtherLeavesIt(Play(s, others[..n]), others[n], t);
    }
  }

  /** The call under way is joined, the others go on, and the caller is woken or gives up: the
      method's answer for a joined call, and none of the caller's steps touches the cache. */
  lemma {:induction false} JoinedAnswer(s: State, ask: Event, others: seq<Event>)
    requires (ask.AsksKeys? || ask.AsksKid?) && ask.t < |s.callers| && s.callers[ask.t].Outside? && NotBy(others, ask.t)
    requires if ask.AsksKeys? then !Fresh(s.cache, s.now) else !Knows(s.cache, ask.kid) && !RateLimited(s.cache, s.now)
    requires s.inflight.Some?
    ensures
      var t, origin := ask.t, if ask.AsksKeys? then ForKeys(s.cache.keys) else ForKid;
      var joined := Step(Step(s, ask), Enters(t));
      var u := Play(joined, others);
      && joined.cache == s.cache && joined.inflight == s.inflight
      && (s.inflight.value < |u.calls| && u.calls[s.inflight.value].Some? ==>
            HasAnswer(Step(u, Wakes(t)), t, Reply(origin, Shared(u.calls[s.inflight.value]))) && Step(u, Wakes(t)).cache == u.cache)
      && HasAnswer(Step(u, Cancels(t)), t, Reply(origin, Shared(None))) && Step(u, Cancels(t)).cache == u.cache
  {
    OthersLeaveIt(Step(Step(s, ask), Enters(ask.t)), others, ask.t);
  }

  // ----- the rate limit -----

  /** The last attempt is either the one a waiting kid caller checked, or younger than its check. */
  ghost predicate ChecksAged(s: State) {
    forall t :: 0 <= t < |s.callers| && s.callers[t].Entering? && s.callers[t].origin.ForKid? ==>
      CheckAged(s.cache.lastAttempt, s.callers[t])
  }

  predicate CheckAged(last: Option<int>, c: Caller)
    requires c.Entering?
  {
    last == c.checked || (last.Some? && c.checkedAt <= last.value)
  }

  lemma {:induction false} ChecksAge(callers: nat, now: int, events: seq<Event>)
    ensures ChecksAged(Play(Start(callers, now), events))
  {
    if events != [] {
      ChecksAge(callers, now, events[..|events| - 1]);
      PlayKeeps(callers, now, events[..|events| - 1]);
      ChecksAgeStep(Play(Start(callers, now), events[..|events| - 1]), events[|events| - 1]);
    }
  }

  lemma ChecksAgeStep(s: State, e: Event)
    requires Inv(s) && ChecksAged(s)
    ensures ChecksAged(Step(s, e))
  {
    var s' := Step(s, e);
    forall t | 0 <= t < |s'.callers| && s'.callers[t].Entering? && s'.callers[t].origin.ForKid?
      ensures CheckAged(s'.cache.lastAttempt, s'.callers[t])
    {
      if s.callers[t] == s'.callers[t] {
        assert CallerOk(s, s.callers[t]);
      }
    }
  }

  predicate AttemptNowIsSpaced(s: State) {
    s.stamps == [] || s.now - s.stamps[|s.stamps| - 1] >= MIN_REFRESH
  }

  /** An attempt for an unknown kid keeps the minimum distance from the one before it if no other
      attempt was made since its check; and when it starts soon after its check, only then. */
  lemma {:induction false} KidRefreshSpacedIffNotOvertaken(callers: nat, now: int, events: seq<Event>, t: nat)
    requires
      var s := Play(Start(callers, now), events);
      t < |s.callers| && s.callers[t].Entering? && s.callers[t].origin.ForKid? && s.inflight.None?
    ensures
      var s := Play(Start(callers, now), events);
      && (s.cache.lastAttempt == s.callers[t].checked ==> AttemptNowIsSpaced(s))
      && (s.now - s.callers[t].checkedAt < MIN_REFRESH ==>
            (AttemptNowIsSpaced(s) <==> s.cache.lastAttempt == s.callers[t].checked))
  {
    PlayKeeps(callers, now, events);
    ChecksAge(callers, now, events);
    var s := Play(Start(callers, now), events);
    assert CallerOk(s, s.callers[t]) && CheckAged(s.cache.lastAttempt, s.callers[t]);
  }

  /** Two callers that both pass the check before either starts: two fetches in the same second. */
  lemma OverlappingCallersBreakTheLimit(kid: string, now: int)
    ensures
      var s := Play(Start(2, now),
        [] + [AsksKid(0, kid)] + [AsksKid(1, kid)] + [Enters(0)] + [Fetches(0, Failed)] + [Stores(0)] + [Enters(1)]);
      s.stamps == [now, now]
  {
    var s := Start(2, now);
    var e1 := [] + [AsksKid(0, kid)];
    var e2 := e1 + [AsksKid(1, kid)];
    var e3 := e2 + [Enters(0)];
    var e4 := e3 + [Fetches(0, Failed)];
    var e5 := e4 + [Stores(0)];
    PlayThen(s, [], AsksKid(0, kid));
    PlayThen(s, e1, AsksKid(1, kid));
    PlayThen(s, e2, Enters(0));
    PlayThen(s, e3, Fetches(0, Failed));
    PlayThen(s, e4, Stores(0));
    PlayThen(s, e5, Enters(1));
    assert Play(s, e3).stamps == [now];
    assert Play(s, e5).callers[1].Entering? && Play(s, e5).inflight.None? && Play(s, e5).now == now;
  }
}
