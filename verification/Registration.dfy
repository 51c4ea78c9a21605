/** The client's compatibility retries and the register / heartbeat / delete manager
    (internal/controlplane/client.go and heartbeat.go).  A server answer is an outcome. */
module Registration {
  import opened Wrappers
  import opened Keys

  datatype Answer = Ok(deviceId: string, accountId: string, intervalSeconds: int) | NoToken | Status(code: int) | Unreachable

  datatype Request = Request(url: string, deviceId: string, hasStatus: bool, inferenceKey: Option<string>)

  predicate Unauthorized(a: Answer) {
    a.NoToken? || a == Status(401)
  }

  // ----- the client -----

  function Stripped(r: Request): Request {
    r.(hasStatus := false, inferenceKey := None)
  }

  predicate Retried(r: Request, first: Answer) {
    first == Status(422) && (r.hasStatus || r.inferenceKey.Some?)
  }

  /** The requests that go out, and the answer that counts. */
  function Exchange(r: Request, first: Answer, second: Answer): (seq<Request>, Answer) {
    if Retried(r, first) then ([r, Stripped(r)], second) else ([r], first)
  }

  method ClientRegister(req: Request, first: Answer, second: Answer) returns (sent: seq<Request>, answer: Answer)
    ensures sent == Exchange(req, first, second).0 && answer == Exchange(req, first, second).1
  {
    sent, answer := [req], first;
    if !answer.Ok? && answer == Status(422) && (req.hasStatus || req.inferenceKey.Some?) {
      var fallback := req;
      fallback := fallback.(hasStatus := false);
      fallback := fallback.(inferenceKey := None);
      assert fallback == Stripped(req);
      sent, answer := sent + [fallback], second;
    }
  }

  /** Whether each heartbeat sent carries the capability status, and the answer that counts. */
  function Beats(hasStatus: bool, first: Answer, second: Answer): (seq<bool>, Answer) {
    if hasStatus && first == Status(422) then ([true, false], second) else ([hasStatus], first)
  }

  /** The bare retry is for 422 alone; any other answer to the full heartbeat stands. */
  method ClientHeartbeat(hasStatus: bool, first: Answer, second: Answer) returns (sent: seq<bool>, answer: Answer)
    ensures (sent, answer) == Beats(hasStatus, first, second)
  {
    sent := [];
    if hasStatus {
      sent := [true];
      if first.Ok? || first != Status(422) {
        return sent, first;
      }
      assert sent + [false] == [true, false];
      return sent + [false], second;
    }
    sent, answer := [false], first;
  }

  /** Whether the control plane acted on a request: the answer says so, or was lost on its way
      back. */
  predicate Landed(answer: Answer, replyLost: bool) {
    answer.Ok? || (answer.Unreachable? && replyLost)
  }

  /** How many of the heartbeats sent the control plane acted on; it answers them in order. */
  function BeatsLanded(sent: seq<bool>, first: Answer, second: Answer, replyLost: bool): nat
    requires |sent| <= 2
  {
    (if |sent| >= 1 && Landed(first, replyLost) then 1 else 0) + (if |sent| == 2 && Landed(second, replyLost) then 1 else 0)
  }

  /** A heartbeat that succeeds landed exactly once; one that fails landed once if it failed for a
      lost reply, and otherwise not at all.  It carries the status there is, and is repeated, bare,
      exactly after a 422. */
  lemma HeartbeatLandsOnce(hasStatus: bool, first: Answer, second: Answer, replyLost: bool)
    ensures
      var (sent, answer) := Beats(hasStatus, first, second);
      && sent == (if hasStatus && first == Status(422) then [true, false] else [hasStatus])
      && answer == (if |sent| == 2 then second else first)
      && BeatsLanded(sent, first, second, replyLost) ==
           (if answer.Ok? then 1 else if answer.Unreachable? && replyLost then 1 else 0)
  {
  }

  /** A registration goes out as it is, and after a 422 once more, without the two newer fields if it
      had one of them, for the same URL and device. */
  lemma RegistrationGoesOut(r: Request, first: Answer, second: Answer)
    ensures
      var (sent, answer) := Exchange(r, first, second);
      if first == Status(422) && (r.hasStatus || r.inferenceKey.Some?)
      then sent == [r, Request(r.url, r.deviceId, false, None)] && answer == second
      else sent == [r] && answer == first
  {
  }

  /** The control plane takes the last request that reached it as it stands; an absent key leaves
      the key it holds. */
  function ServerKey(held: Option<string>, sent: seq<Request>, answer: Answer, replyLost: bool): Option<string> {
    if sent == [] || !Landed(answer, replyLost) then held
    else
      var last := sent[|sent| - 1];
      if last.inferenceKey.Some? then last.inferenceKey else held
  }

  // ----- the manager's fields -----

  const DEFAULT_INTERVAL := 30
  const REGISTER_RETRY := 60
  const IDLE := 3600
  const SUBSCRIPTION_RETRY := 600

  datatype Fields = Fields(
    tunnelUrl: string, deviceId: string, accountId: string,
    registered: bool, registeredUrl: string, authBlocked: bool, subscriptionBlocked: bool, interval: int)

  const NEW_FIELDS := Fields("", "", "", false, "", false, false, DEFAULT_INTERVAL)

  predicate FieldsOk(f: Fields) {
    && (f.registered <==> f.registeredUrl != "")
    && (f.subscriptionBlocked ==> !f.registered)
  }

  function Registered(f: Fields, url: string, deviceId: string, answer: Answer): Fields
    requires answer.Ok?
  {
    f.(deviceId := if answer.deviceId != "" then answer.deviceId else deviceId,
       accountId := if answer.accountId != "" then answer.accountId else f.accountId,
       registered := true, registeredUrl := url, subscriptionBlocked := false,
       interval := if answer.intervalSeconds > 0 then answer.intervalSeconds else DEFAULT_INTERVAL)
  }

  function Unregistered(f: Fields): Fields {
    f.(registered := false, registeredUrl := "")
  }

  function SubscriptionRefused(f: Fields): Fields {
    Unregistered(f).(subscriptionBlocked := true)
  }

  function AfterRegister(f: Fields, url: string, deviceId: string, answer: Answer): Fields {
    if answer.Ok? then Registered(f, url, deviceId, answer)
    else if Unauthorized(answer) then f.(authBlocked := true)
    else if answer == Status(402) then SubscriptionRefused(f)
    else f
  }

  function RegisterWait(answer: Answer): int {
    if answer.Ok? then (if answer.intervalSeconds > 0 then answer.intervalSeconds else DEFAULT_INTERVAL)
    else if Unauthorized(answer) then IDLE
    else if answer == Status(402) then SUBSCRIPTION_RETRY
    else REGISTER_RETRY
  }

  function AfterHeartbeat(f: Fields, answer: Answer): Fields {
    if answer.Ok? then f
    else if Unauthorized(answer) then Unregistered(f.(authBlocked := true))
    else if answer == Status(402) then SubscriptionRefused(f)
    else if answer == Status(404) then Unregistered(f)
    else f
  }

  function HeartbeatWait(interval: int, answer: Answer): int {
    if answer.Ok? then interval
    else if Unauthorized(answer) then IDLE
    else if answer == Status(402) then SUBSCRIPTION_RETRY
    else if answer == Status(404) then 1
    else interval
  }

  /** What a step decides from the fields it read at its start. */
  datatype Decision = GoIdle | Withdraw | Register | Beat

  function Decide(f: Fields, capable: bool): Decision {
    if f.tunnelUrl == "" || !capable then (if f.registered then Withdraw else GoIdle)
    else if f.authBlocked then GoIdle
    else if !f.registered || f.registeredUrl != f.tunnelUrl then Register
    else Beat
  }

  /** How one step meets the outside: two answers for the possible retry, the device id file,
      and what minting and retiring a key runs into. */
  datatype World = World(
    hasStatus: bool, first: Answer, second: Answer, newDeviceId: Option<string>,
    published: bool, secret: Option<string>, keyId: Option<string>, now: int, growth: nat, mintWrites: bool,
    retireWrites: string -> bool)

  function Writes(ids: seq<string>, writes: string -> bool): seq<bool> {
    seq(|ids|, i requires 0 <= i < |ids| => writes(ids[i]))
  }

  /** The keys after a registration that got as far as minting. */
  function KeysAfter(keys: seq<Key>, w: World, answer: Answer): seq<Key>
    requires w.secret.Some? ==> |w.secret.value| >= 4
  {
    if w.published && w.secret.Some? && w.keyId.Some? && w.mintWrites then
      var grown := keys + [NewKey(w.keyId.value, CONTROL_PLANE_NAME, w.secret.value, w.now, CONTROL_PLANE_SCOPE)];
      var superseded := ScopedIds(keys);
      if answer.Ok? then RevokedAll(grown, superseded, Writes(superseded, w.retireWrites)) else grown
    else keys
  }

  function KeyToPublish(w: World): Option<string> {
    if w.published && w.secret.Some? && w.keyId.Some? && w.mintWrites then Some(Plaintext(w.secret.value)) else None
  }

  /** A registration attempt: the fields it leaves, how long to wait, and what it sent. */
  datatype Attempt = Attempt(fields: Fields, wait: int, sent: seq<Request>, keys: seq<Key>)

  function DeviceIdFor(f: Fields, w: World): Option<string> {
    if f.deviceId != "" then Some(f.deviceId) else w.newDeviceId
  }

  function Exchanged(url: string, id: string, w: World): (seq<Request>, Answer) {
    Exchange(Request(url, id, w.hasStatus, KeyToPublish(w)), w.first, w.second)
  }

  /** A device id once made is kept, whatever becomes of the registration. */
  function AttemptedFields(f: Fields, url: string, w: World): Fields {
    var id := DeviceIdFor(f, w);
    if id.None? then f else AfterRegister(f.(deviceId := id.value), url, id.value, Exchanged(url, id.value, w).1)
  }

  function Attempted(f: Fields, url: string, w: World, keys: seq<Key>): Attempt
    requires w.secret.Some? ==> |w.secret.value| >= 4
  {
    var id := DeviceIdFor(f, w);
    if id.None? then Attempt(f, REGISTER_RETRY, [], keys)
    else
      var (sent, answer) := Exchanged(url, id.value, w);
      Attempt(AttemptedFields(f, url, w), RegisterWait(answer), sent, KeysAfter(keys, w, answer))
  }

  /** A whole attempt, case by case.  Without a device id nothing is sent; else the first request
      carries this URL, this id, and the key if one was minted.  A success registers the URL under the
      id that the control plane names, with its account and its interval if it gives them; a missing
      token or a 401 blocks for an hour, a 402 unregisters for ten minutes, and after anything else the
      node stands as it stood and tries again in a minute. */
  lemma AttemptIs(f: Fields, url: string, w: World, keys: seq<Key>)
    requires w.secret.Some? ==> |w.secret.value| >= 4
    ensures
      var a := Attempted(f, url, w, keys);
      if f.deviceId == "" && w.newDeviceId.None? then a == Attempt(f, 60, [], keys)
      else
        var id := if f.deviceId != "" then f.deviceId else w.newDeviceId.value;
        var named := f.(deviceId := id);
        && a.sent != [] && a.sent[0] == Request(url, id, w.hasStatus, KeyToPublish(w))
        && var answer := if |a.sent| == 2 then w.second else w.first;
        && a.keys == KeysAfter(keys, w, answer)
        && match answer
           case Ok(newId, account, seconds) =>
             && a.wait == (if seconds > 0 then seconds else 30)
             && a.fields == Fields(f.tunnelUrl, if newId != "" then newId else id, if account != "" then account else f.accountId,
                                   true, url, f.authBlocked, false, a.wait)
           case NoToken => a.wait == 3600 && a.fields == named.(authBlocked := true)
           case Unreachable => a.wait == 60 && a.fields == named
           case Status(code) =>
             if code == 401 then a.wait == 3600 && a.fields == named.(authBlocked := true)
             else if code == 402 then
               a.wait == 600 && a.fields == named.(registered := false, registeredUrl := "", subscriptionBlocked := true)
             else a.wait == 60 && a.fields == named
  {
    RegistrationGoesOut(
      Request(url, if f.deviceId != "" then f.deviceId else if w.newDeviceId.Some? then w.newDeviceId.value else "",
              w.hasStatus, KeyToPublish(w)), w.first, w.second);
  }

  /** A heartbeat, case by case: what it leaves and how long the loop waits. */
  lemma BeatIs(f: Fields, w: World)
    ensures
      var answer := if w.hasStatus && w.first == Status(422) then w.second else w.first;
      var after, wait := AfterHeartbeat(f, BeatAnswer(w)), HeartbeatWait(f.interval, BeatAnswer(w));
      match answer
      case NoToken => wait == 3600 && after == f.(registered := false, registeredUrl := "", authBlocked := true)
      case Status(code) =>
        if code == 401 then wait == 3600 && after == f.(registered := false, registeredUrl := "", authBlocked := true)
        else if code == 402 then wait == 600 && after == f.(registered := false, registeredUrl := "", subscriptionBlocked := true)
        else if code == 404 then wait == 1 && after == f.(registered := false, registeredUrl := "")
        else wait == f.interval && after == f
      case _ => wait == f.interval && after == f
  {
  }

  function BeatAnswer(w: World): Answer {
    Beats(w.hasStatus, w.first, w.second).1
  }

  /** The fields that one turn of the loop leaves. */
  function Stepped(f: Fields, capable: bool, w: World): Fields {
    match Decide(f, capable)
    case GoIdle => f
    case Withdraw => Unregistered(f)
    case Beat => AfterHeartbeat(f, BeatAnswer(w))
    case Register => AttemptedFields(f, f.tunnelUrl, w)
  }

  class Manager {
    const provider: InferenceKeyProvider
    var kick: bool
    var tunnelUrl: string
    var deviceId: string
    var accountId: string
    var registered: bool
    var registeredUrl: string
    var authBlocked: bool
    var subscriptionBlocked: bool
    var interval: int

    function State(): Fields
      reads this
    {
      Fields(tunnelUrl, deviceId, accountId, registered, registeredUrl, authBlocked, subscriptionBlocked, interval)
    }

    constructor (provider: InferenceKeyProvider)
      ensures this.provider == provider && State() == NEW_FIELDS && !kick
    {
      this.provider := provider;
      kick, tunnelUrl, deviceId, accountId, registered, registeredUrl := false, "", "", "", false, "";
      authBlocked, subscriptionBlocked, interval := false, false, DEFAULT_INTERVAL;
    }

    method Kick()
      modifies this`kick
      ensures kick
    {
      if !kick {
        kick := true;
      }
    }

    method SetTunnelUrl(url: string)
      modifies this`tunnelUrl, this`kick
      ensures State() == old(State()).(tunnelUrl := url)
      ensures kick == (old(kick) || old(tunnelUrl) != url)
    {
      var changed := tunnelUrl != url;
      tunnelUrl := url;
      if changed {
        Kick();
      }
    }

    method NotifyTokenUpdated()
      modifies this`authBlocked, this`kick
      ensures State() == old(State()).(authBlocked := false) && kick
    {
      authBlocked := false;
      Kick();
    }

    method Deregister() returns (deleted: Option<string>)
      modifies this`registered, this`registeredUrl
      ensures State() == Unregistered(old(State()))
      ensures deleted == if old(registered) then Some(deviceId) else None
    {
      var was := registered;
      registered := false;
      registeredUrl := "";
      if !was {
        return None;
      }
      deleted := Some(deviceId);
    }

    /** The new key is minted before the request and the ones it replaces are retired only when
        the exchange succeeds; a failed mint publishes nothing and retires nothing. */
    method Publish(url: string, id: string, w: World) returns (sent: seq<Request>, answer: Answer)
      requires provider.keys.Valid() && (w.secret.Some? ==> |w.secret.value| >= 4)
      modifies provider.keys, provider.keys.backing
      ensures provider.keys.Valid()
      ensures sent == Exchange(Request(url, id, w.hasStatus, KeyToPublish(w)), w.first, w.second).0
      ensures answer == Exchange(Request(url, id, w.hasStatus, KeyToPublish(w)), w.first, w.second).1
      ensures provider.keys.View() == KeysAfter(old(provider.keys.View()), w, answer)
    {
      var grant := provider.Mint(w.published, w.secret, w.keyId, w.now, w.growth, w.mintWrites);
      sent, answer := ClientRegister(
        Request(url, id, w.hasStatus, if grant.Some? then Some(grant.value.plaintext) else None), w.first, w.second);
      if answer.Ok? && grant.Some? {
        provider.Commit(grant.value, Writes(grant.value.superseded, w.retireWrites));
      }
    }

    method Settle(url: string, id: string, answer: Answer) returns (wait: int)
      modifies this`deviceId, this`accountId, this`registered, this`registeredUrl, this`authBlocked,
               this`subscriptionBlocked, this`interval
      ensures State() == AfterRegister(old(State()), url, id, answer) && wait == RegisterWait(answer)
    {
      if Unauthorized(answer) {
        authBlocked := true;
        return IDLE;
      } else if answer == Status(402) {
        subscriptionBlocked, registered, registeredUrl := true, false, "";
        return SUBSCRIPTION_RETRY;
      } else if !answer.Ok? {
        return REGISTER_RETRY;
      }
      wait := DEFAULT_INTERVAL;
      if answer.intervalSeconds > 0 {
        wait := answer.intervalSeconds;
      }
      deviceId := id;
      if answer.deviceId != "" && answer.deviceId != id {
        deviceId := answer.deviceId;
      }
      if answer.accountId != "" {
        accountId := answer.accountId;
      }
      registered, subscriptionBlocked, registeredUrl, interval := true, false, url, wait;
    }

    method RegisterOnce(url: string, w: World) returns (wait: int, sent: seq<Request>)
      requires provider.keys.Valid() && (w.secret.Some? ==> |w.secret.value| >= 4)
      modifies this`deviceId, this`accountId, this`registered, this`registeredUrl, this`authBlocked,
               this`subscriptionBlocked, this`interval, provider.keys, provider.keys.backing
      ensures provider.keys.Valid()
      ensures Attempt(State(), wait, sent, provider.keys.View()) == Attempted(old(State()), url, w, old(provider.keys.View()))
    {
      var id := if deviceId != "" then Some(deviceId) else w.newDeviceId;
      if id.None? {
        return REGISTER_RETRY, [];
      }
      deviceId := id.value;
      var answer;
      sent, answer := Publish(url, id.value, w);
      wait := Settle(url, id.value, answer);
    }

    method Heartbeat(every: int, w: World) returns (wait: int)
      modifies this`registered, this`registeredUrl, this`authBlocked, this`subscriptionBlocked
      ensures State() == AfterHeartbeat(old(State()), BeatAnswer(w)) && wait == HeartbeatWait(every, BeatAnswer(w))
    {
      var sent, answer := ClientHeartbeat(w.hasStatus, w.first, w.second);
      if answer.Ok? {
        return every;
      }
      if Unauthorized(answer) {
        authBlocked := true;
        registered, registeredUrl := false, "";
        return IDLE;
      }
      if answer == Status(402) {
        subscriptionBlocked, registered, registeredUrl := true, false, "";
        return SUBSCRIPTION_RETRY;
      }
      if answer == Status(404) {
        registered, registeredUrl := false, "";
        return 1;
      }
      wait := every;
    }

    /** One turn of the loop, when nothing else runs meanwhile. */
    method Step(capable: bool, w: World) returns (wait: int)
      requires provider.keys.Valid() && (w.secret.Some? ==> |w.secret.value| >= 4)
      requires FieldsOk(State())
      modifies this`deviceId, this`accountId, this`registered, this`registeredUrl, this`authBlocked,
               this`subscriptionBlocked, this`interval, provider.keys, provider.keys.backing
      ensures FieldsOk(State()) && provider.keys.Valid()
      ensures State() == Stepped(old(State()), capable, w)
      ensures
        var attempt := Attempted(old(State()), old(tunnelUrl), w, old(provider.keys.View()));
        match Decide(old(State()), capable)
        case GoIdle => wait == IDLE && provider.keys.View() == old(provider.keys.View())
        case Withdraw => wait == IDLE && provider.keys.View() == old(provider.keys.View())
        case Beat => wait == HeartbeatWait(old(interval), BeatAnswer(w)) && provider.keys.View() == old(provider.keys.View())
        case Register => wait == attempt.wait && provider.keys.View() == attempt.keys
    {
      var url, every := tunnelUrl, interval;
      if url == "" || !capable {
        if registered {
          var deleted := Deregister();
        }
        return IDLE;
      }
      if authBlocked {
        return IDLE;
      }
      if !registered || registeredUrl != url {
        var sent;
        wait, sent := RegisterOnce(url, w);
        return;
      }
      wait := Heartbeat(every, w);
    }
  }
}
