/** The webhook handler: it walks a batch of alerts in order, acquires a token
    per alert, and sends the alert's message to its recipients.  Any failure
    raises out of the walk and ends the whole batch. */
module Dispatch {
  import opened Common
  import opened Alerts
  import opened TokenCache
  import opened Sms

  /** The answers of the outside world, in the order they are asked for:
      `clock(i)` is the time at which alert i asks for a token, `fetch(k)` the
      answer to the k-th token request, `status(k)` the gateway's status for
      the k-th send attempt. */
  datatype Env = Env(clock: nat -> int, fetch: nat -> FetchOutcome, status: nat -> int)

  /** The request body: `data.get('alerts', [])`. */
  datatype Batch = Batch(alerts: Option<seq<Alert>>)

  function AlertsOf(b: Batch): (r: seq<Alert>)
    ensures b.alerts.None? ==> r == []
    ensures b.alerts.Some? ==> r == b.alerts.value
  {
    match b.alerts
    case None => []
    case Some(alerts) => alerts
  }

  const ProcessedStatus := "Alerts processed"

  /** The sends of one message with one token to a list of phones. */
  function SendsTo(phones: seq<string>, message: string, token: string): (r: seq<Send>)
    ensures |r| == |phones|
    ensures forall m :: 0 <= m < |phones| ==> r[m] == Send(phones[m], message, token)
  {
    seq(|phones|, m requires 0 <= m < |phones| => Send(phones[m], message, token))
  }

  /** Sending to one more phone extends the sends by one. */
  lemma SendsToSnoc(phones: seq<string>, j: nat, message: string, token: string)
    requires j < |phones|
    ensures SendsTo(phones[..j + 1], message, token) == SendsTo(phones[..j], message, token) + [Send(phones[j], message, token)]
  {
  }

  /** The attempted sends of one alert and whether one of them was rejected. */
  datatype Delivery = Delivery(attempts: seq<Send>, failed: bool)

  /** Sends to `phones` in order, the first attempt being the `ns`-th of the
      batch, and stops at the first rejected one. */
  function Deliver(phones: seq<string>, message: string, token: string, status: nat -> int, ns: nat): (d: Delivery)
    // the attempts go to a prefix of the recipients, in order, each with this message and token
    ensures |d.attempts| <= |phones|
    ensures d.attempts == SendsTo(phones[..|d.attempts|], message, token)
    // only a rejection stops the fan-out early, and it is the last attempt
    ensures !d.failed ==> |d.attempts| == |phones|
    ensures d.failed ==> d.attempts != [] && status(ns + |d.attempts| - 1) != 200
    decreases |phones|
  {
    if phones == [] then Delivery([], false)
    else
      var first := Send(phones[0], message, token);
      if CheckSmsStatus(status(ns)).Err? then
        assert [first] == SendsTo(phones[..1], message, token);
        Delivery([first], true)
      else
        var rest := Deliver(phones[1..], message, token, status, ns + 1);
        assert [first] + rest.attempts == SendsTo(phones[..|rest.attempts| + 1], message, token);
        Delivery([first] + rest.attempts, rest.failed)
  }

  /** Every attempt but a rejected last one was accepted by the gateway. */
  lemma {:induction false} DeliverAccepted(phones: seq<string>, message: string, token: string, status: nat -> int, ns: nat)
    ensures var d := Deliver(phones, message, token, status, ns);
            && (forall k :: ns <= k < ns + |d.attempts| - 1 ==> status(k) == 200)
            && (!d.failed && d.attempts != [] ==> status(ns + |d.attempts| - 1) == 200)
    decreases |phones|
  {
    if phones != [] && status(ns) == 200 {
      DeliverAccepted(phones[1..], message, token, status, ns + 1);
    }
  }

  /** When the gateway accepts every attempt, every recipient is sent to. */
  lemma {:induction false} DeliverAllAccepted(phones: seq<string>, message: string, token: string, status: nat -> int, ns: nat)
    requires forall k :: ns <= k < ns + |phones| ==> status(k) == 200
    ensures Deliver(phones, message, token, status, ns) == Delivery(SendsTo(phones, message, token), false)
    decreases |phones|
  {
    if phones != [] {
      DeliverAllAccepted(phones[1..], message, token, status, ns + 1);
    }
  }

  /** When the gateway accepts the first j attempts and rejects the next one,
      exactly j + 1 recipients are attempted and the delivery fails. */
  lemma {:induction false} DeliverStopsAtRejection(phones: seq<string>, message: string, token: string, status: nat -> int, ns: nat, j: nat)
    requires j < |phones|
    requires forall k :: ns <= k < ns + j ==> status(k) == 200
    requires status(ns + j) != 200
    ensures Deliver(phones, message, token, status, ns) == Delivery(SendsTo(phones[..j + 1], message, token), true)
    decreases j
  {
    if j > 0 {
      DeliverStopsAtRejection(phones[1..], message, token, status, ns + 1, j - 1);
      assert phones[1..][..j] == phones[1..j + 1];
    }
  }

  /** Adding a phone at the end adds at most one attempt at the end. */
  lemma {:induction false} DeliverSnoc(phones: seq<string>, y: string, message: string, token: string, status: nat -> int, ns: nat)
    ensures var d := Deliver(phones, message, token, status, ns);
            Deliver(phones + [y], message, token, status, ns)
              == if d.failed then d
                 else Delivery(d.attempts + [Send(y, message, token)], status(ns + |phones|) != 200)
    decreases |phones|
  {
    if phones != [] {
      assert (phones + [y])[1..] == phones[1..] + [y];
      DeliverSnoc(phones[1..], y, message, token, status, ns + 1);
    }
  }

  /** The handler's loop over the default team's members.  `member` comes in
      with the value the loop variable kept from earlier alerts. */
  method SendToMembers(members: seq<Member>, message: string, token: string, status: nat -> int,
                       sends0: seq<Send>, member0: Option<Member>)
    returns (sends: seq<Send>, member: Option<Member>, failed: bool)
    requires member0.Some? ==> members != [] && member0.value == members[|members| - 1]
    ensures var d := Deliver(Phones(members), message, token, status, |sends0|);
            sends == sends0 + d.attempts && failed == d.failed
    ensures member.Some? ==> members != []
    ensures !failed ==> member == (if members == [] then member0 else Some(members[|members| - 1]))
  {
    ghost var phones := Phones(members);
    sends, member := sends0, member0;
    var j := 0;
    while j < |members|
      invariant j <= |members|
      invariant sends == sends0 + SendsTo(phones[..j], message, token)
      invariant forall k :: |sends0| <= k < |sends0| + j ==> status(k) == 200
      invariant member == (if j > 0 then Some(members[j - 1]) else member0)
    {
      member := Some(members[j]);
      SendsToSnoc(phones, j, message, token);
      sends := sends + [Send(member.value.phone, message, token)];
      if CheckSmsStatus(status(|sends| - 1)).Err? {
        DeliverStopsAtRejection(phones, message, token, status, |sends0|, j);
        return sends, member, true;
      }
      j := j + 1;
    }
    assert phones[..j] == phones;
    DeliverAllAccepted(phones, message, token, status, |sends0|);
    failed := false;
  }

  /** The fallback branch of the handler: the loop over the default team and
      the one extra send to `member` after it. */
  method SendToDefaultTeam(members: seq<Member>, message: string, token: string, status: nat -> int,
                           sends0: seq<Send>, member0: Option<Member>)
    returns (sends: seq<Send>, member: Option<Member>, failure: Option<Error>)
    requires member0.Some? ==> members != [] && member0.value == members[|members| - 1]
    ensures member.Some? ==> members != []
    ensures failure.None? ==> member.Some? && member.value == members[|members| - 1]
    ensures members == [] ==> sends == sends0 && failure == Some(UnboundMember)
    ensures members != [] ==>
              var d := Deliver(FallbackPhones(members), message, token, status, |sends0|);
              sends == sends0 + d.attempts && failure == (if d.failed then Some(DeliveryFailure) else None)
  {
    var failed;
    sends, member, failed := SendToMembers(members, message, token, status, sends0, member0);
    DeliverSnoc(Phones(members), if members == [] then "" else members[|members| - 1].phone, message, token, status, |sends0|);
    if failed {
      return sends, member, Some(DeliveryFailure);
    }
    if member.None? {
      return sends, member, Some(UnboundMember);
    }
    sends := sends + [Send(member.value.phone, message, token)];
    if CheckSmsStatus(status(|sends| - 1)).Err? {
      return sends, member, Some(DeliveryFailure);
    }
    failure := None;
  }

  /** How far the walk over a batch has got. */
  datatype Progress = Progress(cache: CacheEntry, fetches: nat, sends: seq<Send>, failure: Option<Error>)

  /** The handling of alert number `i` after `p`: nothing once the walk has
      failed; otherwise a token, then the recipients, then the sends. */
  function Step(p: Progress, a: Alert, i: nat, contacts: Contacts, env: Env): (q: Progress)
    ensures p.failure.Some? ==> q == p
    // earlier sends are kept, in order, before this alert's
    ensures |p.sends| <= |q.sends| && q.sends[..|p.sends|] == p.sends
    ensures p.failure.None? ==>
              var t := AcquireToken(p.cache, env.clock(i), env.fetch(p.fetches));
              // one token acquisition per alert, which asks the provider exactly on a miss
              && q.cache == t.cache
              && q.fetches == p.fetches + (if t.fetched then 1 else 0)
              && (t.fetched <==> !IsHit(p.cache, env.clock(i)))
              // no send without that token, and every send of this alert carries it and the alert's message
              && (t.result.Err? ==> q.sends == p.sends && q.failure == Some(t.result.error))
              && (forall k :: |p.sends| <= k < |q.sends| ==>
                    t.result.Ok? && q.sends[k].token == t.result.value && q.sends[k].message == Message(a))
    // an alert whose team is in the directory sends nothing
    ensures !UsesDefaultTeam(a, contacts) ==> q.sends == p.sends
  {
    if p.failure.Some? then p
    else
      var t := AcquireToken(p.cache, env.clock(i), env.fetch(p.fetches));
      var fetches := p.fetches + (if t.fetched then 1 else 0);
      match t.result
      case Err(e) => Progress(t.cache, fetches, p.sends, Some(e))
      case Ok(token) =>
        match Recipients(a, contacts)
        case Err(e) => Progress(t.cache, fetches, p.sends, Some(e))
        case Ok(phones) =>
          var d := Deliver(phones, Message(a), token, env.status, |p.sends|);
          assert (p.sends + d.attempts)[..|p.sends|] == p.sends;
          Progress(t.cache, fetches, p.sends + d.attempts, if d.failed then Some(DeliveryFailure) else None)
  }

  /** With the token in hand, which failure, if any, alert `i` raises: none
      for a team of the directory, MissingDefaultTeam or UnboundMember before
      any send, and DeliveryFailure exactly when one of its sends is rejected,
      that send being its last. */
  lemma StepOutcome(p: Progress, a: Alert, i: nat, contacts: Contacts, env: Env)
    ensures var q := Step(p, a, i, contacts, env);
            p.failure.None? && AcquireToken(p.cache, env.clock(i), env.fetch(p.fetches)).result.Ok? ==>
              && (!UsesDefaultTeam(a, contacts) ==> q.failure.None?)
              && (UsesDefaultTeam(a, contacts) && DefaultTeam !in contacts ==>
                    q.sends == p.sends && q.failure == Some(MissingDefaultTeam))
              && (UsesDefaultTeam(a, contacts) && DefaultTeam in contacts && contacts[DefaultTeam] == [] ==>
                    q.sends == p.sends && q.failure == Some(UnboundMember))
              && (UsesDefaultTeam(a, contacts) && DefaultTeam in contacts && contacts[DefaultTeam] != [] ==>
                    // a rejected send raises DeliveryFailure: it is the alert's last attempt, all before it accepted
                    && (q.failure.Some? ==>
                          q.failure == Some(DeliveryFailure) && |p.sends| < |q.sends|
                          && env.status(|q.sends| - 1) != 200
                          && forall k :: |p.sends| <= k < |q.sends| - 1 ==> env.status(k) == 200)
                    // otherwise every send of the fan-out was made and accepted
                    && (q.failure.None? ==>
                          |q.sends| == |p.sends| + |contacts[DefaultTeam]| + 1
                          && forall k :: |p.sends| <= k < |q.sends| ==> env.status(k) == 200))
  {
    if p.failure.None? {
      var t := AcquireToken(p.cache, env.clock(i), env.fetch(p.fetches));
      if t.result.Ok? && Recipients(a, contacts).Ok? {
        DeliverAccepted(Recipients(a, contacts).value, Message(a), t.result.value, env.status, |p.sends|);
      }
    }
  }

  /** The walk over `alerts`, starting from the stored entry `start`. */
  function Run(alerts: seq<Alert>, contacts: Contacts, env: Env, start: CacheEntry): (p: Progress)
    // at most one token request per alert
    ensures p.fetches <= |alerts|
    decreases |alerts|
  {
    if alerts == [] then Progress(start, 0, [], None)
    else
      var n := |alerts| - 1;
      Step(Run(alerts[..n], contacts, env, start), alerts[n], n, contacts, env)
  }

  /** The handler's answer: the fixed status, or the error it raised. */
  function Response(p: Progress): (r: Result<string, Error>)
    ensures p.failure.None? ==> r == Ok(ProcessedStatus)
    ensures p.failure.Some? ==> r == Err(p.failure.value)
  {
    match p.failure
    case None => Ok(ProcessedStatus)
    case Some(e) => Err(e)
  }

  /** Walking one more alert of the batch is one more Step. */
  lemma RunStep(alerts: seq<Alert>, contacts: Contacts, env: Env, start: CacheEntry, i: nat)
    requires i < |alerts|
    ensures Run(alerts[..i + 1], contacts, env, start)
              == Step(Run(alerts[..i], contacts, env, start), alerts[i], i, contacts, env)
  {
    assert alerts[..i + 1][..i] == alerts[..i];
  }

  /** The walk over a prefix of the batch is a prefix of the walk over the
      batch: all sends for earlier alerts precede those of later ones, and
      no later alert undoes a token request. */
  lemma {:induction false} RunPrefix(alerts: seq<Alert>, contacts: Contacts, env: Env, start: CacheEntry, i: nat)
    requires i <= |alerts|
    ensures var early, late := Run(alerts[..i], contacts, env, start), Run(alerts, contacts, env, start);
            |early.sends| <= |late.sends| && late.sends[..|early.sends|] == early.sends
            && early.fetches <= late.fetches
    decreases |alerts|
  {
    if i < |alerts| {
      var n := |alerts| - 1;
      RunPrefix(alerts[..n], contacts, env, start, i);
      assert alerts[..n][..i] == alerts[..i];
    } else {
      assert alerts[..i] == alerts;
    }
  }

  /** Once the walk has failed, the rest of the batch changes nothing. */
  lemma {:induction false} AbortIsFinal(alerts: seq<Alert>, contacts: Contacts, env: Env, start: CacheEntry, i: nat)
    requires i <= |alerts|
    requires Run(alerts[..i], contacts, env, start).failure.Some?
    ensures Run(alerts, contacts, env, start) == Run(alerts[..i], contacts, env, start)
    decreases |alerts|
  {
    if i < |alerts| {
      var n := |alerts| - 1;
      assert alerts[..n][..i] == alerts[..i];
      AbortIsFinal(alerts[..n], contacts, env, start, i);
    } else {
      assert alerts[..i] == alerts;
    }
  }

  /** If the token acquisition for alert i fails, no alert from i on sends
      anything and the batch ends with that error. */
  lemma {:induction false} TokenFailureStopsBatch(alerts: seq<Alert>, contacts: Contacts, env: Env, start: CacheEntry, i: nat)
    requires i < |alerts|
    ensures var p := Run(alerts[..i], contacts, env, start);
            var t := AcquireToken(p.cache, env.clock(i), env.fetch(p.fetches));
            var r := Run(alerts, contacts, env, start);
            p.failure.None? && t.result.Err? ==> r.sends == p.sends && r.failure == Some(t.result.error)
  {
    RunStep(alerts, contacts, env, start, i);
    if Run(alerts[..i + 1], contacts, env, start).failure.Some? {
      AbortIsFinal(alerts, contacts, env, start, i + 1);
    }
  }

  /** A rejected send among the sends from `p` to `q` is the last of them,
      and `q` has failed with DeliveryFailure. */
  predicate RejectionIsLast(p: Progress, q: Progress, env: Env, k: nat)
  {
    |p.sends| <= k < |q.sends| && env.status(k) != 200 ==>
      q.failure == Some(DeliveryFailure) && env.status(|q.sends| - 1) != 200
  }

  /** A rejected send of alert `i` makes the alert raise DeliveryFailure, the
      rejected send being its last. */
  lemma StepRejection(p: Progress, a: Alert, i: nat, contacts: Contacts, env: Env, k: nat)
    ensures RejectionIsLast(p, Step(p, a, i, contacts, env), env, k)
  {
    StepOutcome(p, a, i, contacts, env);
  }

  /** StepRejection for the i-th alert of a batch. */
  lemma RunRejection(alerts: seq<Alert>, contacts: Contacts, env: Env, start: CacheEntry, i: nat, k: nat)
    requires i < |alerts|
    ensures RejectionIsLast(Run(alerts[..i], contacts, env, start), Run(alerts[..i + 1], contacts, env, start), env, k)
  {
    RunStep(alerts, contacts, env, start, i);
    StepRejection(Run(alerts[..i], contacts, env, start), alerts[i], i, contacts, env, k);
  }

  /** If the gateway rejects one of alert i's sends, that send is the last
      one of the batch and the batch ends with DeliveryFailure. */
  lemma {:induction false} SendRejectionStopsBatch(alerts: seq<Alert>, contacts: Contacts, env: Env, start: CacheEntry, i: nat)
    requires i < |alerts|
    ensures var p := Run(alerts[..i], contacts, env, start);
            var q := Run(alerts[..i + 1], contacts, env, start);
            var r := Run(alerts, contacts, env, start);
            (exists k :: |p.sends| <= k < |q.sends| && env.status(k) != 200) ==>
              r.sends == q.sends && r.failure == Some(DeliveryFailure) && env.status(|r.sends| - 1) != 200
  {
    var p := Run(alerts[..i], contacts, env, start);
    var q := Run(alerts[..i + 1], contacts, env, start);
    if k :| |p.sends| <= k < |q.sends| && env.status(k) != 200 {
      RunRejection(alerts, contacts, env, start, i, k);
      AbortIsFinal(alerts, contacts, env, start, i + 1);
    }
  }

  /** A fallback alert whose sends are all accepted sends its message, with
      its token, to every member of the default team and then once more to
      the last member: one more send than the team has members. */
  lemma FallbackStep(p: Progress, a: Alert, i: nat, contacts: Contacts, env: Env)
    requires p.failure.None?
    requires AcquireToken(p.cache, env.clock(i), env.fetch(p.fetches)).result.Ok?
    requires UsesDefaultTeam(a, contacts) && DefaultTeam in contacts && contacts[DefaultTeam] != []
    requires forall k :: |p.sends| <= k <= |p.sends| + |contacts[DefaultTeam]| ==> env.status(k) == 200
    ensures var q := Step(p, a, i, contacts, env);
            var members := contacts[DefaultTeam];
            var token := AcquireToken(p.cache, env.clock(i), env.fetch(p.fetches)).result.value;
            && q.failure.None?
            && q.sends == p.sends + SendsTo(FallbackPhones(members), Message(a), token)
            && |q.sends| == |p.sends| + |members| + 1
  {
    var members := contacts[DefaultTeam];
    var token := AcquireToken(p.cache, env.clock(i), env.fetch(p.fetches)).result.value;
    DeliverAllAccepted(Recipients(a, contacts).value, Message(a), token, env.status, |p.sends|);
  }

  /** Within one validity window, the batch asks the identity provider at most
      once: after the first request either the walk has failed or the stored
      token outlives every later alert's clock reading. */
  lemma {:induction false} SingleFetchInWindow(alerts: seq<Alert>, contacts: Contacts, env: Env, start: CacheEntry)
    requires forall i :: 0 <= i < |alerts| ==> env.clock(0) <= env.clock(i) < env.clock(0) + 120
    requires env.fetch(0).accessToken != Some("")
    ensures var p := Run(alerts, contacts, env, start);
            && p.fetches <= 1
            && (p.fetches == 1 && p.failure.None? ==>
                  p.cache.token != "" && env.clock(0) + TokenValidity <= p.cache.expiresAt)
    decreases |alerts|
  {
    if alerts != [] {
      var n := |alerts| - 1;
      SingleFetchInWindow(alerts[..n], contacts, env, start);
      RunStep(alerts, contacts, env, start, n);
      assert alerts[..n + 1] == alerts;
      var p := Run(alerts[..n], contacts, env, start);
      if p.failure.None? {
        var now := env.clock(n);
        assert env.clock(0) <= now < env.clock(0) + TokenValidity;
        var t := AcquireToken(p.cache, now, env.fetch(p.fetches));
        if p.fetches == 1 {
          assert IsHit(p.cache, now);
        } else if t.fetched && t.result.Ok? {
          assert t.cache == CacheEntry(env.fetch(0).accessToken.value, now + TokenValidity);
        }
      }
    }
  }

  /** A request without an `alerts` key sends nothing, asks for no token and
      is answered with the fixed status. */
  lemma NoAlertsKey(contacts: Contacts, env: Env, start: CacheEntry)
    ensures var p := Run(AlertsOf(Batch(None)), contacts, env, start);
            p.sends == [] && p.fetches == 0 && p.cache == start && Response(p) == Ok("Alerts processed")
  {
  }

  /** An alert labelled with a team of the directory sends nothing, even to
      that team: one alert for "sre" with a directory holding "sre" ends with
      no send and the fixed status, once its token is acquired. */
  lemma KnownTeamScenario(env: Env, start: CacheEntry)
    requires IsHit(start, env.clock(0))
    ensures var a := Alert(Some(map["team" := "sre"]), Some(map["description" := "disk full"]));
            var p := Run([a], map["sre" := [Member("+1000")]], env, start);
            p.sends == [] && Response(p) == Ok("Alerts processed")
  {
    var a := Alert(Some(map["team" := "sre"]), Some(map["description" := "disk full"]));
    var contacts := map["sre" := [Member("+1000")]];
    assert [a][..0] == [];
    assert !UsesDefaultTeam(a, contacts);
  }

  /** An alert without a team label, with a default team of two members and
      every send accepted, sends three messages: to both members and again to
      the second. */
  lemma FallbackScenario(a: Alert, x: string, y: string, contacts: Contacts, env: Env, start: CacheEntry)
    requires TeamLabel(a).None?
    requires DefaultTeam in contacts && contacts[DefaultTeam] == [Member(x), Member(y)]
    requires IsHit(start, env.clock(0))
    requires forall k :: 0 <= k < 3 ==> env.status(k) == 200
    ensures var p := Run([a], contacts, env, start);
            var m := Message(a);
            p.sends == [Send(x, m, start.token), Send(y, m, start.token), Send(y, m, start.token)]
            && Response(p) == Ok(ProcessedStatus)
  {
    var members := contacts[DefaultTeam];
    var p := Progress(start, 0, [], None);
    assert Run([a], contacts, env, start) == Step(p, a, 0, contacts, env) by {
      assert [a][..0] == [];
    }
    assert FallbackPhones(members) == [x, y, y];
    FallbackStep(p, a, 0, contacts, env);
  }

  /** A fallback alert when the directory has no default team raises after its
      token is acquired: nothing is sent and the batch fails. */
  lemma MissingDefaultTeamScenario(a: Alert, env: Env, start: CacheEntry)
    requires IsHit(start, env.clock(0))
    requires TeamLabel(a).None?
    ensures var p := Run([a], map[], env, start);
            p.sends == [] && Response(p) == Err(MissingDefaultTeam)
  {
    assert [a][..0] == [];
  }

  /** The handler's loop body for alert number `i`: its message, its team
      label, a token, and, in the fallback branch, the sends.  `member` is the
      handler's fallback loop variable, which outlives each alert. */
  method ProcessAlert(alert: Alert, i: nat, contacts: Contacts, cache: OidcTokenCache, env: Env,
                      sends0: seq<Send>, fetches0: nat, member0: Option<Member>)
    returns (sends: seq<Send>, fetches: nat, member: Option<Member>, failure: Option<Error>)
    requires member0.Some? ==>
               DefaultTeam in contacts && contacts[DefaultTeam] != []
               && member0.value == contacts[DefaultTeam][|contacts[DefaultTeam]| - 1]
    modifies cache
    ensures Step(Progress(old(cache.Entry()), fetches0, sends0, None), alert, i, contacts, env)
              == Progress(cache.Entry(), fetches, sends, failure)
    ensures failure.None? && member.Some? ==>
              DefaultTeam in contacts && contacts[DefaultTeam] != []
              && member.value == contacts[DefaultTeam][|contacts[DefaultTeam]| - 1]
  {
    sends, fetches, member, failure := sends0, fetches0, member0, None;
    var message := Message(alert);
    var team := TeamLabel(alert);
    var token, fetched := cache.GetOidcToken(env.clock(i), env.fetch(fetches));
    if fetched {
      fetches := fetches + 1;
    }
    if token.Err? {
      return sends, fetches, member, Some(token.error);
    }
    if team.None? || team.value == "" || team.value !in contacts {
      team := Some(DefaultTeam);
      if team.value !in contacts {
        return sends, fetches, member, Some(MissingDefaultTeam);
      }
      sends, member, failure := SendToDefaultTeam(contacts[team.value], message, token.value, env.status, sends, member);
    }
  }

  /** The webhook handler: the walk over the batch, stopped by the first
      failure. */
  method HandleAlert(batch: Batch, contacts: Contacts, cache: OidcTokenCache, env: Env)
    returns (sends: seq<Send>, fetches: nat, response: Result<string, Error>)
    modifies cache
    ensures var p := Run(AlertsOf(batch), contacts, env, old(cache.Entry()));
            sends == p.sends && fetches == p.fetches && cache.Entry() == p.cache
            && response == Response(p)
  {
    var alerts := AlertsOf(batch);
    ghost var start := cache.Entry();
    sends, fetches := [], 0;
    var member: Option<Member> := None;
    var i := 0;
    while i < |alerts|
      invariant i <= |alerts|
      invariant Run(alerts[..i], contacts, env, start) == Progress(cache.Entry(), fetches, sends, None)
      invariant member.Some? ==>
                  DefaultTeam in contacts && contacts[DefaultTeam] != []
                  && member.value == contacts[DefaultTeam][|contacts[DefaultTeam]| - 1]
    {
      RunStep(alerts, contacts, env, start, i);
      var failure;
      sends, fetches, member, failure := ProcessAlert(alerts[i], i, contacts, cache, env, sends, fetches, member);
      if failure.Some? {
        response := Err(failure.value);
        AbortIsFinal(alerts, contacts, env, start, i + 1);
        return;
      }
      i := i + 1;
    }
    assert alerts[..i] == alerts;
    response := Ok(ProcessedStatus);
  }
}
