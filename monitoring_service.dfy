/** src/services/monitoringService.js: the change detector, the four
    notification rules, the dispatch policy, the per-record check, the
    sequential tick, and the start/stop lifecycle of `MonitoringService`. */
module MonitoringService {
  import opened Model
  import opened Text
  import opened Browser
  import opened Api
  import opened TrackingStorage
  import opened SettingsStorage
  import opened SlackService

  /** 48 hours in milliseconds: `(now - createdAt) / (1000 * 60 * 60) >= 48`. */
  const DelayThresholdMs := 48 * 60 * 60 * 1000
  /** The wait after each record of a tick. */
  const RequestSpacingMs := 1000
  const ExceptionKeywords: seq<string> := ["반송", "지연", "예외", "오류", "문제", "불가"]

  // ---------------------------------------------------------------------
  // Change detection and the notification rules

  /** `detectStatusChange(oldResult, newResult)`: only the completion flag,
      the step count and the last step's place and time are compared. */
  function DetectStatusChange(oldR: Option<TrackingResult>, newR: Option<TrackingResult>): (changed: bool)
    ensures oldR.None? && newR.Some? ==> changed
    ensures newR.None? ==> !changed
    ensures oldR.Some? && newR.Some? ==>
      (changed <==>
        || oldR.value.complete != newR.value.complete
        || |Steps(oldR.value)| != |Steps(newR.value)|
        || (|Steps(oldR.value)| > 0
            && (LastStep(oldR.value).where != LastStep(newR.value).where
                || LastStep(oldR.value).timeString != LastStep(newR.value).timeString)))
  {
    if oldR.None? && newR.Some? then true
    else if oldR.None? || newR.None? then false
    else if oldR.value.complete != newR.value.complete then true
    else
      var oldSteps := Steps(oldR.value);
      var newSteps := Steps(newR.value);
      if |oldSteps| != |newSteps| then true
      else if |oldSteps| > 0 && |newSteps| > 0 then
        oldSteps[|oldSteps| - 1].where != newSteps[|newSteps| - 1].where
        || oldSteps[|oldSteps| - 1].timeString != newSteps[|newSteps| - 1].timeString
      else false
  }

  /** Two results that agree on the flag, the count and the last step's
      place and time are "no change", whatever their earlier steps or the
      last step's kind; in particular a result is no change from itself. */
  lemma SameObservationNoChange(a: TrackingResult, b: TrackingResult)
    requires a.complete == b.complete && |Steps(a)| == |Steps(b)|
    requires |Steps(a)| > 0 ==> LastStep(a).where == LastStep(b).where
                                && LastStep(a).timeString == LastStep(b).timeString
    ensures !DetectStatusChange(Some(a), Some(b))
    ensures !DetectStatusChange(Some(a), Some(a))
  {
  }

  /** `isFirstShipment(newResult, oldResult)` */
  function IsFirstShipment(newR: TrackingResult, oldR: Option<TrackingResult>): (b: bool)
    ensures |Steps(newR)| == 0 ==> !b
    ensures |Steps(newR)| > 0 ==>
      (b <==> oldR.None? || oldR.value.trackingDetails.None? || |Steps(newR)| > |Steps(oldR.value)|)
  {
    if newR.trackingDetails.None? || |newR.trackingDetails.value| == 0 then false
    else oldR.None? || oldR.value.trackingDetails.None?
         || |newR.trackingDetails.value| > |oldR.value.trackingDetails.value|
  }

  /** The delivery condition `newResult.complete && !oldResult?.complete`. */
  function JustDelivered(newR: TrackingResult, oldR: Option<TrackingResult>): (b: bool)
    ensures b <==> newR.complete && (oldR.None? || !oldR.value.complete)
  {
    newR.complete && !(oldR.Some? && oldR.value.complete)
  }

  /** A complete result polled again after a complete one never counts as
      delivered again. */
  lemma DeliveredOnlyOnEdge(newR: TrackingResult, oldR: TrackingResult)
    requires oldR.complete
    ensures !JustDelivered(newR, Some(oldR))
  {
  }

  /** `isDelayed(trackingData)` at time `now`: 48 hours have passed since the
      record was created and the result it holds shows no step. */
  function IsDelayed(rec: Record, now: int): (b: bool)
    ensures b <==> now - rec.createdAt >= DelayThresholdMs && !HasSteps(rec.trackingResult)
  {
    now - rec.createdAt >= DelayThresholdMs
    && (rec.trackingResult.None? || rec.trackingResult.value.trackingDetails.None?
        || |rec.trackingResult.value.trackingDetails.value| == 0)
  }

  /** `lastStep.where.includes(k) || (lastStep.kind && lastStep.kind.includes(k))` */
  predicate MentionsKeyword(step: Step, keyword: string) {
    Includes(step.where, keyword) || (step.kind.Some? && step.kind.value != "" && Includes(step.kind.value, keyword))
  }

  /** `keywords.some(...)` */
  function SomeKeyword(keywords: seq<string>, step: Step): (b: bool)
    ensures b <==> exists i :: 0 <= i < |keywords| && MentionsKeyword(step, keywords[i])
  {
    if keywords == [] then false
    else MentionsKeyword(step, keywords[0]) || SomeKeyword(keywords[1..], step)
  }

  /** `hasException(trackingResult)`: the last step's place or kind mentions
      one of the fixed keywords. */
  function HasException(r: TrackingResult): (b: bool)
    ensures |Steps(r)| == 0 ==> !b
    ensures |Steps(r)| > 0 ==>
      (b <==> exists i :: 0 <= i < |ExceptionKeywords| && MentionsKeyword(LastStep(r), ExceptionKeywords[i]))
  {
    if r.trackingDetails.None? || |r.trackingDetails.value| == 0 then false
    else SomeKeyword(ExceptionKeywords, r.trackingDetails.value[|r.trackingDetails.value| - 1])
  }

  /** An arrival at '서울 도착' is no exception; a return ('반송') is one. */
  lemma ExceptionExamples(earlier: seq<Step>, time: string)
    ensures !HasException(TrackingResult(false, Some(earlier + [Step("서울 도착", time, None)])))
    ensures HasException(TrackingResult(false, Some(earlier + [Step("반송 처리", time, None)])))
  {
    var plain := Step("서울 도착", time, None);
    forall i | 0 <= i < |ExceptionKeywords| ensures !MentionsKeyword(plain, ExceptionKeywords[i]) {
      var k := ExceptionKeywords[i];
      assert k[0] in {'반', '지', '예', '오', '문', '불'};
      NoFirstCharNoOccurrence("서울 도착", k);
    }
    assert Includes("반송 처리", "반송");
    assert MentionsKeyword(Step("반송 처리", time, None), ExceptionKeywords[0]);
  }

  // ---------------------------------------------------------------------
  // Dispatch policy

  datatype Category = Shipment | Delivery | Delay | Exception

  /** The `type` string each notification is created with. */
  function Name(c: Category): string {
    match c
    case Shipment => "shipment"
    case Delivery => "delivery"
    case Delay => "delay"
    case Exception => "exception"
  }

  /** The position of a category in the order `sendNotifications` tries them. */
  function Rank(c: Category): nat {
    match c
    case Shipment => 0
    case Delivery => 1
    case Delay => 2
    case Exception => 3
  }

  function Gate(on: bool, c: Category): seq<Category> {
    if on then [c] else []
  }

  /** The categories switched on, in the order shipment, delivery, delay,
      exception. */
  function Gates(shipment: bool, delivery: bool, delay: bool, exception: bool): seq<Category> {
    Gate(shipment, Shipment) + (Gate(delivery, Delivery) + (Gate(delay, Delay) + Gate(exception, Exception)))
  }

  /** Categories in strictly increasing rank. */
  predicate Ordered(r: seq<Category>) {
    forall i, j :: 0 <= i < j < |r| ==> Rank(r[i]) < Rank(r[j])
  }

  predicate RanksFrom(r: seq<Category>, lo: nat) {
    forall k :: 0 <= k < |r| ==> Rank(r[k]) >= lo
  }

  /** Putting a gated category in front of later-ranked ones keeps the order. */
  lemma GateKeepsOrder(on: bool, c: Category, t: seq<Category>)
    requires Ordered(t) && RanksFrom(t, Rank(c) + 1)
    ensures Ordered(Gate(on, c) + t) && RanksFrom(Gate(on, c) + t, Rank(c))
  {
    if on {
      var r := [c] + t;
      forall i, j | 0 <= i < j < |r| ensures Rank(r[i]) < Rank(r[j]) {
        assert r[j] == t[j - 1];
        if i > 0 {
          assert r[i] == t[i - 1];
        }
      }
      forall k | 0 <= k < |r| ensures Rank(r[k]) >= Rank(c) {
        if k > 0 {
          assert r[k] == t[k - 1];
        }
      }
    } else {
      assert Gate(on, c) + t == t;
    }
  }

  /** A gated category in front of others is present exactly when its switch is on. */
  lemma InGate(x: Category, on: bool, c: Category, t: seq<Category>)
    ensures x in Gate(on, c) + t <==> (on && x == c) || x in t
  {
    if !on {
      assert Gate(on, c) + t == t;
    }
  }

  /** Each category is present exactly when its switch is on. */
  lemma GatesMembers(shipment: bool, delivery: bool, delay: bool, exception: bool)
    ensures Shipment in Gates(shipment, delivery, delay, exception) <==> shipment
    ensures Delivery in Gates(shipment, delivery, delay, exception) <==> delivery
    ensures Delay in Gates(shipment, delivery, delay, exception) <==> delay
    ensures Exception in Gates(shipment, delivery, delay, exception) <==> exception
  {
    var e := Gate(exception, Exception);
    var d := Gate(delay, Delay) + e;
    var v := Gate(delivery, Delivery) + d;
    forall x: Category ensures x in Gates(shipment, delivery, delay, exception)
                               <==> (shipment && x == Shipment) || (delivery && x == Delivery)
                                    || (delay && x == Delay) || (exception && x == Exception) {
      InGate(x, shipment, Shipment, v);
      InGate(x, delivery, Delivery, d);
      InGate(x, delay, Delay, e);
      InGate(x, exception, Exception, []);
      assert e == Gate(exception, Exception) + [];
    }
  }

  /** The categories switched on come in the fixed order. */
  lemma GatesOrdered(shipment: bool, delivery: bool, delay: bool, exception: bool)
    ensures Ordered(Gates(shipment, delivery, delay, exception))
  {
    var e := Gate(exception, Exception);
    assert e + [] == e;
    GateKeepsOrder(exception, Exception, []);
    GateKeepsOrder(delay, Delay, e);
    GateKeepsOrder(delivery, Delivery, Gate(delay, Delay) + e);
    GateKeepsOrder(shipment, Shipment, Gate(delivery, Delivery) + (Gate(delay, Delay) + e));
  }

  /** The notifications `sendNotifications(trackingData, newResult, oldResult)`
      decides on at time `now`: each category by its own switch and rule,
      in the fixed order shipment, delivery, delay, exception. The delay
      rule looks at `rec`, the record as it was before this poll. */
  function Intents(st: Settings, rec: Record, newR: TrackingResult, oldR: Option<TrackingResult>, now: int): (r: seq<Category>)
    ensures Shipment in r <==> st.notifyOnShipment && IsFirstShipment(newR, oldR)
    ensures Delivery in r <==> st.notifyOnDelivery && JustDelivered(newR, oldR)
    ensures Delay in r <==> st.notifyOnDelay && IsDelayed(rec, now)
    ensures Exception in r <==> st.notifyOnException && HasException(newR)
    ensures Ordered(r)
  {
    var shipment := st.notifyOnShipment && IsFirstShipment(newR, oldR);
    var delivery := st.notifyOnDelivery && JustDelivered(newR, oldR);
    var delay := st.notifyOnDelay && IsDelayed(rec, now);
    var exception := st.notifyOnException && HasException(newR);
    GatesMembers(shipment, delivery, delay, exception);
    GatesOrdered(shipment, delivery, delay, exception);
    Gates(shipment, delivery, delay, exception)
  }

  /** Because the delay rule sees the record from before the poll, a record
      at least 48 hours old whose first step has just appeared gets the
      shipment notification and the delay notification in the same round,
      the shipment one first, when both are switched on. */
  lemma DelayFiresWithFirstShipment(st: Settings, rec: Record, newR: TrackingResult, now: int)
    requires st.notifyOnShipment && st.notifyOnDelay
    requires !HasSteps(rec.trackingResult) && |Steps(newR)| > 0
    requires now - rec.createdAt >= DelayThresholdMs
    ensures var r := Intents(st, rec, newR, rec.trackingResult, now);
            Shipment in r && Delay in r
    ensures !st.notifyOnDelivery && !st.notifyOnException ==>
              Intents(st, rec, newR, rec.trackingResult, now) == [Shipment, Delay]
  {
    var r := Intents(st, rec, newR, rec.trackingResult, now);
    if !st.notifyOnDelivery && !st.notifyOnException {
      assert r == Gates(true, false, true, false);
    }
  }

  /** The notification `sendNotifications` sends for a category. */
  function NotificationFor(c: Category, rec: Record): Notification {
    CreateNotificationMessage(Name(c), rec)
  }

  /** What one awaited `sendSlackNotification` call does: the requests it
      sends and whether it throws. */
  datatype Attempt = Attempt(sent: seq<Request>, threw: bool)

  /** What sending each category's notification would do. */
  datatype Plan = Plan(shipment: Attempt, delivery: Attempt, delay: Attempt, exception: Attempt)

  function Of(plan: Plan, c: Category): Attempt {
    match c
    case Shipment => plan.shipment
    case Delivery => plan.delivery
    case Delay => plan.delay
    case Exception => plan.exception
  }

  /** Sending the notification for `c` about `rec` along `route`. */
  function AttemptFor(net: Network, now: int, route: Route, rec: Record, c: Category): Attempt {
    Attempt(SlackRequests(route, NotificationFor(c, rec)), SlackResult(net, now, route, NotificationFor(c, rec)).Threw?)
  }

  function PlanFor(net: Network, now: int, route: Route, rec: Record): Plan {
    Plan(AttemptFor(net, now, route, rec, Shipment), AttemptFor(net, now, route, rec, Delivery),
         AttemptFor(net, now, route, rec, Delay), AttemptFor(net, now, route, rec, Exception))
  }

  /** The plan's entry for a category is that category's attempt. */
  lemma PlanAttempt(net: Network, now: int, route: Route, rec: Record, c: Category)
    ensures Of(PlanFor(net, now, route, rec), c) == AttemptFor(net, now, route, rec, c)
  {
  }

  /** Each send to a blank URL throws before posting; each send to any
      other URL posts the notification's payload once, and throws exactly
      when the webhook refuses it. */
  lemma PlanShape(net: Network, now: int, route: Route, rec: Record, c: Category)
    ensures route.blank ==> Of(PlanFor(net, now, route, rec), c) == Attempt([], true)
    ensures !route.blank ==>
      var payload := SlackPayload(NotificationFor(c, rec));
      && Of(PlanFor(net, now, route, rec), c).sent == [SlackPost(route.target, payload)]
      && (Of(PlanFor(net, now, route, rec), c).threw <==> net.webhook(now, route.target, payload).Refused?)
  {
  }

  /** The requests of sending `cats` in order, stopping after the first send
      that throws (one `try` wraps all of them). */
  function Dispatch(plan: Plan, cats: seq<Category>): seq<Request> {
    if cats == [] then []
    else Of(plan, cats[0]).sent + (if Of(plan, cats[0]).threw then [] else Dispatch(plan, cats[1..]))
  }

  /** How many sends are made: up to and including the first that throws. */
  function Attempted(plan: Plan, cats: seq<Category>): (k: nat)
    ensures k <= |cats|
    ensures cats != [] ==> k > 0
  {
    if cats == [] then 0
    else if Of(plan, cats[0]).threw then 1
    else 1 + Attempted(plan, cats[1..])
  }

  /** The requests of every send in `cats`, were none to throw. */
  function Planned(plan: Plan, cats: seq<Category>): seq<Request> {
    if cats == [] then [] else Of(plan, cats[0]).sent + Planned(plan, cats[1..])
  }

  /** Dispatching sends exactly the first `Attempted` notifications. */
  lemma {:induction false} DispatchSendsAttempted(plan: Plan, cats: seq<Category>)
    ensures Dispatch(plan, cats) == Planned(plan, cats[..Attempted(plan, cats)])
  {
    if cats != [] {
      var k := Attempted(plan, cats);
      if Of(plan, cats[0]).threw {
        assert cats[..k] == [cats[0]];
        assert cats[..k][1..] == [];
      } else {
        DispatchSendsAttempted(plan, cats[1..]);
        assert cats[..k][0] == cats[0];
        assert cats[..k][1..] == cats[1..][..k - 1];
      }
    }
  }

  /** Every send before the last one made went through, and when fewer sends
      are made than planned, the last one made threw. */
  lemma {:induction false} AttemptedStopsAtFirstThrow(plan: Plan, cats: seq<Category>)
    ensures forall i :: 0 <= i < Attempted(plan, cats) - 1 ==> !Of(plan, cats[i]).threw
    ensures Attempted(plan, cats) < |cats| ==> Of(plan, cats[Attempted(plan, cats) - 1]).threw
  {
    if cats != [] && !Of(plan, cats[0]).threw {
      AttemptedStopsAtFirstThrow(plan, cats[1..]);
      var k := Attempted(plan, cats);
      forall i | 0 <= i < k - 1 ensures !Of(plan, cats[i]).threw {
        if i > 0 {
          assert cats[i] == cats[1..][i - 1];
        }
      }
      if k < |cats| {
        assert cats[k - 1] == cats[1..][k - 2];
      }
    }
  }

  /** When no send throws, every planned request is sent. */
  lemma {:induction false} DispatchAllSent(plan: Plan, cats: seq<Category>)
    requires forall i :: 0 <= i < |cats| ==> !Of(plan, cats[i]).threw
    ensures Dispatch(plan, cats) == Planned(plan, cats)
  {
    if cats != [] {
      assert forall i :: 0 <= i < |cats| - 1 ==> cats[1..][i] == cats[i + 1];
      DispatchAllSent(plan, cats[1..]);
    }
  }

  /** Dispatching a category in front of a list: sent first, and the rest
      only when it did not throw. */
  lemma DispatchGate(plan: Plan, on: bool, c: Category, rest: seq<Category>)
    ensures Dispatch(plan, Gate(on, c) + rest)
            == if !on then Dispatch(plan, rest)
               else Of(plan, c).sent + (if Of(plan, c).threw then [] else Dispatch(plan, rest))
  {
    if on {
      assert (Gate(on, c) + rest)[0] == c;
      assert (Gate(on, c) + rest)[1..] == rest;
    } else {
      assert Gate(on, c) + rest == rest;
    }
  }

  /** One block of `sendNotifications` in terms of the request log: what
      is still to be sent after it, added to the log it leaves, is what
      dispatching it and the rest adds to the log it found. */
  lemma DispatchStep(plan: Plan, due: bool, c: Category, rest: seq<Category>,
                     before: seq<Request>, after: seq<Request>, threw: bool)
    requires after == before + (if due then Of(plan, c).sent else [])
    requires threw == (due && Of(plan, c).threw)
    ensures threw ==> after == before + Dispatch(plan, Gate(due, c) + rest)
    ensures !threw ==> after + Dispatch(plan, rest) == before + Dispatch(plan, Gate(due, c) + rest)
    ensures !threw && rest == [] ==> after == before + Dispatch(plan, Gate(due, c) + rest)
  {
    DispatchGate(plan, due, c, rest);
    if due {
      var sent := Of(plan, c).sent;
      if !threw {
        assert after + Dispatch(plan, rest) == before + (sent + Dispatch(plan, rest));
      } else {
        assert sent + [] == sent;
      }
    } else {
      assert after == before;
    }
    if rest == [] {
      assert after + [] == after;
    }
  }

  predicate OnlyPosts(q: seq<Request>) {
    forall i :: 0 <= i < |q| ==> q[i].SlackPost?
  }

  lemma {:induction false} DispatchOnlyPosts(plan: Plan, cats: seq<Category>)
    requires forall c :: OnlyPosts(Of(plan, c).sent)
    ensures OnlyPosts(Dispatch(plan, cats))
  {
    if cats != [] {
      DispatchOnlyPosts(plan, cats[1..]);
      var head := Of(plan, cats[0]).sent;
      var tail := if Of(plan, cats[0]).threw then [] else Dispatch(plan, cats[1..]);
      assert OnlyPosts(head) && OnlyPosts(tail);
      assert forall i :: |head| <= i < |head + tail| ==> (head + tail)[i] == tail[i - |head|];
    }
  }

  /** A notification round sends Slack posts only. */
  lemma PlanOnlyPosts(net: Network, now: int, route: Route, rec: Record)
    ensures forall c :: OnlyPosts(Of(PlanFor(net, now, route, rec), c).sent)
  {
    forall c ensures OnlyPosts(Of(PlanFor(net, now, route, rec), c).sent) {
      PlanShape(net, now, route, rec, c);
    }
  }

  /** The requests `sendNotifications` sends: none without a webhook URL,
      and Slack posts only. */
  function NotificationRequests(net: Network, now: int, st: Settings, rec: Record,
                                newR: TrackingResult, oldR: Option<TrackingResult>): (q: seq<Request>)
    ensures st.slackWebhookUrl == "" ==> q == []
    ensures OnlyPosts(q)
  {
    if st.slackWebhookUrl == "" then []
    else
      var plan := PlanFor(net, now, RouteOf(net, st.slackWebhookUrl), rec);
      PlanOnlyPosts(net, now, RouteOf(net, st.slackWebhookUrl), rec);
      DispatchOnlyPosts(plan, Intents(st, rec, newR, oldR, now));
      Dispatch(PlanFor(net, now, RouteOf(net, st.slackWebhookUrl), rec), Intents(st, rec, newR, oldR, now))
  }

  // ---------------------------------------------------------------------
  // The per-record check and the tick, as functions of the state

  /** What a tick reads but does not change: the API key, whether storage
      writes succeed, and the settings as `getSettings()` returns them. */
  datatype Env = Env(apiKey: Option<string>, writable: bool, settings: Settings)

  /** What a tick changes: the stored record list, the request log, the clock. */
  datatype World = World(entry: Entry<seq<Record>>, requests: seq<Request>, now: int)

  /** The stored list after `checkTrackingStatus(rec)`: rewritten only when
      the fetch succeeded with a detected change, the record then carrying
      the new result and the check time. */
  function CheckEntry(net: Network, env: Env, w: World, rec: Record): Entry<seq<Record>> {
    match TrackReply(net, env.apiKey, w.now, rec.carrierCode, rec.trackingNumber)
    case FetchError(_) => w.entry
    case Fetched(newR) =>
      if !DetectStatusChange(rec.trackingResult, Some(newR)) || !env.writable then w.entry
      else Saved(UpdateList(Records(w.entry), rec.trackingNumber,
                            Patch(rec.(trackingResult := Some(newR), lastUpdated := w.now))))
  }

  /** The notifications `checkTrackingStatus(rec)` sends: none unless the
      fetch succeeded with a detected change. */
  function CheckSent(net: Network, env: Env, w: World, rec: Record): (q: seq<Request>)
    ensures OnlyPosts(q)
  {
    match TrackReply(net, env.apiKey, w.now, rec.carrierCode, rec.trackingNumber)
    case FetchError(_) => []
    case Fetched(newR) =>
      if DetectStatusChange(rec.trackingResult, Some(newR))
      then NotificationRequests(net, w.now, env.settings, rec, newR, rec.trackingResult)
      else []
  }

  /** `checkTrackingStatus(rec)`: the lookup, then on a detected change the
      update of the stored record and the notifications; any error ends the
      check. It takes no time. */
  function CheckSpec(net: Network, env: Env, w: World, rec: Record): World {
    World(CheckEntry(net, env, w, rec),
          (w.requests + QueryLog(env.apiKey, rec.carrierCode, rec.trackingNumber)) + CheckSent(net, env, w, rec),
          w.now)
  }

  /** The body of `checkAllTrackings` over `l`: each record checked in list
      order, with the wait after each. */
  function TickSpec(net: Network, env: Env, w: World, l: seq<Record>): World
    decreases |l|
  {
    if l == [] then w
    else
      var before := TickSpec(net, env, w, l[..|l| - 1]);
      var after := CheckSpec(net, env, before, l[|l| - 1]);
      after.(now := after.now + RequestSpacingMs)
  }

  /** One more record checked and waited for extends the tick by that record. */
  lemma TickStep(net: Network, env: Env, w: World, l: seq<Record>, i: nat, before: World, mid: World)
    requires i < |l|
    requires before == TickSpec(net, env, w, l[..i])
    requires mid == CheckSpec(net, env, before, l[i])
    ensures mid.(now := mid.now + RequestSpacingMs) == TickSpec(net, env, w, l[..i + 1])
  {
    assert l[..i + 1][..i] == l[..i];
  }

  /** A check writes to the store or notifies only when the fetch succeeded
      with a result the detector calls a change; otherwise it only records
      the query. */
  lemma UnchangedResultNoWrite(net: Network, env: Env, w: World, rec: Record)
    requires var reply := TrackReply(net, env.apiKey, w.now, rec.carrierCode, rec.trackingNumber);
             reply.FetchError? || !DetectStatusChange(rec.trackingResult, Some(reply.result))
    ensures CheckSpec(net, env, w, rec)
            == w.(requests := w.requests + QueryLog(env.apiKey, rec.carrierCode, rec.trackingNumber))
  {
  }

  /** A shipment whose result comes back as stored is neither rewritten nor
      notified about, however long it has been stuck. */
  lemma StuckShipmentIsQuiet(net: Network, env: Env, w: World, rec: Record)
    requires rec.trackingResult.Some?
    requires TrackReply(net, env.apiKey, w.now, rec.carrierCode, rec.trackingNumber) == Fetched(rec.trackingResult.value)
    ensures CheckSpec(net, env, w, rec).entry == w.entry
    ensures CheckSpec(net, env, w, rec).requests
            == w.requests + QueryLog(env.apiKey, rec.carrierCode, rec.trackingNumber)
  {
    SameObservationNoChange(rec.trackingResult.value, rec.trackingResult.value);
  }

  /** A tick waits once per record. */
  lemma {:induction false} TickTime(net: Network, env: Env, w: World, l: seq<Record>)
    ensures TickSpec(net, env, w, l).now == w.now + RequestSpacingMs * |l|
  {
    if l != [] {
      TickTime(net, env, w, l[..|l| - 1]);
    }
  }

  /** The tracking queries in a request log, in order. */
  function Queries(q: seq<Request>): (r: seq<Request>)
    ensures |r| <= |q|
    ensures forall i :: 0 <= i < |r| ==> r[i].TrackingQuery?
  {
    if q == [] then []
    else Queries(q[..|q| - 1]) + (if q[|q| - 1].TrackingQuery? then [q[|q| - 1]] else [])
  }

  lemma {:induction false} QueriesAppend(a: seq<Request>, b: seq<Request>)
    ensures Queries(a + b) == Queries(a) + Queries(b)
    decreases |b|
  {
    if b == [] {
      assert a + b == a;
    } else {
      assert (a + b)[..|a + b| - 1] == a + b[..|b| - 1];
      QueriesAppend(a, b[..|b| - 1]);
    }
  }

  lemma {:induction false} QueriesOfPosts(q: seq<Request>)
    requires OnlyPosts(q)
    ensures Queries(q) == []
  {
    if q != [] {
      QueriesOfPosts(q[..|q| - 1]);
    }
  }

  /** The queries a tick over `l` should make: one per record, in list order,
      when an API key is stored. */
  function QueriesFor(apiKey: Option<string>, l: seq<Record>): (r: seq<Request>)
    ensures HasKey(apiKey) ==> |r| == |l|
    ensures !HasKey(apiKey) ==> r == []
  {
    if l == [] then []
    else QueriesFor(apiKey, l[..|l| - 1]) + QueryLog(apiKey, l[|l| - 1].carrierCode, l[|l| - 1].trackingNumber)
  }

  /** One check adds exactly its record's query to the queries sent. */
  lemma CheckQueries(net: Network, env: Env, w: World, rec: Record)
    ensures Queries(CheckSpec(net, env, w, rec).requests)
            == Queries(w.requests) + QueryLog(env.apiKey, rec.carrierCode, rec.trackingNumber)
  {
    var log := QueryLog(env.apiKey, rec.carrierCode, rec.trackingNumber);
    var sent := CheckSent(net, env, w, rec);
    QueriesAppend(w.requests, log);
    assert Queries(log) == log by {
      if log != [] {
        assert log[..0] == [];
      }
    }
    QueriesOfPosts(sent);
    QueriesAppend(w.requests + log, sent);
  }

  /** The queries for a list are those for all but its last record,
      followed by the last record's. */
  lemma QueriesForStep(apiKey: Option<string>, l: seq<Record>)
    requires l != []
    ensures QueriesFor(apiKey, l)
            == QueriesFor(apiKey, l[..|l| - 1]) + QueryLog(apiKey, l[|l| - 1].carrierCode, l[|l| - 1].trackingNumber)
  {
  }

  /** The requests of a tick are those it made before its last check,
      followed by what that check adds. */
  lemma TickRequests(net: Network, env: Env, w: World, l: seq<Record>)
    requires l != []
    ensures TickSpec(net, env, w, l).requests
            == CheckSpec(net, env, TickSpec(net, env, w, l[..|l| - 1]), l[|l| - 1]).requests
  {
  }

  /** A tick queries every record of the list it read, in list order, even
      when earlier records failed. */
  lemma {:induction false} TickQueriesEveryRecord(net: Network, env: Env, w: World, l: seq<Record>)
    ensures Queries(TickSpec(net, env, w, l).requests) == Queries(w.requests) + QueriesFor(env.apiKey, l)
  {
    if l == [] {
    } else {
      var init, rec := l[..|l| - 1], l[|l| - 1];
      TickQueriesEveryRecord(net, env, w, init);
      CheckQueries(net, env, TickSpec(net, env, w, init), rec);
      TickRequests(net, env, w, l);
      QueriesForStep(env.apiKey, l);
      AppendAssoc(Queries(w.requests), QueriesFor(env.apiKey, init),
                  QueryLog(env.apiKey, rec.carrierCode, rec.trackingNumber));
    }
  }

  function Numbers(l: seq<Record>): (r: seq<string>)
    ensures |r| == |l|
    ensures forall i :: 0 <= i < |l| ==> r[i] == l[i].trackingNumber
  {
    if l == [] then [] else [l[0].trackingNumber] + Numbers(l[1..])
  }

  /** A tick keeps the stored list's length, order and tracking numbers. */
  lemma {:induction false} TickKeepsNumbers(net: Network, env: Env, w: World, l: seq<Record>)
    ensures Numbers(Records(TickSpec(net, env, w, l).entry)) == Numbers(Records(w.entry))
  {
    if l != [] {
      var init := l[..|l| - 1];
      TickKeepsNumbers(net, env, w, init);
      var before := TickSpec(net, env, w, init);
      var rec := l[|l| - 1];
      var after := CheckSpec(net, env, before, rec);
      if after.entry != before.entry {
        var old_ := Records(before.entry);
        var new_ := Records(after.entry);
        assert |new_| == |old_|;
        forall i | 0 <= i < |old_| ensures new_[i].trackingNumber == old_[i].trackingNumber {
        }
        assert Numbers(new_) == Numbers(old_);
      }
    }
  }

  // ---------------------------------------------------------------------
  // The service object

  datatype Status = Status(isRunning: bool, intervalId: Option<nat>)

  function EnvOf(ls: LocalStorage): Env
    reads ls
  {
    Env(ls.apiKey, ls.writable, GetSettings(ls))
  }

  function WorldOf(ls: LocalStorage, net: Network, clock: Clock): World
    reads ls, net, clock
  {
    World(ls.trackingEntry, net.requests, clock.now)
  }

  class MonitoringService {
    var intervalId: Option<nat>
    var isRunning: bool

    /** Between calls the service is running exactly when it holds a timer,
        and it is the only owner of the timers it is given. */
    ghost predicate Valid(timers: Timers)
      reads this, timers
    {
      && timers.Valid()
      && (isRunning <==> intervalId.Some?)
      && timers.active.Keys == (if intervalId.Some? then {intervalId.value} else {})
    }

    constructor ()
      ensures intervalId == None && !isRunning
    {
      intervalId := None;
      isRunning := false;
    }

    /** `getStatus()` */
    function GetStatus(): (s: Status)
      reads this
      ensures s.isRunning == isRunning && s.intervalId == intervalId
    {
      Status(isRunning, intervalId)
    }

    /** `start()`: a no-op when running; refuses without a webhook URL;
        otherwise runs one tick at once and registers one repeating timer of
        `monitoringInterval` minutes. */
    method Start(ls: LocalStorage, net: Network, clock: Clock, timers: Timers)
      requires Valid(timers)
      modifies this, timers, ls`trackingEntry, net`requests, clock
      ensures Valid(timers)
      ensures old(isRunning) || old(GetSettings(ls)).slackWebhookUrl == "" ==>
        && isRunning == old(isRunning) && intervalId == old(intervalId)
        && timers.active == old(timers.active)
        && WorldOf(ls, net, clock) == old(WorldOf(ls, net, clock))
      ensures !old(isRunning) && old(GetSettings(ls)).slackWebhookUrl != "" ==>
        && isRunning && intervalId.Some? && intervalId.value !in old(timers.active)
        && timers.active == old(timers.active)[intervalId.value := old(GetSettings(ls)).monitoringInterval * 60 * 1000]
        && WorldOf(ls, net, clock)
           == TickSpec(net, old(EnvOf(ls)), old(WorldOf(ls, net, clock)), old(GetTrackingData(ls)))
      ensures isRunning ==> |timers.active| == 1
    {
      if isRunning {
        return;
      }
      var settings := GetSettings(ls);
      if settings.slackWebhookUrl == "" {
        return;
      }
      isRunning := true;
      var intervalMs := settings.monitoringInterval * 60 * 1000;
      CheckAllTrackings(ls, net, clock);
      var handle := timers.SetInterval(intervalMs);
      intervalId := Some(handle);
      assert timers.active.Keys == {handle};
    }

    /** `stop()`: clears the timer if there is one; idempotent. */
    method Stop(timers: Timers)
      requires Valid(timers)
      modifies this, timers
      ensures Valid(timers)
      ensures !isRunning && intervalId == None
      ensures timers.active == (if old(intervalId).Some? then old(timers.active) - {old(intervalId).value}
                                else old(timers.active))
      ensures timers.active == map[]
    {
      if intervalId.Some? {
        timers.ClearInterval(intervalId.value);
        intervalId := None;
      }
      isRunning := false;
    }

    /** `checkAllTrackings()`: the list is read once; each of its records is
        checked in order, with a one-second wait after each. */
    method CheckAllTrackings(ls: LocalStorage, net: Network, clock: Clock)
      modifies ls`trackingEntry, net`requests, clock
      ensures WorldOf(ls, net, clock)
              == TickSpec(net, old(EnvOf(ls)), old(WorldOf(ls, net, clock)), old(GetTrackingData(ls)))
    {
      var trackingList := GetTrackingData(ls);
      if |trackingList| == 0 {
        return;
      }
      ghost var env := EnvOf(ls);
      ghost var w0 := WorldOf(ls, net, clock);
      var i := 0;
      while i < |trackingList|
        invariant 0 <= i <= |trackingList|
        invariant EnvOf(ls) == env
        invariant WorldOf(ls, net, clock) == TickSpec(net, env, w0, trackingList[..i])
      {
        ghost var before := WorldOf(ls, net, clock);
        CheckTrackingStatus(ls, net, clock, trackingList[i]);
        ghost var mid := WorldOf(ls, net, clock);
        clock.Wait(RequestSpacingMs);
        TickStep(net, env, w0, trackingList, i, before, mid);
        i := i + 1;
      }
      assert trackingList[..i] == trackingList;
    }

    /** `checkTrackingStatus(trackingData)` */
    method CheckTrackingStatus(ls: LocalStorage, net: Network, clock: Clock, trackingData: Record)
      modifies ls`trackingEntry, net`requests
      ensures WorldOf(ls, net, clock) == CheckSpec(net, EnvOf(ls), old(WorldOf(ls, net, clock)), trackingData)
    {
      var currentResult := trackingData.trackingResult;
      var reply := TrackDelivery(ls, net, clock.now, trackingData.carrierCode, trackingData.trackingNumber);
      if reply.FetchError? {
        return;
      }
      var newResult := reply.result;
      var statusChanged := DetectStatusChange(currentResult, Some(newResult));
      if statusChanged {
        var updatedData := trackingData.(trackingResult := Some(newResult), lastUpdated := clock.now);
        var _ := UpdateTrackingData(ls, trackingData.trackingNumber, Patch(updatedData));
        SendNotifications(ls, net, clock.now, trackingData, newResult, currentResult);
      }
    }

    /** `sendNotifications(trackingData, newResult, oldResult)`: each enabled
        notification in turn; the first send that throws ends the attempt. */
    method SendNotifications(ls: LocalStorage, net: Network, now: int, trackingData: Record,
                             newResult: TrackingResult, oldResult: Option<TrackingResult>)
      modifies net`requests
      ensures net.requests
              == old(net.requests) + NotificationRequests(net, now, GetSettings(ls), trackingData, newResult, oldResult)
    {
      var settings := GetSettings(ls);
      var url := settings.slackWebhookUrl;
      if url == "" {
        return;
      }
      var onShipment := settings.notifyOnShipment && IsFirstShipment(newResult, oldResult);
      var onDelivery := settings.notifyOnDelivery && JustDelivered(newResult, oldResult);
      var onDelay := settings.notifyOnDelay && IsDelayed(trackingData, now);
      var onException := settings.notifyOnException && HasException(newResult);
      ghost var plan := PlanFor(net, now, RouteOf(net, url), trackingData);
      SendInOrder(net, now, url, trackingData, onShipment, onDelivery, onDelay, onException, plan);
    }

    /** The four blocks of `sendNotifications`, in the source's order. */
    method SendInOrder(net: Network, now: int, url: string, rec: Record,
                       onShipment: bool, onDelivery: bool, onDelay: bool, onException: bool, ghost plan: Plan)
      requires plan == PlanFor(net, now, RouteOf(net, url), rec)
      modifies net`requests
      ensures net.requests == old(net.requests) + Dispatch(plan, Gates(onShipment, onDelivery, onDelay, onException))
    {
      ghost var last := Gate(onException, Exception) + [];
      ghost var fromDelay := Gate(onDelay, Delay) + last;
      ghost var fromDelivery := Gate(onDelivery, Delivery) + fromDelay;
      assert last == Gate(onException, Exception);
      ghost var log0 := net.requests;
      var threw := SendIfDue(net, now, url, onShipment, rec, Shipment, plan);
      DispatchStep(plan, onShipment, Shipment, fromDelivery, log0, net.requests, threw);
      if threw {
        return;
      }
      ghost var log1 := net.requests;
      threw := SendIfDue(net, now, url, onDelivery, rec, Delivery, plan);
      DispatchStep(plan, onDelivery, Delivery, fromDelay, log1, net.requests, threw);
      if threw {
        return;
      }
      ghost var log2 := net.requests;
      threw := SendIfDue(net, now, url, onDelay, rec, Delay, plan);
      DispatchStep(plan, onDelay, Delay, last, log2, net.requests, threw);
      if threw {
        return;
      }
      ghost var log3 := net.requests;
      threw := SendIfDue(net, now, url, onException, rec, Exception, plan);
      DispatchStep(plan, onException, Exception, [], log3, net.requests, threw);
    }

    /** One block of `sendNotifications`: when the rule holds, send the
        notification of category `c` about `rec`; `threw` says whether the
        attempt ends here. */
    method SendIfDue(net: Network, now: int, url: string, due: bool, rec: Record, c: Category, ghost plan: Plan)
      returns (threw: bool)
      requires plan == PlanFor(net, now, RouteOf(net, url), rec)
      modifies net`requests
      ensures threw == (due && Of(plan, c).threw)
      ensures net.requests == old(net.requests) + (if due then Of(plan, c).sent else [])
    {
      PlanAttempt(net, now, RouteOf(net, url), rec, c);
      threw := false;
      if due {
        var r := SendSlackNotification(net, now, url, NotificationFor(c, rec));
        threw := r.Threw?;
      }
    }
  }
}
