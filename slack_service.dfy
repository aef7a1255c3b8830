/** src/services/slackService.js: building the webhook payload, choosing the
    URL, posting, and mapping the error a failed post raises. */
module SlackService {
  import opened Model
  import opened Text
  import opened Browser

  const DefaultText := "배송 상태 알림"
  const Footer := "택배 배송 상태 조회 서비스"
  const MissingWebhookMessage := "슬랙 웹후크 URL이 설정되지 않았습니다."
  const BrowserPolicyMessage := "브라우저 보안 정책으로 " + "인해 직접 전송할 수 " + "없습니다. 웹후크 " + "URL이 올바른지 확인해주세요."
  const SlackHost := "https://hooks.slack.com"
  const ProxyPath := "/api/slack-proxy"

  /** The object handed to `sendSlackNotification`: `{ text, type, trackingData }`. */
  datatype Notification = Notification(text: Option<string>, kind: string, trackingData: Option<Record>)

  /** What `sendSlackNotification` does with its promise. */
  datatype SendResult = Sent | Threw(message: string)

  /** `getColorByType`: five fixed colours, grey for anything else. */
  function ColorByType(kind: string): string {
    match kind
    case "shipment" => "#3498db"
    case "delay" => "#f39c12"
    case "delivery" => "#27ae60"
    case "exception" => "#e74c3c"
    case "test" => "#9b59b6"
    case _ => "#95a5a6"
  }

  /** The five known types get five different colours, none of them the
      grey every other type gets. */
  lemma ColorsDistinguishTypes(a: string, b: string)
    requires a in {"shipment", "delay", "delivery", "exception", "test"}
    requires b in {"shipment", "delay", "delivery", "exception", "test"}
    ensures ColorByType(a) == ColorByType(b) <==> a == b
    ensures ColorByType(a) != ColorByType("")
  {
  }

  /** This file's `getStatusText`: it knows only "no result", "complete" and
      "not complete"; a result without steps still reads '배송중'. */
  function StatusText(r: Option<TrackingResult>): (t: string)
    ensures r.None? ==> t == "정보 없음"
    ensures r.Some? && r.value.complete ==> t == "배송완료"
    ensures r.Some? && !r.value.complete ==> t == "배송중"
  {
    if r.None? then "정보 없음"
    else if r.value.complete then "배송완료"
    else "배송중"
  }

  /** The `messages` table of `createNotificationMessage`. */
  function TitleByType(kind: string): string {
    match kind
    case "shipment" => "🚚 출고 알림"
    case "delay" => "⏰ 출고지연 알림"
    case "delivery" => "✅ 배송완료 알림"
    case "exception" => "⚠️ 배송예외 알림"
    case _ => "📦 배송 상태 알림"
  }

  /** `createNotificationMessage(type, trackingData)`: a titled notification
      that carries the type and the record through unchanged. */
  function CreateNotificationMessage(kind: string, rec: Record): (n: Notification)
    ensures n.kind == kind && n.trackingData == Some(rec)
    ensures n.text.Some?
  {
    Notification(Some(TitleByType(kind)), kind, Some(rec))
  }

  /** Each of the four monitoring types gets its own title, none of them the
      generic one, and a created notification is never sent with the
      default text. */
  lemma TitlesDistinguishTypes(a: string, b: string, rec: Record)
    requires a in {"shipment", "delay", "delivery", "exception"}
    requires b in {"shipment", "delay", "delivery", "exception"}
    ensures TitleByType(a) == TitleByType(b) <==> a == b
    ensures TitleByType(a) != TitleByType("")
    ensures SlackPayload(CreateNotificationMessage(a, rec)).text == TitleByType(a)
  {
  }

  /** The identity fields every record attachment starts with. */
  function HeadFields(rec: Record): seq<Field> {
    [Field("송장번호", rec.trackingNumber, true),
     Field("택배사", rec.carrierName, true),
     Field("현재 상태", StatusText(rec.trackingResult), true)]
  }

  /** The fields describing the last checkpoint: its location, then its
      time when the time is not empty. */
  function LastStepFields(rec: Record): seq<Field> {
    if HasSteps(rec.trackingResult) then
      var last := LastStep(rec.trackingResult.value);
      [Field("마지막 위치", last.where, false)]
        + (if last.timeString != "" then [Field("시간", last.timeString, true)] else [])
    else []
  }

  /** The payload `sendSlackNotification` builds for a notification. */
  function SlackPayload(n: Notification): SlackMessage {
    var text := if n.text.None? || n.text.value == "" then DefaultText else n.text.value;
    match n.trackingData
    case None => SlackMessage(text, [])
    case Some(rec) => SlackMessage(text, [Attachment(ColorByType(n.kind), HeadFields(rec) + LastStepFields(rec), Footer)])
  }

  /** The payload's text falls back to the default; a notification with a
      record gets one attachment in the colour of its type, with the three
      identity fields, then the last location and, when it has one, the
      last time. */
  lemma PayloadShape(n: Notification)
    ensures var m := SlackPayload(n);
      && m.text == (if n.text.None? || n.text.value == "" then DefaultText else n.text.value)
      && (n.trackingData.None? ==> m.attachments == [])
      && (n.trackingData.Some? ==>
        var rec := n.trackingData.value;
        && |m.attachments| == 1
        && m.attachments[0].color == ColorByType(n.kind)
        && m.attachments[0].footer == Footer
        && |m.attachments[0].fields| == 3 + (if HasSteps(rec.trackingResult) then
                                                if LastStep(rec.trackingResult.value).timeString != "" then 2 else 1
                                              else 0)
        && m.attachments[0].fields[..3] == HeadFields(rec)
        && (HasSteps(rec.trackingResult) ==>
              m.attachments[0].fields[3] == Field("마지막 위치", LastStep(rec.trackingResult.value).where, false))
        && (HasSteps(rec.trackingResult) && LastStep(rec.trackingResult.value).timeString != "" ==>
              m.attachments[0].fields[4] == Field("시간", LastStep(rec.trackingResult.value).timeString, true)))
  {
    if n.trackingData.Some? {
      var rec := n.trackingData.value;
      assert (HeadFields(rec) + LastStepFields(rec))[..3] == HeadFields(rec);
    }
  }

  /** The development build's URL: the first 'https://hooks.slack.com' is
      replaced by the proxy path. */
  function ProxyUrl(url: string): string {
    ReplaceFirst(url, SlackHost, ProxyPath)
  }

  /** A URL that does not mention the Slack host is left as it is. */
  lemma ProxyUrlOfOtherUrl(url: string)
    requires !Includes(url, SlackHost)
    ensures ProxyUrl(url) == url
  {
  }

  /** A Slack webhook URL is routed through the proxy with its path kept. */
  lemma ProxyUrlOfSlackUrl(path: string)
    ensures ProxyUrl(SlackHost + path) == ProxyPath + path
  {
    ReplaceFirstAtFront(SlackHost, path, ProxyPath);
  }

  /** The URL the post goes to. */
  function TargetUrl(net: Network, url: string): string {
    if net.devBuild then ProxyUrl(url) else url
  }

  predicate CorsLike(message: string) {
    Includes(message, "CORS") || Includes(message, "cross-origin") || Includes(message, "blocked")
  }

  /** The `catch` of `sendSlackNotification`: an error that looks like a
      cross-origin block is replaced by one fixed message, any other is
      rethrown as it is. */
  function MapSendError(message: string): (r: string)
    ensures CorsLike(message) ==> r == BrowserPolicyMessage
    ensures !CorsLike(message) ==> r == message
  {
    if CorsLike(message) then BrowserPolicyMessage else message
  }

  /** The fixed message does not itself look like a cross-origin block, so
      mapping an already mapped error changes nothing. */
  lemma MapSendErrorIdempotent(message: string)
    ensures MapSendError(MapSendError(message)) == MapSendError(message)
  {
    PolicyMessageLacks();
    assert "CORS"[0] == 'C' && "cross-origin"[0] == 'c' && "blocked"[0] == 'b';
    NoFirstCharNoOccurrence(BrowserPolicyMessage, "CORS");
    NoFirstCharNoOccurrence(BrowserPolicyMessage, "cross-origin");
    NoFirstCharNoOccurrence(BrowserPolicyMessage, "blocked");
  }

  /** None of the first letters of the three markers. */
  predicate Lacks(s: string) {
    forall i :: 0 <= i < |s| ==> s[i] !in {'C', 'c', 'b'}
  }

  lemma LacksAppend(a: string, b: string)
    requires Lacks(a) && Lacks(b)
    ensures Lacks(a + b)
  {
    forall i | 0 <= i < |a + b| ensures (a + b)[i] !in {'C', 'c', 'b'} {
      if i >= |a| {
        assert (a + b)[i] == b[i - |a|];
      }
    }
  }

  lemma PolicyMessageLacks()
    ensures Lacks(BrowserPolicyMessage)
  {
    var a, b, c, d := "브라우저 보안 정책으로 ", "인해 직접 전송할 수 ", "없습니다. 웹후크 ", "URL이 올바른지 확인해주세요.";
    assert Lacks(a);
    assert Lacks(b);
    assert Lacks(c);
    assert Lacks(d);
    LacksAppend(a, b);
    LacksAppend(a + b, c);
    LacksAppend(a + b + c, d);
  }

  lemma NoFirstCharNoOccurrence(s: string, p: string)
    requires p != [] && forall i :: 0 <= i < |s| ==> s[i] != p[0]
    ensures !Includes(s, p)
  {
    forall i | OccursAt(s, p, i) ensures s[i] == p[0] {
      assert s[i..i + |p|][0] == s[i];
    }
  }

  /** A webhook URL that `!webhookUrl || !webhookUrl.trim()` rejects. */
  predicate BlankUrl(url: string) {
    url == "" || Trim(url) == ""
  }

  /** What the webhook URL decides about a post: whether it is rejected
      before anything is sent, and otherwise the URL it goes to. */
  datatype Route = Route(blank: bool, target: string)

  function RouteOf(net: Network, url: string): Route {
    Route(BlankUrl(url), TargetUrl(net, url))
  }

  /** The requests one call of `sendSlackNotification` sends: nothing when
      the URL is blank, otherwise the one post. */
  function SlackRequests(route: Route, n: Notification): seq<Request> {
    if route.blank then [] else [SlackPost(route.target, SlackPayload(n))]
  }

  /** How one call of `sendSlackNotification` settles: a blank URL throws its
      own message before anything is built; an accepted post resolves; a
      refused one rejects with the mapped error. */
  function SlackResult(net: Network, now: int, route: Route, n: Notification): SendResult {
    if route.blank then Threw(MissingWebhookMessage)
    else match net.webhook(now, route.target, SlackPayload(n))
      case Accepted => Sent
      case Refused(e) => Threw(MapSendError(e))
  }

  /** `sendSlackNotification(webhookUrl, notificationData)`; the payload is
      built field by field as the source pushes into it. */
  method SendSlackNotification(net: Network, now: int, url: string, n: Notification) returns (r: SendResult)
    modifies net`requests
    ensures r == SlackResult(net, now, RouteOf(net, url), n)
    ensures net.requests == old(net.requests) + SlackRequests(RouteOf(net, url), n)
  {
    if url == "" || Trim(url) == "" {
      return Threw(MissingWebhookMessage);
    }
    var message := SlackMessage(if n.text.None? || n.text.value == "" then DefaultText else n.text.value, []);
    if n.trackingData.Some? {
      var rec := n.trackingData.value;
      var fields := [Field("송장번호", rec.trackingNumber, true),
                     Field("택배사", rec.carrierName, true),
                     Field("현재 상태", StatusText(rec.trackingResult), true)];
      if HasSteps(rec.trackingResult) {
        var last := LastStep(rec.trackingResult.value);
        fields := fields + [Field("마지막 위치", last.where, false)];
        if last.timeString != "" {
          fields := fields + [Field("시간", last.timeString, true)];
        }
      }
      assert fields == HeadFields(rec) + LastStepFields(rec);
      message := message.(attachments := message.attachments + [Attachment(ColorByType(n.kind), fields, Footer)]);
    }
    assert message == SlackPayload(n);
    var target := TargetUrl(net, url);
    net.requests := net.requests + [SlackPost(target, message)];
    var delivery := net.webhook(now, target, message);
    match delivery {
      case Accepted => r := Sent;
      case Refused(e) => r := Threw(MapSendError(e));
    }
  }
}
