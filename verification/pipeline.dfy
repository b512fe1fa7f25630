/**
  One execution of the workflow with its three activities plugged in: the
  traffic lookup, the message composition and the dispatch, each driven by
  the external answers in an `Environment`.
 */
module Pipeline {
  import opened Wrappers
  import opened JsText
  import TrafficInfo
  import AiMessage
  import opened Notifications
  import FreightWorkflow

  /** The answers of every external service and the configuration of every client. */
  datatype Environment = Environment(
    traffic: TrafficInfo.TrafficEnv,
    ai: AiMessage.AiConfig,
    chat: AiMessage.ChatResponse,
    transport: TransportConfig)

  /** What one execution did: its activity calls and what each activity in turn did. */
  datatype Execution = Execution(
    activities: seq<FreightWorkflow.Activity>,
    fetch: TrafficInfo.TrafficFetch,
    composition: Option<AiMessage.Composition>,
    dispatch: Option<Dispatch>)

  /** Runs `freightNotificationWorkflow` against the activity models. */
  function RunWorkflow(origin: string, destination: string, threshold: real, notify: bool,
                       recipientType: Option<string>, recipient: Option<Recipient>, env: Environment): (x: Execution)
    ensures x.fetch == TrafficInfo.FetchTrafficDelay(origin, destination, env.traffic)
    ensures x.composition.Some? <==> x.fetch.delayMinutes >= threshold
    ensures x.composition.Some? ==>
      x.composition.value == AiMessage.GenerateAIMessage(x.fetch.delayMinutes, env.ai, env.chat)
    ensures x.activities == FreightWorkflow.FreightNotificationWorkflow(
      origin, destination, threshold, notify, recipientType, recipient, x.fetch.delayMinutes,
      if x.composition.Some? then x.composition.value.message else "")
    ensures x.dispatch.Some? <==> FreightWorkflow.ShouldSend(x.fetch.delayMinutes, threshold, notify, recipientType, recipient)
    ensures x.dispatch.Some? ==>
      x.dispatch.value == SendNotification(recipientType.value, recipient.value, FreightWorkflow.Subject(origin, destination),
                                           x.composition.value.message, env.transport)
  {
    var fetched := TrafficInfo.FetchTrafficDelay(origin, destination, env.traffic);
    var delay := fetched.delayMinutes;
    var composition :=
      if delay >= threshold then Some(AiMessage.GenerateAIMessage(delay, env.ai, env.chat)) else None;
    var message := if composition.Some? then composition.value.message else "";
    var trace := FreightWorkflow.FreightNotificationWorkflow(origin, destination, threshold, notify, recipientType, recipient, delay, message);
    var dispatch :=
      if |trace| == 3 then
        Some(SendNotification(trace[2].recipientType, trace[2].recipient, trace[2].subject, trace[2].message, env.transport))
      else None;
    Execution(trace, fetched, composition, dispatch)
  }

  /**
    Whatever is handed to a transport went out under the route's subject (for
    email) and with the message the composition returned, and only after a
    delay strictly over the threshold.
   */
  lemma DeliveredPayload(origin: string, destination: string, threshold: real, notify: bool,
                         recipientType: Option<string>, recipient: Option<Recipient>, env: Environment)
    ensures var x := RunWorkflow(origin, destination, threshold, notify, recipientType, recipient, env);
      x.dispatch.Some? && x.dispatch.value.Sent? ==>
        && x.fetch.delayMinutes > threshold
        && x.composition.Some?
        && (x.dispatch.value.call.EmailSend? ==>
              && x.dispatch.value.call.subject == FreightWorkflow.Subject(origin, destination)
              && x.dispatch.value.call.text == x.composition.value.message
              && recipientType == Some(EmailType))
        && (x.dispatch.value.call.SmsSend? ==>
              && x.dispatch.value.call.body == x.composition.value.message
              && recipientType == Some(SmsType))
  {
  }

  /**
    When the traffic lookup falls back to `0` (no token, or a place that does
    not resolve), a non-negative threshold means no notification is sent.
   */
  lemma FallbackNeverNotifies(origin: string, destination: string, threshold: real, notify: bool,
                              recipientType: Option<string>, recipient: Option<Recipient>, env: Environment)
    requires threshold >= 0.0
    requires || !Truthy(env.traffic.accessToken)
             || TrafficInfo.GetCoordinates(env.traffic.originGeocode).None?
             || TrafficInfo.GetCoordinates(env.traffic.destinationGeocode).None?
    ensures RunWorkflow(origin, destination, threshold, notify, recipientType, recipient, env).dispatch.None?
  {
  }

  /** Mapbox answers under which Dublin to Limerick is 20 minutes late: a 40-minute route at 50% congestion. */
  function DublinLimerickTraffic(): TrafficInfo.TrafficEnv {
    var dublin := TrafficInfo.Coordinates(-6.26, 53.35);
    var limerick := TrafficInfo.Coordinates(-8.63, 52.66);
    var route := TrafficInfo.Route(2400.0, Some([TrafficInfo.Leg(Some([50.0]))]));
    TrafficInfo.TrafficEnv(Some("token"),
                           TrafficInfo.GeocodeBody(Some([dublin])),
                           TrafficInfo.GeocodeBody(Some([limerick])),
                           TrafficInfo.DirectionsBody(Some([route])))
  }

  /** The traffic lookup of the scenario yields 20 minutes. */
  lemma DublinLimerickDelay()
    ensures TrafficInfo.FetchTrafficDelay("Dublin", "Limerick", DublinLimerickTraffic()).delayMinutes == 20.0
  {
    var levels := [50.0];
    assert levels[..0] == [];
    assert TrafficInfo.Sum(levels) == 50.0;
    assert TrafficInfo.DelayFromRoute(2400.0, levels) == 20.0;
  }

  /** The subject line of the scenario, spelled out. */
  lemma DublinLimerickSubject()
    ensures FreightWorkflow.Subject("Dublin", "Limerick") == "Freight Delay Notification: Dublin to Limerick"
  {
  }

  /**
    The end-to-end scenario: a 20-minute delay against a 15-minute threshold,
    with SendGrid configured, sends exactly one email, to the recipient, under
    the route's subject and carrying the composed message, whatever the
    text-generation service answers.
   */
  lemma DublinLimerickScenario(env: Environment)
    requires env.traffic == DublinLimerickTraffic()
    requires SendGridConfigured(env.transport)
    ensures var x := RunWorkflow("Dublin", "Limerick", 15.0, true, Some(EmailType),
                                 Some(Recipient(Some("a@b.com"), None)), env);
      && x.fetch.delayMinutes == 20.0
      && |x.activities| == 3
      && x.composition.Some?
      && x.dispatch == Some(Sent(EmailSend("a@b.com", env.transport.sendGridFromEmail.value,
                                           "Freight Delay Notification: Dublin to Limerick",
                                           x.composition.value.message)))
  {
    DublinLimerickDelay();
    DublinLimerickSubject();
  }

  /** The same request with notifications off composes a message but sends nothing. */
  lemma DublinLimerickNotifyOff(env: Environment)
    requires env.traffic == DublinLimerickTraffic()
    ensures var x := RunWorkflow("Dublin", "Limerick", 15.0, false, Some(EmailType),
                                 Some(Recipient(Some("a@b.com"), None)), env);
      && |x.activities| == 2
      && x.composition.Some?
      && x.dispatch.None?
  {
    DublinLimerickDelay();
  }
}
