/**
  `freightNotificationWorkflow` from src/workflows/freightNotification.ts as
  the ordered list of activity calls it makes. The results of the two
  activities it awaits, the fetched delay and the composed message, are
  inputs.
 */
module FreightWorkflow {
  import opened Wrappers
  import opened JsText
  import opened Notifications

  /** An activity invocation, with its arguments. */
  datatype Activity =
    | FetchTrafficDelay(origin: string, destination: string)
    | GenerateAIMessage(delayMinutes: real)
    | SendNotification(recipientType: string, recipient: Recipient, subject: string, message: string)

  const SubjectPrefix: string := "Freight Delay Notification: "

  /** The subject line of the notification for a route. */
  function Subject(origin: string, destination: string): (s: string)
    ensures |s| == |SubjectPrefix| + |origin| + |" to "| + |destination|
    ensures s[..|SubjectPrefix|] == SubjectPrefix
    ensures s[|SubjectPrefix|..|SubjectPrefix| + |origin|] == origin
    ensures s[|SubjectPrefix| + |origin|..|s| - |destination|] == " to "
    ensures s[|s| - |destination|..] == destination
  {
    SubjectPrefix + origin + " to " + destination
  }

  /** The workflow's send guard: strictly over the threshold, notifications on, a channel named and a recipient given. */
  function ShouldSend(delay: real, threshold: real, notify: bool, recipientType: Option<string>,
                       recipient: Option<Recipient>): (b: bool)
    ensures b ==> delay > threshold && recipientType.Some? && recipient.Some?
    ensures !notify || recipientType == Some("") ==> !b
  {
    delay > threshold && notify && Truthy(recipientType) && recipient.Some?
  }

  /**
    The activity calls of one execution, in order. `delay` is what the fetch
    returned and `message` what the composition returned.
   */
  function FreightNotificationWorkflow(origin: string, destination: string, threshold: real, notify: bool,
                                       recipientType: Option<string>, recipient: Option<Recipient>,
                                       delay: real, message: string): (trace: seq<Activity>)
    ensures 1 <= |trace| <= 3
    ensures trace[0] == FetchTrafficDelay(origin, destination)
    ensures delay < threshold <==> trace == [FetchTrafficDelay(origin, destination)]
    ensures delay >= threshold ==> trace[1] == GenerateAIMessage(delay)
    ensures |trace| == 3 <==> ShouldSend(delay, threshold, notify, recipientType, recipient)
    ensures |trace| == 3 ==>
      trace[2] == SendNotification(recipientType.value, recipient.value, Subject(origin, destination), message)
  {
    var fetch := [FetchTrafficDelay(origin, destination)];
    if delay < threshold then fetch
    else
      var composed := fetch + [GenerateAIMessage(delay)];
      if delay > threshold && notify && Truthy(recipientType) && recipient.Some? then
        composed + [SendNotification(recipientType.value, recipient.value, Subject(origin, destination), message)]
      else composed
  }

  /** Number of calls in a trace that satisfy `isKind`. */
  function Count(trace: seq<Activity>, isKind: Activity -> bool): (n: nat)
    ensures n <= |trace|
  {
    if |trace| == 0 then 0 else Count(trace[..|trace| - 1], isKind) + (if isKind(trace[|trace| - 1]) then 1 else 0)
  }

  /** `Count` is the number of positions in the trace holding a call of the kind. */
  lemma {:induction false} CountIsCardinality(trace: seq<Activity>, isKind: Activity -> bool)
    ensures Count(trace, isKind) == |set i | 0 <= i < |trace| && isKind(trace[i])|
    decreases |trace|
  {
    if |trace| > 0 {
      var front := trace[..|trace| - 1];
      CountIsCardinality(front, isKind);
      var before := set i | 0 <= i < |front| && isKind(front[i]);
      var all := set i | 0 <= i < |trace| && isKind(trace[i]);
      if isKind(trace[|trace| - 1]) {
        assert all == before + {|trace| - 1};
      } else {
        assert all == before;
      }
    }
  }

  /**
    The fetch is made exactly once; the composition at most once; at most one
    notification is sent, and it carries the composed message.
   */
  lemma CallCounts(origin: string, destination: string, threshold: real, notify: bool,
                   recipientType: Option<string>, recipient: Option<Recipient>, delay: real, message: string)
    ensures var t := FreightNotificationWorkflow(origin, destination, threshold, notify, recipientType, recipient, delay, message);
      && Count(t, (a: Activity) => a.FetchTrafficDelay?) == 1
      && Count(t, (a: Activity) => a.GenerateAIMessage?) == (if delay >= threshold then 1 else 0)
      && Count(t, (a: Activity) => a.SendNotification?) <= 1
      && forall i :: 0 <= i < |t| && t[i].SendNotification? ==> t[i].message == message
  {
    var t := FreightNotificationWorkflow(origin, destination, threshold, notify, recipientType, recipient, delay, message);
    var isFetch := (a: Activity) => a.FetchTrafficDelay?;
    var isCompose := (a: Activity) => a.GenerateAIMessage?;
    var isSend := (a: Activity) => a.SendNotification?;
    CountIsCardinality(t, isFetch);
    CountIsCardinality(t, isCompose);
    CountIsCardinality(t, isSend);
    assert (set i | 0 <= i < |t| && isFetch(t[i])) == {0};
    if delay >= threshold {
      assert (set i | 0 <= i < |t| && isCompose(t[i])) == {1};
    } else {
      assert (set i | 0 <= i < |t| && isCompose(t[i])) == {};
    }
    if |t| == 3 {
      assert (set i | 0 <= i < |t| && isSend(t[i])) == {2};
    } else {
      assert (set i | 0 <= i < |t| && isSend(t[i])) == {};
    }
  }

  /**
    A delay equal to the threshold passes the skip test, so a message is
    composed, but fails the strict send guard, so nothing is sent.
   */
  lemma EqualDelayComposesWithoutSending(origin: string, destination: string, threshold: real, notify: bool,
                                         recipientType: Option<string>, recipient: Option<Recipient>, message: string)
    ensures FreightNotificationWorkflow(origin, destination, threshold, notify, recipientType, recipient, threshold, message)
         == [FetchTrafficDelay(origin, destination), GenerateAIMessage(threshold)]
  {
  }

  /** With notifications switched off, a delay at or over the threshold is still composed but never sent. */
  lemma NotifyOffStillComposes(origin: string, destination: string, threshold: real,
                               recipientType: Option<string>, recipient: Option<Recipient>, delay: real, message: string)
    requires delay >= threshold
    ensures FreightNotificationWorkflow(origin, destination, threshold, false, recipientType, recipient, delay, message)
         == [FetchTrafficDelay(origin, destination), GenerateAIMessage(delay)]
  {
  }
}
