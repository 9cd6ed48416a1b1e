/**
 * The message each command sends and the per-recipient sends of
 * sendNotification. The clock reading is an input (its RFC 822 text), and
 * the network send is represented by the request it would carry.
 */
module Notify {
  import opened Strings

  const Title := "Mobell \U{1F514}"
  const TriggeredPrefix := "Triggered at "

  /** The priority levels of the notification service, lowest to highest. */
  datatype Priority = Lowest | Low | Normal | High | Emergency

  datatype Message = Message(body: string, title: string, priority: Priority)

  /** pushover.NewMessageWithTitle: a message at normal priority. */
  function NewMessageWithTitle(body: string, title: string): Message
  {
    Message(body, title, Normal)
  }

  /** The default body, "Triggered at " followed by the time of the call in RFC 822 form. */
  function DefaultBody(timestamp: string): (body: string)
    ensures HasPrefix(body, TriggeredPrefix) && body[|TriggeredPrefix|..] == timestamp
  {
    TriggeredPrefix + timestamp
  }

  /** The body `push` sends: its first argument if it has one, otherwise the default. */
  function PushBody(args: seq<string>, timestamp: string): string
  {
    if |args| > 0 then args[0] else DefaultBody(timestamp)
  }

  /** The message of the root command. */
  function RootMessage(timestamp: string): Message
  {
    NewMessageWithTitle(DefaultBody(timestamp), Title)
  }

  /** The message of `push`. */
  function PushMessage(args: seq<string>, timestamp: string): Message
  {
    NewMessageWithTitle(PushBody(args, timestamp), Title)
  }

  /**
   * `push` with an argument sends exactly that text, whatever the time;
   * without one it sends what the root command sends, a body from which
   * the time it was sent can be read back, so distinct times give distinct
   * messages. Both carry the fixed title.
   */
  lemma PushMessageChoice(args: seq<string>, timestamp: string, timestamp': string)
    ensures PushMessage(args, timestamp).title == Title == RootMessage(timestamp).title
    ensures |args| > 0 ==>
      PushMessage(args, timestamp).body == args[0] && PushMessage(args, timestamp) == PushMessage(args, timestamp')
    ensures |args| == 0 ==> PushMessage(args, timestamp) == RootMessage(timestamp)
    ensures |args| == 0 ==> HasPrefix(PushMessage(args, timestamp).body, TriggeredPrefix)
    ensures |args| == 0 ==> PushMessage(args, timestamp).body[|TriggeredPrefix|..] == timestamp
    ensures |args| == 0 && timestamp != timestamp' ==> PushMessage(args, timestamp) != PushMessage(args, timestamp')
  {
    if |args| == 0 {
      assert PushMessage(args, timestamp).body[|TriggeredPrefix|..] == timestamp;
      assert PushMessage(args, timestamp').body[|TriggeredPrefix|..] == timestamp';
    }
  }

  /** One call of the notification service: who is notified, with which key, of what. */
  datatype SendRequest = SendRequest(apiKey: string, recipient: string, message: Message)

  /**
   * sendNotification, one send after another: the message is raised to high
   * priority and sent once to every recipient, in list order; the count it
   * reports is the number of recipients.
   */
  method SendNotification(message: Message, apiKey: string, recipients: seq<string>)
    returns (requests: seq<SendRequest>, reported: nat)
    ensures |requests| == |recipients| && reported == |recipients|
    ensures forall i :: 0 <= i < |requests| ==>
      requests[i] == SendRequest(apiKey, recipients[i], message.(priority := High))
  {
    var urgent := message.(priority := High);
    requests := [];
    for i := 0 to |recipients|
      invariant |requests| == i
      invariant forall k :: 0 <= k < i ==> requests[k] == SendRequest(apiKey, recipients[k], urgent)
    {
      requests := requests + [SendRequest(apiKey, recipients[i], urgent)];
    }
    reported := |recipients|;
  }
}
