/**
  From snapshots to pushes: the occurrence tokens of `Availability` as the event ids of `Delivery`.
  `text` stands for how a token is written (pbxsense_agent/pulse.py): the phone and the microsecond.
 */
module Incidents {
  import opened Common
  import opened PhoneHistory
  import opened AgentOutbox
  import Availability
  import Delivery
  import TokenIndex

  type Text = Availability.NotificationId -> string

  ghost predicate Distinguishes(text: Text) {
    forall a, b :: text(a) == text(b) ==> a == b
  }

  /** The Agent's filter fits the relay's: it sends events of active Signals that are neither tips nor live
      calls, and of those exactly the ones that some phone's preferences let through. */
  lemma RelayedIffWanted(s: Signal)
    ensures ShouldRelay(s)
       <==> && s.state == "active" && !IsTip(EventOf(s))
            && s.kind !in {"call_active", "pbx_live_calls_activity", "trunk_active", "trunk_call_active"}
            && exists prefs :: TokenIndex.Wants(prefs, EventOf(s).category, EventOf(s).importance)
    ensures EventOf(s).signalId == s.id && EventOf(s).text == s.text
  {
    if s.category == "activity" || s.importance == "attention" || s.importance == "important" {
      assert TokenIndex.Wants(TokenIndex.Prefs(true, true, 0), s.category, s.importance);
    }
  }

  /** The Signal shows the outage that is running at the end of the history. */
  predicate Reports(signal: Signal, text: Text, h: History, phone: string) {
    RunStart(h, phone, true).Some?
    && signal.notificationId == Some(text(Availability.NotificationId(phone, RunStart(h, phone, true).value)))
  }

  /** One token per outage: the event ids of two Signals about a phone are equal exactly if no reachable
      snapshot between them broke the outage. */
  lemma OneEventPerOutage(h: History, rest: History, phone: string, text: Text, first: Signal, later: Signal)
    requires StrictlyOrdered(h + rest) && Distinguishes(text)
    requires Reports(first, text, h, phone) && Reports(later, text, h + rest, phone)
    ensures EventOf(first).eventId == EventOf(later).eventId
       <==> forall j :: 0 <= j < |rest| && rest[j].reachable ==> Shows(rest[j], phone, true)
  {
    RunStartIdentifiesRun(h, rest, phone, true);
  }

  /** So each outage of a phone gets its own push: whatever was sent about earlier outages, the first
      request about this one that the relay handles starts a handler. */
  lemma EachPhoneOutageIsPushed(h: History, rest: History, phone: string, text: Text, first: Signal, later: Signal,
                                s: Delivery.System, steps: seq<Delivery.Step>, site: string, id: nat)
    requires StrictlyOrdered(h + rest) && Distinguishes(text)
    requires Reports(first, text, h, phone) && Reports(later, text, h + rest, phone)
    requires exists j :: 0 <= j < |rest| && rest[j].reachable && !Shows(rest[j], phone, true)
    requires Delivery.Initial(s) && Delivery.Possible(s, steps)
    requires var t, key := Delivery.After(s, steps), Delivery.Key(site, EventOf(later).eventId);
             && Get(t.sent, id) == Some(Delivery.Request(site, EventOf(later)))
             && Delivery.Enabled(t, Delivery.RelayStep(id, Delivery.Create))
             && !Delivery.Handled(steps, t.sent, key)
    ensures EventOf(first).eventId != EventOf(later).eventId
    ensures id in Delivery.Apply(Delivery.After(s, steps), Delivery.RelayStep(id, Delivery.Create)).relay.handlers
  {
    OneEventPerOutage(h, rest, phone, text, first, later);
    var t, key := Delivery.After(s, steps), Delivery.Key(site, EventOf(later).eventId);
    if key in t.relay.records {
      Delivery.RecordsAreHandled(s, steps, key);
    }
  }
}
