/**
  The wait for the connection that follows pairing (`post_pairing.rs`): a CONNECTED counts only once
  a `Paired` came before it. The deadline of the wait is left out: the stream runs to its end.
 */
module Reconnect {

  datatype Envelope = Paired | OtherPairing | Connected | OtherState | Other

  /** What the stream yields: an event, or an error, which is skipped. */
  datatype Item = Event(e: Envelope) | Error

  datatype Outcome = Reconnected(at: nat) | EventsEnded

  /** A CONNECTED that follows a `Paired`, or any when pairing was seen before the stream. */
  ghost predicate Lands(events: seq<Item>, paired: bool, k: nat)
    requires k < |events|
  {
    events[k] == Event(Connected) && (paired || exists j :: 0 <= j < k && events[j] == Event(Paired))
  }

  class PairedReconnect {
    var paired: bool

    constructor (paired: bool)
      ensures this.paired == paired
    {
      this.paired := paired;
    }

    method Observe(e: Envelope) returns (landed: bool)
      modifies this
      ensures paired == (old(paired) || e == Paired)
      ensures landed == (e == Connected && old(paired))
    {
      match e
      case Paired =>
        paired := true;
        landed := false;
      case Connected =>
        landed := paired;
      case _ =>
        landed := false;
    }
  }

  /** Ends at the first CONNECTED that counts, or with the stream. */
  method WaitReconnected(events: seq<Item>, already: bool) returns (r: Outcome)
    ensures r.EventsEnded? <==> forall k :: 0 <= k < |events| ==> !Lands(events, already, k)
    ensures r.Reconnected? ==> r.at < |events| && Lands(events, already, r.at)
                               && forall k :: 0 <= k < r.at ==> !Lands(events, already, k)
  {
    var watch := new PairedReconnect(already);
    for n := 0 to |events|
      invariant watch.paired <==> already || exists j :: 0 <= j < n && events[j] == Event(Paired)
      invariant forall k :: 0 <= k < n ==> !Lands(events, already, k)
    {
      if events[n].Event? {
        var landed := watch.Observe(events[n].e);
        if landed {
          assert Lands(events, already, n);
          return Reconnected(n);
        }
      }
    }
    return EventsEnded;
  }
}
