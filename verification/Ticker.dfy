/**
 The timeout ticker: one timer that later heights, rounds and steps take over. The
 timer is armed, or has fired with its tick still in the channel, or is off.

 The steps of consensus start at 1. The ticker also takes a step of 0, which it uses to
 tell that nothing was scheduled yet, and takes the same one again.
 */
module Ticker {
  import opened Options

  datatype TimeoutInfo = TimeoutInfo(height: int, round: int, step: nat, duration: int)

  datatype Timer = Off | Armed(info: TimeoutInfo) | Fired(info: TimeoutInfo)

  /** Lexicographic order on height, round and step. */
  predicate Before(a: TimeoutInfo, b: TimeoutInfo) {
    a.height < b.height || (a.height == b.height && (a.round < b.round || (a.round == b.round && a.step < b.step)))
  }

  predicate Repeated(a: TimeoutInfo, b: TimeoutInfo) {
    a.height == b.height && a.round == b.round && a.step == 0 && b.step == 0
  }

  ghost predicate Rising(s: seq<TimeoutInfo>) {
    forall i, j | 0 <= i < j < |s| :: Before(s[i], s[j])
  }

  ghost predicate RisingOrRepeated(s: seq<TimeoutInfo>) {
    forall i, j | 0 <= i < j < |s| :: Before(s[i], s[j]) || Repeated(s[i], s[j])
  }

  /** Strictly rising exactly when no height and round is scheduled twice with step 0. */
  lemma StrictUnlessRepeated(s: seq<TimeoutInfo>)
    requires RisingOrRepeated(s)
    ensures Rising(s) <==> forall i, j | 0 <= i < j < |s| :: !Repeated(s[i], s[j])
  {
  }

  class TimeoutTicker {
    var ti: TimeoutInfo
    var timer: Timer
    var timerActive: bool
    ghost var accepted: seq<TimeoutInfo>
    ghost var fired: seq<nat>             // places in `accepted`

    /** The timer only ever runs for the latest accepted timeout, which has not fired yet. */
    ghost predicate Valid()
      reads this
    {
      && (timerActive <==> !timer.Off?)
      && (if accepted == [] then ti == TimeoutInfo(0, 0, 0, 0) else ti == accepted[|accepted| - 1])
      && (!timer.Off? ==> timer.info == ti && accepted != [] && |accepted| - 1 !in fired)
      && RisingOrRepeated(accepted)
      && (forall i, j | 0 <= i < j < |fired| :: fired[i] < fired[j])
      && (forall k | k in fired :: k < |accepted|)
    }

    constructor ()
      ensures Valid() && accepted == [] && fired == []
    {
      ti, timer, timerActive := TimeoutInfo(0, 0, 0, 0), Off, false;
      accepted, fired := [], [];
    }

    /** A timer that fired already is drained. */
    method StopTimer()
      requires timerActive <==> !timer.Off?
      modifies this`timer, this`timerActive
      ensures timer.Off? && !timerActive
    {
      if !timerActive {
        return;
      }
      timer := Off;
      timerActive := false;
    }

    /** A new timeout takes over exactly if it is later than everything accepted before, or repeats a step of 0. */
    method Tick(next: TimeoutInfo)
      requires Valid()
      modifies this
      ensures Valid() && fired == old(fired)
      ensures var takes := Before(old(ti), next) || Repeated(old(ti), next);
        accepted == old(accepted) + (if takes then [next] else []) && timer == if takes then Armed(next) else old(timer)
    {
      if next.height < ti.height {
        return;
      } else if next.height == ti.height {
        if next.round < ti.round {
          return;
        } else if next.round == ti.round {
          if ti.step > 0 && next.step <= ti.step {
            return;
          }
        }
      }
      StopTimer();
      ghost var before := ti;
      ti := next;
      timer := Armed(ti);
      timerActive := true;
      forall i | 0 <= i < |accepted| ensures Before(accepted[i], next) || Repeated(accepted[i], next) {
        assert accepted[i] == before || Before(accepted[i], before) || Repeated(accepted[i], before);
      }
      accepted := accepted + [next];
    }

    /** Time passes: the armed timer puts its tick into the channel. */
    method Expire()
      requires Valid()
      modifies this`timer
      ensures Valid() && timer == if old(timer).Armed? then Fired(old(timer).info) else old(timer)
    {
      if timer.Armed? {
        timer := Fired(timer.info);
      }
    }

    /** The tick is relayed, for the latest accepted timeout and for no other. */
    method Relay() returns (tock: Option<TimeoutInfo>)
      requires Valid()
      modifies this
      ensures Valid() && accepted == old(accepted)
      ensures tock.Some? <==> old(timer).Fired?
      ensures tock.Some? ==> tock.value == accepted[|accepted| - 1] && fired == old(fired) + [|accepted| - 1]
      ensures tock.None? ==> fired == old(fired)
    {
      if !timer.Fired? {
        return None;
      }
      timer := Off;
      timerActive := false;
      assert forall k | 0 <= k < |fired| :: fired[k] in fired;
      fired := fired + [|accepted| - 1];
      return Some(ti);
    }

    /** Over any run, each accepted timeout fires at most once and never after a later one was accepted and fired. */
    method Run(events: seq<Event>)
      requires Valid()
      modifies this
      ensures Valid() && old(accepted) <= accepted && old(fired) <= fired && RisingOrRepeated(accepted)
      ensures forall i, j | 0 <= i < j < |fired| :: fired[i] < fired[j]
      ensures old(Rising(accepted)) && (forall e | e in events && e.Schedule? :: e.next.step > 0) ==> Rising(accepted)
    {
      for i := 0 to |events|
        invariant Valid() && old(fired) <= fired && old(accepted) <= accepted
        invariant old(Rising(accepted)) && (forall e | e in events && e.Schedule? :: e.next.step > 0) ==> Rising(accepted)
      {
        assert events[i] in events;
        match events[i]
        case Schedule(next) => Tick(next);
        case Elapse => Expire();
        case Forward => var _ := Relay();
      }
    }
  }

  datatype Event = Schedule(next: TimeoutInfo) | Elapse | Forward
}
