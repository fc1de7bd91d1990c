/**
 * The timeout ticker (consensus/ticker.go): one timer, replaced only by ticks for a later step.
 */
module Ticker {
  /** A duration in nanoseconds and the height, round and step it is for. */
  datatype TimeoutInfo = TimeoutInfo(duration: int, height: int, round: int, step: nat)

  predicate Below(a: TimeoutInfo, b: TimeoutInfo) {
    a.height < b.height || (a.height == b.height && (a.round < b.round || (a.round == b.round && a.step < b.step)))
  }

  const ZERO := TimeoutInfo(0, 0, 0, 0)

  /** The ticks received, the one the timer is for, whether it is armed, and what has been relayed. */
  datatype State = State(ticks: seq<TimeoutInfo>, ti: TimeoutInfo, timerActive: bool, fired: seq<TimeoutInfo>)

  datatype Event = Tick(new': TimeoutInfo) | Expire

  /** The timer channel delivers only while the timer is armed. */
  predicate Enabled(s: State, e: Event) {
    match e
    case Tick(n) => n.height >= 1 && n.round >= 0 && n.step >= 1
    case Expire => s.timerActive
  }

  predicate Replaces(new': TimeoutInfo, ti: TimeoutInfo) {
    && new'.height >= ti.height
    && (new'.height == ti.height ==> new'.round >= ti.round)
    && (new'.height == ti.height && new'.round == ti.round ==> ti.step == 0 || new'.step > ti.step)
  }

  function Step(s: State, e: Event): State {
    match e
    case Tick(n) =>
      var s := s.(ticks := s.ticks + [n]);
      if Replaces(n, s.ti) then s.(ti := n, timerActive := true) else s
    case Expire => s.(timerActive := false, fired := s.fired + [s.ti])
  }

  ghost predicate IsRun(run: seq<State>, events: seq<Event>) {
    && |run| == |events| + 1 && run[0] == State([], ZERO, false, [])
    && forall i :: 0 <= i < |events| ==> Enabled(run[i], events[i]) && run[i + 1] == Step(run[i], events[i])
  }

  /** a is the first of the latest: nothing is later, and nothing before it is for the same step. */
  ghost predicate FirstLatest(ticks: seq<TimeoutInfo>, a: TimeoutInfo) {
    exists k :: 0 <= k < |ticks| && ticks[k] == a
                && (forall j :: 0 <= j < |ticks| ==> !Below(a, ticks[j]))
                && (forall j :: 0 <= j < k ==> Below(ticks[j], a))
  }

  ghost predicate Inv(s: State) {
    && (forall i :: 0 <= i < |s.ticks| ==> Enabled(s, Tick(s.ticks[i])))
    && (if s.ticks == [] then s.ti == ZERO && !s.timerActive && s.fired == [] else FirstLatest(s.ticks, s.ti))
    && (forall i :: 0 <= i < |s.fired| ==> s.fired[i] in s.ticks)
    && (forall i :: 0 <= i < |s.fired| ==> if s.timerActive then Below(s.fired[i], s.ti) else !Below(s.ti, s.fired[i]))
    && (forall i, j :: 0 <= i < j < |s.fired| ==> Below(s.fired[i], s.fired[j]))
  }

  lemma TickKeeps(s: State, n: TimeoutInfo)
    requires Inv(s) && Enabled(s, Tick(n))
    ensures Inv(Step(s, Tick(n)))
  {
    var t := Step(s, Tick(n));
    if Replaces(n, s.ti) {
      forall j | 0 <= j < |s.ticks| ensures Below(s.ticks[j], n) {
        assert !Below(s.ti, s.ticks[j]);
      }
      assert t.ticks[|s.ticks|] == n;
    } else {
      var k :| 0 <= k < |s.ticks| && s.ticks[k] == s.ti
               && (forall j :: 0 <= j < |s.ticks| ==> !Below(s.ti, s.ticks[j]))
               && (forall j :: 0 <= j < k ==> Below(s.ticks[j], s.ti));
      assert t.ticks[k] == s.ti && !Below(s.ti, n);
    }
  }

  lemma {:induction false} RunKeeps(run: seq<State>, events: seq<Event>, i: nat)
    requires IsRun(run, events) && i < |run|
    ensures Inv(run[i])
  {
    if i > 0 {
      RunKeeps(run, events, i - 1);
      if events[i - 1].Tick? {
        TickKeeps(run[i - 1], events[i - 1].new');
      }
    }
  }

  /**
   * After any ticks and expiries the timer is for the first of the latest ticks; what it relays was
   * scheduled, and is for strictly later and later steps, so no timeout is relayed twice.
   */
  lemma RelaysLatest(run: seq<State>, events: seq<Event>, i: nat)
    requires IsRun(run, events) && i < |run|
    ensures run[i].ticks != [] ==> FirstLatest(run[i].ticks, run[i].ti)
    ensures forall j :: 0 <= j < |run[i].fired| ==> run[i].fired[j] in run[i].ticks
    ensures forall j, k :: 0 <= j < k < |run[i].fired| ==> Below(run[i].fired[j], run[i].fired[k])
  {
    RunKeeps(run, events, i);
  }

  /** The routine's two variables, and what it sends. */
  class TimeoutTicker {
    var ti: TimeoutInfo
    var timerActive: bool
    var fired: seq<TimeoutInfo>
    ghost var ticks: seq<TimeoutInfo>

    ghost function Snap(): State
      reads this
    {
      State(ticks, ti, timerActive, fired)
    }

    constructor ()
      ensures Snap() == State([], ZERO, false, [])
    {
      ti, timerActive, fired, ticks := ZERO, false, [], [];
    }

    method OnTick(newti: TimeoutInfo)
      requires Inv(Snap()) && Enabled(Snap(), Tick(newti))
      modifies this
      ensures Snap() == Step(old(Snap()), Tick(newti)) && Inv(Snap())
    {
      TickKeeps(Snap(), newti);
      ticks := ticks + [newti];
      if newti.height < ti.height {
        return;
      } else if newti.height == ti.height {
        if newti.round < ti.round {
          return;
        } else if newti.round == ti.round {
          if ti.step > 0 && newti.step <= ti.step { return; }
        }
      }
      ti := newti;
      timerActive := true;
    }

    method OnExpire()
      requires Inv(Snap()) && timerActive
      modifies this
      ensures Snap() == Step(old(Snap()), Expire) && Inv(Snap())
    {
      timerActive := false;
      fired := fired + [ti];
    }
  }
}
