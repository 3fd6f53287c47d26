/** An order that has ended and is queued again: a run that meets every assumption. */
module LifecycleRevival {
  import opened Sequences
  import opened Orders
  import SD = SeqDiscipline
  import opened Lifecycle
  import opened LifecycleRuns
  import opened LifecycleScenes
  import opened LifecycleReversal
  import opened LifecycleUnread
  import opened LifecycleEnded

  /** An order is sent in a round against book `b`, released as dead, and ends in the next build,
      which finds its seq stale. Then the round reads as landed, and then as not landed. */
  function Reviving(b: nat, c: nat): seq<Event> {
    Opened(TICKET, [], b) +
    [Building(Args(2, [], c, map[0 := 1]), {}), Sweeps(LookAt(3, {Rid(b)}, false), {}),
     Sweeps(LookAt(4, {}, false), {})]
  }

  /** The order has ended and is not queued; its round is tracked. */
  ghost predicate Ends(s: State, z: Record, pending: seq<Order>) {
    s.inflight.None? && s.zombies == [z] && s.pending == pending && s.log == [] && KeyOf(ORDER) in s.ended
  }

  lemma Ending(es: seq<Event>, b: nat, c: nat)
    requires |es| >= 4 && es[3] == Building(Args(2, [], c, map[0 := 1]), {}) && b != c
    requires Reaches(es, 3, TICKET, [ORDER], None, [Late(b)])
    ensures HonestRun(es[..4], CFG) && Ends(Run(es[..4], CFG), Late(b), [])
  {
    StillQuiet(b, 2, c);
    StaleFloor(c);
    Superseding(es, 3, TICKET, [ORDER], [Late(b)], 2, c, map[0 := 1]);
    assert ORDER in [ORDER];
  }

  lemma StaleFloor(c: nat)
    ensures TICKET.seqno <= SD.At(map[0 := 1], TICKET.account)
    ensures RoundOf(ORDER, Args(2, [], c, map[0 := 1])).rid == Sent(2, c).rid
  {
  }

  lemma Landing(es: seq<Event>, b: nat)
    requires |es| >= 5 && es[4] == Sweeps(LookAt(3, {Rid(b)}, false), {})
    requires HonestRun(es[..4], CFG) && Ends(Run(es[..4], CFG), Late(b), [])
    ensures HonestRun(es[..5], CFG) && Ends(Run(es[..5], CFG), Late(b).(okSince := Some(3)), [])
  {
    var s, look := Run(es[..4], CFG), LookAt(3, {Rid(b)}, false);
    Next(es, 4);
    SentIs(0, b);
    NothingSettled(s, look, Rid(b));
    LandsAlone(s, Late(b), look, CFG, {});
  }

  lemma Sinking(es: seq<Event>, b: nat)
    requires |es| >= 6 && es[5] == Sweeps(LookAt(4, {}, false), {})
    requires HonestRun(es[..5], CFG) && Ends(Run(es[..5], CFG), Late(b).(okSince := Some(3)), [])
    ensures HonestRun(es[..6], CFG) && Ends(Run(es[..6], CFG), Late(b), [ORDER])
  {
    var s, look := Run(es[..5], CFG), LookAt(4, {}, false);
    Next(es, 5);
    SentIs(0, b);
    NothingSettled(s, look, Rid(b));
    FirstSinks(s, Late(b).(okSince := Some(3)), ORDER, look, CFG, {});
  }

  lemma EndsFirst(es: seq<Event>, b: nat, c: nat)
    requires |es| >= 4 && es[..3] == Opened(TICKET, [], b) && b != c
    requires es[3] == Building(Args(2, [], c, map[0 := 1]), {})
    ensures HonestRun(es[..4], CFG) && Ends(Run(es[..4], CFG), Late(b), [])
  {
    Opens(es, TICKET, [], b);
    Ending(es, b, c);
  }

  lemma Returns(es: seq<Event>, b: nat, c: nat)
    requires es == Reviving(b, c) && b != c
    ensures HonestRun(es, CFG) && Ends(Run(es, CFG), Late(b), [ORDER])
  {
    assert es[..3] == Opened(TICKET, [], b);
    EndsFirst(es, b, c);
    Landing(es, b);
    Sinking(es, b);
    assert es[..6] == es;
  }

  /** The way back is open: these runs meet every assumption, and an order that has ended is
      queued. */
  lemma EndedCanReturn(b: nat, c: nat)
    requires b != c
    ensures var es := Reviving(b, c); var s := Run(es, CFG);
            && HonestRun(es, CFG) && KeyOf(ORDER) in s.ended && s.pending == [ORDER]
            && KeyOf(ORDER) in Woken(es, CFG)
  {
    Returns(Reviving(b, c), b, c);
    assert KeyOf(ORDER) in KeySet([ORDER]);
    EndedStaysEnded(Reviving(b, c), CFG, KeyOf(ORDER));
  }
}
