/** The live order table and the replay of its own event log. */
module Telemetry {
  import opened Sequences

  datatype OrderKey = OrderKey(market: nat, account: nat, oid: nat)

  datatype Result = Filled | PartialCancelled | Cancelled | Expired | Rejected | Lost

  /** `expires` is 0 when the order rests with no expiry. */
  datatype Event = Placed | Rounded | Reverted | Requeued | Deferred | Rested(crossed: bool, expires: int)
    | Terminal(outcome: Result)

  /** One line of the log. */
  datatype Line = Line(ts: int, key: OrderKey, event: Event, marketable: bool)

  datatype Phase = PlacedPhase | RoundedPhase | DeferredPhase | RestedPhase

  datatype Rec = Rec(phase: Phase, last: int, expires: int, marketable: bool)

  datatype Tables = Tables(orders: map<OrderKey, Rec>, cleared: nat, missed: nat, log: seq<Line>)

  const OPEN_GRACE: int := 600

  /** A transition as the builder reports it; only a placement says whether it is marketable. */
  datatype Report = Report(ts: int, key: OrderKey, event: Event, marketable: bool)

  // ---- the live table ----

  function PhaseAfter(e: Event): Phase
    requires !e.Terminal?
  {
    match e
    case Placed => PlacedPhase
    case Requeued => PlacedPhase
    case Rounded => RoundedPhase
    case Reverted => RoundedPhase
    case Deferred => DeferredPhase
    case Rested(_, _) => RestedPhase
  }

  predicate Counts(outcome: Result) {
    outcome.Expired? || outcome.Lost? || outcome.PartialCancelled? || outcome.Rejected?
  }

  function Place(t: Tables, r: Report): Tables {
    t.(orders := t.orders[r.key := Rec(PlacedPhase, r.ts, 0, r.marketable)],
       log := t.log + [Line(r.ts, r.key, Placed, r.marketable)])
  }

  /** A transition of a live order; any other leaves no trace. */
  function Touch(t: Tables, r: Report): Tables
    requires !r.event.Terminal?
  {
    if r.key !in t.orders then t
    else
      var rec := t.orders[r.key];
      var m := rec.marketable && !r.event.Rested?;
      var expires := if r.event.Rested? && r.event.expires != 0 then r.event.expires else rec.expires;
      t.(orders := t.orders[r.key := Rec(PhaseAfter(r.event), r.ts, expires, m)],
         log := t.log + [Line(r.ts, r.key, r.event, m)])
  }

  /** The end of an order, even of one never seen placed. */
  function Finish(t: Tables, r: Report): Tables
    requires r.event.Terminal?
  {
    var m := r.key in t.orders && t.orders[r.key].marketable;
    t.(orders := t.orders - {r.key},
       cleared := if m && r.event.outcome.Filled? then t.cleared + 1 else t.cleared,
       missed := if m && Counts(r.event.outcome) then t.missed + 1 else t.missed,
       log := t.log + [Line(r.ts, r.key, r.event, m)])
  }

  function Apply(t: Tables, r: Report): Tables {
    if r.event.Placed? then Place(t, r) else if r.event.Terminal? then Finish(t, r) else Touch(t, r)
  }

  function Run(rs: seq<Report>): Tables {
    if rs == [] then Tables(map[], 0, 0, []) else Apply(Run(rs[..|rs|-1]), rs[|rs|-1])
  }

  /** How long a live order has been silent, or a resting one past its expiry. */
  function Late(rec: Rec, now: int): int {
    if rec.phase.RestedPhase? then (if rec.expires != 0 then now - rec.expires else 0) else now - rec.last
  }

  predicate Stale(rec: Rec, now: int) { Late(rec, now) > OPEN_GRACE }

  // ---- the replay ----

  function ForKey(k: OrderKey): Line -> bool { (l: Line) => l.key == k }

  /** One order's events, in log order. */
  function Of(log: seq<Line>, k: OrderKey): seq<Line> { Filter(log, ForKey(k)) }

  function FirstTerminal(es: seq<Line>): Option<Result> {
    if es == [] then None else if es[0].event.Terminal? then Some(es[0].event.outcome) else FirstTerminal(es[1..])
  }

  predicate HasRested(es: seq<Line>) { exists l | l in es :: l.event.Rested? }
  predicate AnyMarketable(es: seq<Line>) { exists l | l in es :: l.marketable }

  /** An auction that left the order resting has decided it: it is no obligation any more. */
  predicate JudgedMarketable(es: seq<Line>) { !HasRested(es) && AnyMarketable(es) }

  /** The expiry of the last rest. */
  function LastExpiry(es: seq<Line>): int {
    if es == [] then 0
    else
      var e := es[|es| - 1].event;
      if e.Rested? then e.expires else LastExpiry(es[..|es|-1])
  }

  function LatestOf(es: seq<Line>): int
    requires es != []
  {
    if |es| == 1 then es[0].ts else if es[0].ts > LatestOf(es[1..]) then es[0].ts else LatestOf(es[1..])
  }

  datatype Verdict = Resting | Open | Cleared | Missed | Lapsed

  function Judge(es: seq<Line>): Verdict
    requires es != []
  {
    match FirstTerminal(es)
    case None => if es[|es| - 1].event.Rested? then Resting else Open
    case Some(Filled) => Cleared
    case Some(_) => if JudgedMarketable(es) then Missed else Lapsed
  }

  /** Open past the grace period, or resting past its own expiry by as much. */
  predicate StuckOpen(es: seq<Line>, now: int)
    requires es != []
  {
    match Judge(es)
    case Open => now - LatestOf(es) > OPEN_GRACE
    case Resting => LastExpiry(es) != 0 && now - LastExpiry(es) > OPEN_GRACE
    case _ => false
  }

  // ---- runs with fresh oids and a clock that never goes back ----

  ghost predicate Fits(t: Tables, r: Report) {
    && (r.event.Placed? ==> Of(t.log, r.key) == [])
    && (forall l | l in t.log :: l.ts <= r.ts)
  }

  ghost predicate FitRun(rs: seq<Report>) {
    rs != [] ==> FitRun(rs[..|rs|-1]) && Fits(Run(rs[..|rs|-1]), rs[|rs|-1])
  }

  // ---- what ties the table to the log ----

  /** The last expiry any rest of the order carried. */
  function KeptExpiry(es: seq<Line>): int {
    if es == [] then 0
    else
      var e := es[|es| - 1].event;
      if e.Rested? && e.expires != 0 then e.expires else KeptExpiry(es[..|es|-1])
  }

  predicate NonTerminal(es: seq<Line>) { forall l | l in es :: !l.event.Terminal? }

  predicate Sorted(es: seq<Line>) { forall i, j | 0 <= i < j < |es| :: es[i].ts <= es[j].ts }

  /** The record and the events of an order say the same. */
  ghost predicate Mirrors(rec: Rec, es: seq<Line>) {
    && es != [] && NonTerminal(es)
    && rec.phase == PhaseAfter(es[|es| - 1].event)
    && rec.last == es[|es| - 1].ts
    && rec.expires == KeptExpiry(es)
    && rec.marketable == JudgedMarketable(es)
  }

  ghost predicate AgreesOn(orders: map<OrderKey, Rec>, k: OrderKey, es: seq<Line>) {
    && (k in orders <==> es != [] && NonTerminal(es))
    && (k in orders ==> Mirrors(orders[k], es))
  }

  /** An order is in the table exactly while its events show no end, and the two say the same. */
  ghost predicate Agrees(t: Tables) {
    Sorted(t.log) && forall k :: AgreesOn(t.orders, k, Of(t.log, k))
  }

  lemma OfSnoc(log: seq<Line>, l: Line, k: OrderKey)
    ensures Of(log + [l], k) == if l.key == k then Of(log, k) + [l] else Of(log, k)
  {
    FilterConcat(log, [l], ForKey(k));
    assert Of(log, k) + [] == Of(log, k);
  }

  lemma SnocParts(es: seq<Line>, l: Line)
    ensures (es + [l])[|es|] == l && (es + [l])[..|es|] == es
    ensures NonTerminal(es + [l]) <==> NonTerminal(es) && !l.event.Terminal?
    ensures HasRested(es + [l]) <==> HasRested(es) || l.event.Rested?
    ensures AnyMarketable(es + [l]) <==> AnyMarketable(es) || l.marketable
  {
    assert forall x :: x in es + [l] <==> x in es || x == l;
  }

  /** A transition of a live order is mirrored by its line. */
  lemma MirrorTouch(rec: Rec, es: seq<Line>, r: Report)
    requires Mirrors(rec, es) && !r.event.Terminal? && !r.event.Placed?
    ensures var m := rec.marketable && !r.event.Rested?;
            var expires := if r.event.Rested? && r.event.expires != 0 then r.event.expires else rec.expires;
            Mirrors(Rec(PhaseAfter(r.event), r.ts, expires, m), es + [Line(r.ts, r.key, r.event, m)])
  {
    SnocParts(es, Line(r.ts, r.key, r.event, rec.marketable && !r.event.Rested?));
  }

  lemma MirrorPlaced(r: Report)
    requires r.event.Placed?
    ensures Mirrors(Rec(PlacedPhase, r.ts, 0, r.marketable), [Line(r.ts, r.key, Placed, r.marketable)])
  {
    SnocParts([], Line(r.ts, r.key, Placed, r.marketable));
    assert [] + [Line(r.ts, r.key, Placed, r.marketable)] == [Line(r.ts, r.key, Placed, r.marketable)];
  }

  lemma SortedSnoc(log: seq<Line>, l: Line)
    requires Sorted(log) && forall x | x in log :: x.ts <= l.ts
    ensures Sorted(log + [l])
  {
    var es := log + [l];
    forall i, j | 0 <= i < j < |es| ensures es[i].ts <= es[j].ts {
      assert i < |log| && es[i] == log[i] && log[i] in log;
    }
  }

  lemma PlaceAgrees(t: Tables, r: Report, k: OrderKey)
    requires Agrees(t) && Fits(t, r) && r.event.Placed?
    ensures AgreesOn(Place(t, r).orders, k, Of(Place(t, r).log, k))
  {
    var l := Line(r.ts, r.key, Placed, r.marketable);
    OfSnoc(t.log, l, k);
    assert AgreesOn(t.orders, k, Of(t.log, k));
    if k == r.key {
      assert Of(t.log, k) + [l] == [l];
      MirrorPlaced(r);
    }
  }

  lemma TouchAgrees(t: Tables, r: Report, k: OrderKey)
    requires Agrees(t) && r.key in t.orders && !r.event.Placed? && !r.event.Terminal?
    ensures AgreesOn(Touch(t, r).orders, k, Of(Touch(t, r).log, k))
  {
    var rec := t.orders[r.key];
    OfSnoc(t.log, Line(r.ts, r.key, r.event, rec.marketable && !r.event.Rested?), k);
    assert AgreesOn(t.orders, k, Of(t.log, k));
    if k == r.key {
      MirrorTouch(rec, Of(t.log, k), r);
    }
  }

  lemma FinishAgrees(t: Tables, r: Report, k: OrderKey)
    requires Agrees(t) && r.event.Terminal?
    ensures AgreesOn(Finish(t, r).orders, k, Of(Finish(t, r).log, k))
  {
    var l := Line(r.ts, r.key, r.event, r.key in t.orders && t.orders[r.key].marketable);
    OfSnoc(t.log, l, k);
    assert AgreesOn(t.orders, k, Of(t.log, k));
    if k == r.key {
      SnocParts(Of(t.log, k), l);
    }
  }

  lemma StepAgrees(t: Tables, r: Report)
    requires Agrees(t) && Fits(t, r)
    ensures Agrees(Apply(t, r))
  {
    if r.event.Placed? || r.event.Terminal? || r.key in t.orders {
      var t' := Apply(t, r);
      SortedSnoc(t.log, t'.log[|t.log|]);
      forall k ensures AgreesOn(t'.orders, k, Of(t'.log, k)) {
        if r.event.Placed? {
          PlaceAgrees(t, r, k);
        } else if r.event.Terminal? {
          FinishAgrees(t, r, k);
        } else {
          TouchAgrees(t, r, k);
        }
      }
    }
  }

  lemma {:induction false} RunAgrees(rs: seq<Report>)
    requires FitRun(rs)
    ensures Agrees(Run(rs))
  {
    if rs == [] {
    } else {
      RunAgrees(rs[..|rs|-1]);
      StepAgrees(Run(rs[..|rs|-1]), rs[|rs|-1]);
    }
  }

  // ---- what the replay finds ----

  lemma {:induction false} NoTerminal(es: seq<Line>)
    ensures FirstTerminal(es).None? <==> NonTerminal(es)
  {
    if es == [] {
    } else {
      NoTerminal(es[1..]);
      assert forall l :: l in es <==> l == es[0] || l in es[1..];
    }
  }

  lemma {:induction false} LatestIsLast(es: seq<Line>)
    requires es != [] && Sorted(es)
    ensures LatestOf(es) == es[|es| - 1].ts
  {
    if |es| <= 1 {
    } else {
      LatestIsLast(es[1..]);
    }
  }

  lemma {:induction false} SortedOf(log: seq<Line>, k: OrderKey)
    requires Sorted(log)
    ensures Sorted(Of(log, k))
  {
    if log == [] {
    } else {
      SortedOf(log[1..], k);
      FilterMembers(log[1..], ForKey(k));
      forall l | l in Of(log[1..], k) ensures log[0].ts <= l.ts {
        var i :| 0 <= i < |log[1..]| && log[1..][i] == l;
        assert l == log[i + 1];
      }
    }
  }

  /** The live order table holds exactly the orders whose log shows no end. */
  lemma LiveIffNoTerminal(rs: seq<Report>, k: OrderKey)
    requires FitRun(rs)
    ensures var es := Of(Run(rs).log, k);
            k in Run(rs).orders <==> es != [] && FirstTerminal(es).None?
  {
    RunAgrees(rs);
    assert AgreesOn(Run(rs).orders, k, Of(Run(rs).log, k));
    NoTerminal(Of(Run(rs).log, k));
  }

  /** The last rest of an order names an expiry, or no rest of it does. */
  ghost predicate ExpiryStands(es: seq<Line>) {
    LastExpiry(es) != 0 || forall l | l in es && l.event.Rested? :: l.event.expires == 0
  }

  lemma {:induction false} ExpiryKept(es: seq<Line>)
    ensures LastExpiry(es) != 0 ==> KeptExpiry(es) == LastExpiry(es)
    ensures KeptExpiry(es) == 0 <==> forall l | l in es && l.event.Rested? :: l.event.expires == 0
  {
    if es == [] {
    } else {
      var front, l := es[..|es|-1], es[|es|-1];
      ExpiryKept(front);
      assert es == front + [l];
      assert forall x :: x in es <==> x in front || x == l;
    }
  }

  /** When the live table calls an order stale, in terms of its events. */
  lemma StaleByEvents(t: Tables, k: OrderKey, now: int)
    requires Agrees(t) && k in t.orders
    ensures var es := Of(t.log, k);
            && es != [] && NonTerminal(es)
            && (Stale(t.orders[k], now) <==>
                  if es[|es| - 1].event.Rested? then KeptExpiry(es) != 0 && now - KeptExpiry(es) > OPEN_GRACE
                  else now - LatestOf(es) > OPEN_GRACE)
  {
    assert AgreesOn(t.orders, k, Of(t.log, k));
    SortedOf(t.log, k);
    LatestIsLast(Of(t.log, k));
  }

  /** The live stale set is the replay's stuck-open set at every time, exactly for the orders
      whose last rest kept an expiry if any rest had one (or that are not resting). */
  lemma StaleIsStuck(rs: seq<Report>, k: OrderKey)
    requires FitRun(rs) && Of(Run(rs).log, k) != []
    ensures var t, es := Run(rs), Of(Run(rs).log, k);
            (forall now :: (k in t.orders && Stale(t.orders[k], now)) <==> StuckOpen(es, now))
            <==> (Judge(es).Resting? ==> ExpiryStands(es))
  {
    var t, es := Run(rs), Of(Run(rs).log, k);
    RunAgrees(rs);
    NoTerminal(es);
    ExpiryKept(es);
    assert AgreesOn(t.orders, k, es);
    if k in t.orders {
      forall now ensures Stale(t.orders[k], now) <==>
          if es[|es| - 1].event.Rested? then KeptExpiry(es) != 0 && now - KeptExpiry(es) > OPEN_GRACE
            else now - LatestOf(es) > OPEN_GRACE
      {
        StaleByEvents(t, k, now);
      }
      if Judge(es).Resting? && !ExpiryStands(es) {
        var now := KeptExpiry(es) + OPEN_GRACE + 1;
        assert Stale(t.orders[k], now) && !StuckOpen(es, now);
      }
    }
  }

  function Forgetful(): seq<Report> {
    var k := OrderKey(0, 0, 1);
    [Report(0, k, Placed, true), Report(1, k, Rested(false, 5), true), Report(2, k, Rested(false, 0), true)]
  }

  lemma ForgetfulRun()
    ensures var k := OrderKey(0, 0, 1);
            var t := Run(Forgetful());
            && FitRun(Forgetful()) && k in t.orders && t.orders[k] == Rec(RestedPhase, 2, 5, false)
            && t.log == [Line(0, k, Placed, true), Line(1, k, Rested(false, 5), false),
                         Line(2, k, Rested(false, 0), false)]
  {
    var rs := Forgetful();
    assert rs[..2][..1] == rs[..1] && rs[..1][..0] == [];
    assert Run(rs[..1]).log == [Line(0, OrderKey(0, 0, 1), Placed, true)];
    assert FitRun([]) && FitRun(rs[..1]) && FitRun(rs[..2]);
  }

  /** Such an order: it rested with an expiry, then rested again without one. */
  lemma ExpiryForgotten()
    ensures var k := OrderKey(0, 0, 1);
            var t := Run(Forgetful());
            FitRun(Forgetful()) && k in t.orders && Stale(t.orders[k], 606) && Of(t.log, k) != []
              && !StuckOpen(Of(t.log, k), 606)
  {
    var k := OrderKey(0, 0, 1);
    var es := Run(Forgetful()).log;
    ForgetfulRun();
    FilterAll(es, ForKey(k));
    NoTerminal(es);
  }

  // ---- the tallies ----

  /** The orders of the log whose first end is counted by `p` and which were marketable to the end. */
  function Ended(log: seq<Line>, p: Result -> bool): set<OrderKey> {
    set l | l in log && EndedAs(Of(log, l.key), p) :: l.key
  }

  predicate EndedAs(es: seq<Line>, p: Result -> bool) {
    FirstTerminal(es).Some? && p(FirstTerminal(es).value) && JudgedMarketable(es)
  }

  function IsFilled(): Result -> bool { (o: Result) => o.Filled? }
  function IsCounted(): Result -> bool { (o: Result) => Counts(o) }

  lemma {:induction false} FirstTerminalSnoc(es: seq<Line>, l: Line)
    ensures FirstTerminal(es + [l]) ==
              if FirstTerminal(es).Some? then FirstTerminal(es) else if l.event.Terminal? then Some(l.event.outcome)
                else None
  {
    if es == [] {
    } else {
      assert (es + [l])[1..] == es[1..] + [l];
      FirstTerminalSnoc(es[1..], l);
    }
  }

  /** A line that ends no live order changes no order's verdict. */
  lemma EndedAsSnoc(es: seq<Line>, l: Line, p: Result -> bool)
    ensures FirstTerminal(es).Some? && !l.marketable && l.event.Terminal? ==> (EndedAs(es + [l], p) <==> EndedAs(es, p))
    ensures FirstTerminal(es).None? && !l.event.Terminal? ==> !EndedAs(es + [l], p) && !EndedAs(es, p)
    ensures FirstTerminal(es).None? && l.event.Terminal? && (l.marketable <==> JudgedMarketable(es)) ==>
              !EndedAs(es, p) && (EndedAs(es + [l], p) <==> p(l.event.outcome) && l.marketable)
  {
    FirstTerminalSnoc(es, l);
    SnocParts(es, l);
  }

  lemma EndedMember(log: seq<Line>, p: Result -> bool, k: OrderKey)
    ensures k in Ended(log, p) <==> EndedAs(Of(log, k), p)
  {
    FilterMembers(log, ForKey(k));
    if EndedAs(Of(log, k), p) {
      assert Of(log, k) != [];
      assert Of(log, k)[0] in Of(log, k);
    }
  }

  lemma EndedSnoc(log: seq<Line>, l: Line, p: Result -> bool, won: bool)
    requires EndedAs(Of(log, l.key) + [l], p) <==> won || EndedAs(Of(log, l.key), p)
    requires won ==> !EndedAs(Of(log, l.key), p)
    ensures |Ended(log + [l], p)| == |Ended(log, p)| + if won then 1 else 0
  {
    forall k ensures k in Ended(log + [l], p) <==> k in Ended(log, p) || (won && k == l.key) {
      EndedMember(log, p, k);
      EndedMember(log + [l], p, k);
      OfSnoc(log, l, k);
    }
    EndedMember(log, p, l.key);
    if won {
      assert Ended(log + [l], p) == Ended(log, p) + {l.key};
    } else {
      assert Ended(log + [l], p) == Ended(log, p);
    }
  }

  ghost predicate Tallied(t: Tables) {
    t.cleared == |Ended(t.log, IsFilled())| && t.missed == |Ended(t.log, IsCounted())|
  }

  /** The line a report leaves in the log, if it leaves one. */
  function LineOf(t: Tables, r: Report): Line {
    Line(r.ts, r.key, r.event,
         if r.event.Placed? then r.marketable else r.key in t.orders && t.orders[r.key].marketable && !r.event.Rested?)
  }

  lemma LineVerdict(t: Tables, r: Report, p: Result -> bool)
    requires Agrees(t) && Fits(t, r) && (r.event.Placed? || r.event.Terminal? || r.key in t.orders)
    ensures var l, es := LineOf(t, r), Of(t.log, r.key);
            var won := r.event.Terminal? && r.key in t.orders && l.marketable && p(r.event.outcome);
            (EndedAs(es + [l], p) <==> won || EndedAs(es, p)) && (won ==> !EndedAs(es, p))
  {
    var es := Of(t.log, r.key);
    assert AgreesOn(t.orders, r.key, es);
    NoTerminal(es);
    EndedAsSnoc(es, LineOf(t, r), p);
  }

  lemma StepTallies(t: Tables, r: Report)
    requires Agrees(t) && Fits(t, r) && Tallied(t)
    ensures Tallied(Apply(t, r))
  {
    if r.event.Placed? || r.event.Terminal? || r.key in t.orders {
      var l := LineOf(t, r);
      var m := r.event.Terminal? && r.key in t.orders && l.marketable;
      assert Apply(t, r).log == t.log + [l];
      LineVerdict(t, r, IsFilled());
      LineVerdict(t, r, IsCounted());
      EndedSnoc(t.log, l, IsFilled(), m && r.event.outcome.Filled?);
      EndedSnoc(t.log, l, IsCounted(), m && Counts(r.event.outcome));
    }
  }

  lemma {:induction false} RunTallies(rs: seq<Report>)
    requires FitRun(rs)
    ensures Tallied(Run(rs))
  {
    if rs == [] {
    } else {
      RunAgrees(rs[..|rs|-1]);
      RunTallies(rs[..|rs|-1]);
      StepTallies(Run(rs[..|rs|-1]), rs[|rs|-1]);
    }
  }

  /** The live tallies against the replay's verdicts: `cleared` counts the orders judged cleared
      and marketable, `missed` those judged missed and not cancelled. */
  lemma TalliesByVerdict(rs: seq<Report>, k: OrderKey)
    requires FitRun(rs)
    ensures var t := Run(rs);
            && t.cleared == |Ended(t.log, IsFilled())| && t.missed == |Ended(t.log, IsCounted())|
            && (k in Ended(t.log, IsFilled()) <==>
                  var es := Of(t.log, k); es != [] && Judge(es).Cleared? && JudgedMarketable(es))
            && (k in Ended(t.log, IsCounted()) <==>
                  var es := Of(t.log, k); es != [] && Judge(es).Missed? && FirstTerminal(es) != Some(Cancelled))
  {
    RunTallies(rs);
    EndedMember(Run(rs).log, IsFilled(), k);
    EndedMember(Run(rs).log, IsCounted(), k);
  }

  // ---- the table and the scorer as they run ----

  /** The orders the replay calls stuck open. */
  function Stuck(log: seq<Line>, now: int): set<OrderKey> {
    set l | l in log && Of(log, l.key) != [] && StuckOpen(Of(log, l.key), now) :: l.key
  }

  /** The orders of the table that are stale. */
  function StaleIn(orders: map<OrderKey, Rec>, now: int): set<OrderKey> {
    set k | k in orders && Stale(orders[k], now)
  }

  /** At every time the live gauge counts the very orders the replay would call stuck open. */
  lemma StaleSetIsStuckSet(rs: seq<Report>, now: int)
    requires FitRun(rs)
    requires forall k | Of(Run(rs).log, k) != [] && Judge(Of(Run(rs).log, k)).Resting? ::
             ExpiryStands(Of(Run(rs).log, k))
    ensures StaleIn(Run(rs).orders, now) == Stuck(Run(rs).log, now)
  {
    var t := Run(rs);
    forall k ensures k in StaleIn(t.orders, now) <==> k in Stuck(t.log, now) {
      RunAgrees(rs);
      assert AgreesOn(t.orders, k, Of(t.log, k));
      FilterMembers(t.log, ForKey(k));
      if Of(t.log, k) != [] {
        StaleIsStuck(rs, k);
        assert Of(t.log, k)[0] in Of(t.log, k);
      }
    }
  }

  class Live {
    var orders: map<OrderKey, Rec>
    var cleared: nat
    var missed: nat
    var log: seq<Line>

    ghost function Value(): Tables
      reads this
    {
      Tables(orders, cleared, missed, log)
    }

    constructor ()
      ensures Value() == Run([])
    {
      orders, cleared, missed, log := map[], 0, 0, [];
    }

    /** Append a line; the record remembers its time, and an expiry if the line names one. */
    method Log(rec: Rec, ts: int, key: OrderKey, event: Event) returns (r: Rec)
      modifies `log
      ensures log == old(log) + [Line(ts, key, event, rec.marketable)]
      ensures r == rec.(last := ts,
                        expires := if event.Rested? && event.expires != 0 then event.expires else rec.expires)
    {
      log := log + [Line(ts, key, event, rec.marketable)];
      r := rec.(last := ts);
      if event.Rested? && event.expires != 0 {
        r := r.(expires := event.expires);
      }
    }

    method OnPlaced(ts: int, key: OrderKey, marketable: bool)
      modifies this
      ensures Value() == Apply(old(Value()), Report(ts, key, Placed, marketable))
    {
      var rec := Log(Rec(PlacedPhase, ts, 0, marketable), ts, key, Placed);
      orders := orders[key := rec];
    }

    /** Rounded, reverted, requeued, deferred or rested. */
    method OnMoved(ts: int, key: OrderKey, event: Event)
      requires !event.Placed? && !event.Terminal?
      modifies this
      ensures forall m :: Value() == Apply(old(Value()), Report(ts, key, event, m))
    {
      if key in orders {
        var rec := orders[key].(phase := PhaseAfter(event));
        if event.Rested? {
          rec := rec.(marketable := false);
        }
        rec := Log(rec, ts, key, event);
        orders := orders[key := rec];
      }
    }

    method OnTerminal(ts: int, key: OrderKey, outcome: Result)
      modifies this
      ensures forall m :: Value() == Apply(old(Value()), Report(ts, key, Terminal(outcome), m))
    {
      var rec := if key in orders then orders[key] else Rec(PlacedPhase, ts, 0, false);
      orders := orders - {key};
      if rec.marketable {
        if outcome.Filled? {
          cleared := cleared + 1;
        } else if Counts(outcome) {
          missed := missed + 1;
        }
      }
      rec := Log(rec, ts, key, Terminal(outcome));
    }

    /** The live counts: open orders by phase, stale ones by phase, the longest any is late, and
        the share of marketable orders that cleared. */
    method Snapshot(now: int) returns (r: Gauges)
      ensures r.open == |orders| && r.cleared == cleared && r.missed == missed
      ensures Counted(orders, orders.Keys, Anything(), r.phases) && SumOf(r.phases) == r.open
      ensures Counted(orders, orders.Keys, IsStale(now), r.stale) && SumOf(r.stale) == |StaleIn(orders, now)|
      ensures Oldest(orders, orders.Keys, now, r.oldest)
      ensures r.slo == Share(cleared, missed)
    {
      ghost var seen;
      var phases, stale, oldest;
      phases, stale, oldest, seen := Gauge(orders, now);
      CountsAre(orders, seen, Anything());
      CountsAre(orders, seen, IsStale(now));
      OldestIs(orders, seen, now);
      AllCounted(orders, now);
      r := Gauges(cleared, missed, |orders|, phases, stale, oldest, Share(cleared, missed));
    }
  }

  // ---- the gauges ----

  datatype Gauges = Gauges(cleared: nat, missed: nat, open: nat, phases: map<Phase, nat>, stale: map<Phase, nat>,
                           oldest: int, slo: real)

  /** The part of all that counts which went well; everything, if nothing counts. */
  function Share(good: nat, bad: nat): (r: real)
    ensures 0.0 <= r <= 1.0 && (r == 1.0 <==> bad == 0)
  {
    if good + bad == 0 then 1.0
    else
      Quotient(good as real, (good + bad) as real);
      good as real / (good + bad) as real
  }

  lemma Times(r: real, g: real, t: real)
    requires t > 0.0 && r == g / t
    ensures r * t == g
  {
  }

  lemma TimesGrows(a: real, b: real, t: real)
    requires a <= b && t > 0.0
    ensures a * t <= b * t
  {
    assert (b - a) * t >= 0.0;
  }

  lemma Below(r: real, g: real, t: real)
    requires r * t == g && 0.0 <= g < t
    ensures 0.0 <= r < 1.0
  {
    if r >= 1.0 {
      TimesGrows(1.0, r, t);
    } else if r < 0.0 {
      TimesNegative(r, t);
    }
  }

  lemma TimesNegative(r: real, t: real)
    requires r < 0.0 && t > 0.0
    ensures r * t < 0.0
  {
  }

  lemma Quotient(g: real, t: real)
    requires 0.0 <= g <= t && t > 0.0
    ensures 0.0 <= g / t <= 1.0 && (g / t == 1.0 <==> g == t)
  {
    if g == t {
      assert t / t == 1.0;
    } else {
      Times(g / t, g, t);
      Below(g / t, g, t);
    }
  }

  function At(m: map<Phase, nat>, ph: Phase): nat { if ph in m then m[ph] else 0 }

  function Bump(m: map<Phase, nat>, ph: Phase): map<Phase, nat> { m[ph := At(m, ph) + 1] }

  function SumOf(m: map<Phase, nat>): nat {
    At(m, PlacedPhase) + At(m, RoundedPhase) + At(m, DeferredPhase) + At(m, RestedPhase)
  }

  function Anything(): Rec -> bool { (rec: Rec) => true }
  function IsStale(now: int): Rec -> bool { (rec: Rec) => Stale(rec, now) }
  function InPhase(ph: Phase, q: Rec -> bool): Rec -> bool { (rec: Rec) => rec.phase == ph && q(rec) }

  /** The orders among `ks` whose record satisfies `p`. */
  function Among(orders: map<OrderKey, Rec>, ks: set<OrderKey>, p: Rec -> bool): set<OrderKey> {
    set k | k in ks && k in orders && p(orders[k])
  }

  ghost predicate Oldest(orders: map<OrderKey, Rec>, ks: set<OrderKey>, now: int, oldest: int)
    requires ks <= orders.Keys
  {
    && oldest >= 0 && (forall k | k in ks :: Late(orders[k], now) <= oldest)
    && (oldest == 0 || exists k :: k in ks && Late(orders[k], now) == oldest)
  }

  /** `m` counts, phase by phase, the orders among `ks` that satisfy `q`. */
  ghost predicate Counted(orders: map<OrderKey, Rec>, ks: set<OrderKey>, q: Rec -> bool, m: map<Phase, nat>) {
    && (forall ph :: At(m, ph) == |Among(orders, ks, InPhase(ph, q))|)
    && SumOf(m) == |Among(orders, ks, q)|
  }

  lemma AmongNext(orders: map<OrderKey, Rec>, ks: set<OrderKey>, k: OrderKey, p: Rec -> bool)
    requires k in orders && k !in ks
    ensures |Among(orders, ks + {k}, p)| == |Among(orders, ks, p)| + if p(orders[k]) then 1 else 0
  {
    var before, after := Among(orders, ks, p), Among(orders, ks + {k}, p);
    assert after == if p(orders[k]) then before + {k} else before;
  }

  lemma BumpSum(m: map<Phase, nat>, ph: Phase)
    ensures SumOf(Bump(m, ph)) == SumOf(m) + 1
    ensures forall q :: At(Bump(m, ph), q) == At(m, q) + if q == ph then 1 else 0
  {
  }

  lemma OldestNext(orders: map<OrderKey, Rec>, ks: set<OrderKey>, k: OrderKey, now: int, oldest: int)
    requires ks <= orders.Keys && k in orders && Oldest(orders, ks, now, oldest)
    ensures Oldest(orders, ks + {k}, now, if Late(orders[k], now) > oldest then Late(orders[k], now) else oldest)
  {
    if Late(orders[k], now) > oldest {
      assert k in ks + {k};
    } else if oldest != 0 {
      var m :| m in ks && Late(orders[m], now) == oldest;
      assert m in ks + {k};
    }
  }

  lemma CountedNext(orders: map<OrderKey, Rec>, ks: set<OrderKey>, k: OrderKey, q: Rec -> bool, m: map<Phase, nat>)
    requires Counted(orders, ks, q, m) && k in orders && k !in ks
    ensures Counted(orders, ks + {k}, q, if q(orders[k]) then Bump(m, orders[k].phase) else m)
  {
    BumpSum(m, orders[k].phase);
    AmongNext(orders, ks, k, q);
    forall ph ensures |Among(orders, ks + {k}, InPhase(ph, q))| ==
                        |Among(orders, ks, InPhase(ph, q))| + if InPhase(ph, q)(orders[k]) then 1 else 0
    {
      AmongNext(orders, ks, k, InPhase(ph, q));
    }
  }

  lemma NoneCounted(orders: map<OrderKey, Rec>, q: Rec -> bool)
    ensures Counted(orders, {}, q, map[])
  {
    assert forall p: Rec -> bool :: Among(orders, {}, p) == {};
  }

  lemma AllCounted(orders: map<OrderKey, Rec>, now: int)
    ensures Among(orders, orders.Keys, IsStale(now)) == StaleIn(orders, now)
    ensures Among(orders, orders.Keys, Anything()) == orders.Keys && |orders.Keys| == |orders|
  {
  }

  /** The counts after visiting `ks`, and the longest any of them is late. */
  function CountsOf(orders: map<OrderKey, Rec>, ks: seq<OrderKey>, q: Rec -> bool): map<Phase, nat>
    requires forall k | k in ks :: k in orders
  {
    if ks == [] then map[]
    else
      var m, rec := CountsOf(orders, ks[..|ks|-1], q), orders[ks[|ks|-1]];
      if q(rec) then Bump(m, rec.phase) else m
  }

  function OldestOf(orders: map<OrderKey, Rec>, ks: seq<OrderKey>, now: int): int
    requires forall k | k in ks :: k in orders
  {
    if ks == [] then 0
    else
      var oldest, late := OldestOf(orders, ks[..|ks|-1], now), Late(orders[ks[|ks|-1]], now);
      if late > oldest then late else oldest
  }

  function Visited(ks: seq<OrderKey>): set<OrderKey> { set k | k in ks }

  lemma VisitedSnoc(ks: seq<OrderKey>)
    requires ks != []
    ensures Visited(ks) == Visited(ks[..|ks|-1]) + {ks[|ks|-1]}
  {
    assert ks == ks[..|ks|-1] + [ks[|ks|-1]];
  }

  lemma {:induction false} CountsAre(orders: map<OrderKey, Rec>, ks: seq<OrderKey>, q: Rec -> bool)
    requires (forall k | k in ks :: k in orders) && Distinct(ks)
    ensures Counted(orders, Visited(ks), q, CountsOf(orders, ks, q))
  {
    if ks == [] {
      NoneCounted(orders, q);
    } else {
      var n := |ks| - 1;
      CountsAre(orders, ks[..n], q);
      VisitedSnoc(ks);
      CountedNext(orders, Visited(ks[..n]), ks[n], q, CountsOf(orders, ks[..n], q));
    }
  }

  lemma {:induction false} OldestIs(orders: map<OrderKey, Rec>, ks: seq<OrderKey>, now: int)
    requires forall k | k in ks :: k in orders
    ensures Oldest(orders, Visited(ks), now, OldestOf(orders, ks, now))
  {
    if ks == [] {
      assert Visited(ks) == {};
    } else {
      var n := |ks| - 1;
      OldestIs(orders, ks[..n], now);
      VisitedSnoc(ks);
      OldestNext(orders, Visited(ks[..n]), ks[n], now, OldestOf(orders, ks[..n], now));
    }
  }

  /** One pass over the open orders, in whatever order they come. */
  method Gauge(orders: map<OrderKey, Rec>, now: int)
    returns (phases: map<Phase, nat>, stale: map<Phase, nat>, oldest: int, ghost seen: seq<OrderKey>)
    ensures Distinct(seen) && Visited(seen) == orders.Keys && forall k | k in seen :: k in orders
    ensures phases == CountsOf(orders, seen, Anything()) && stale == CountsOf(orders, seen, IsStale(now))
    ensures oldest == OldestOf(orders, seen, now)
  {
    phases, stale, oldest, seen := map[], map[], 0, [];
    var rest := orders.Keys;
    while rest != {}
      invariant Distinct(seen) && Visited(seen) == orders.Keys - rest && rest <= orders.Keys
      invariant forall k | k in seen :: k in orders
      invariant phases == CountsOf(orders, seen, Anything()) && stale == CountsOf(orders, seen, IsStale(now))
      invariant oldest == OldestOf(orders, seen, now)
      decreases rest
    {
      var k :| k in rest;
      var late := Late(orders[k], now);
      phases := Bump(phases, orders[k].phase);
      if late > oldest {
        oldest := late;
      }
      if late > OPEN_GRACE {
        stale := Bump(stale, orders[k].phase);
      }
      assert (seen + [k])[..|seen|] == seen;
      assert k !in Visited(seen);
      VisitedSnoc(seen + [k]);
      seen, rest := seen + [k], rest - {k};
    }
  }

  // ---- the scorer ----

  /** The orders of a log, each once, in the order the log first names them. */
  function FirstKeys(log: seq<Line>): seq<OrderKey> {
    if log == [] then []
    else
      var front, k := FirstKeys(log[..|log|-1]), log[|log|-1].key;
      if k in front then front else front + [k]
  }

  predicate IsStuck(log: seq<Line>, now: int, k: OrderKey) { Of(log, k) != [] && StuckOpen(Of(log, k), now) }

  /** How long a stuck order has been silent, or past its expiry. */
  function Age(es: seq<Line>, now: int): int
    requires es != []
  {
    if Judge(es).Resting? then now - LastExpiry(es) else now - LatestOf(es)
  }

  function StuckOf(log: seq<Line>, now: int): OrderKey -> bool { (k: OrderKey) => IsStuck(log, now, k) }

  function JudgedAs(log: seq<Line>, v: Verdict): OrderKey -> bool {
    (k: OrderKey) => Of(log, k) != [] && Judge(Of(log, k)) == v
  }

  datatype Score = Score(seen: nat, tally: map<Verdict, nat>, stuck: seq<(OrderKey, int)>, slo: real, pass: bool)

  function Tally(m: map<Verdict, nat>, v: Verdict): nat { if v in m then m[v] else 0 }

  /** Every order of the log by its verdict, and those stuck open with their age, in log order. */
  ghost predicate Scores(log: seq<Line>, ks: seq<OrderKey>, now: int, tally: map<Verdict, nat>,
                         stuck: seq<(OrderKey, int)>) {
    && (forall v :: Tally(tally, v) == |Filter(ks, JudgedAs(log, v))|)
    && |stuck| == |Filter(ks, StuckOf(log, now))|
    && (forall i | 0 <= i < |stuck| ::
          && stuck[i].0 == Filter(ks, StuckOf(log, now))[i] && Of(log, stuck[i].0) != []
          && stuck[i].1 == Age(Of(log, stuck[i].0), now))
  }

  lemma KeysSnoc(ks: seq<OrderKey>, i: nat, p: OrderKey -> bool)
    requires i < |ks|
    ensures Filter(ks[..i+1], p) == Filter(ks[..i], p) + if p(ks[i]) then [ks[i]] else []
  {
    assert ks[..i+1] == ks[..i] + [ks[i]];
    FilterConcat(ks[..i], [ks[i]], p);
  }

  lemma ScoresNext(log: seq<Line>, ks: seq<OrderKey>, i: nat, now: int, tally: map<Verdict, nat>,
                   stuck: seq<(OrderKey, int)>)
    requires i < |ks| && Of(log, ks[i]) != [] && Scores(log, ks[..i], now, tally, stuck)
    ensures var k, v := ks[i], Judge(Of(log, ks[i]));
            Scores(log, ks[..i+1], now, tally[v := Tally(tally, v) + 1],
                   if IsStuck(log, now, k) then stuck + [(k, Age(Of(log, k), now))] else stuck)
  {
    KeysSnoc(ks, i, StuckOf(log, now));
    forall v ensures |Filter(ks[..i+1], JudgedAs(log, v))| ==
                       |Filter(ks[..i], JudgedAs(log, v))| + if Judge(Of(log, ks[i])) == v then 1 else 0
    {
      KeysSnoc(ks, i, JudgedAs(log, v));
    }
  }

  lemma FirstKeysSnoc(log: seq<Line>, i: nat)
    requires i < |log|
    ensures var front, k := FirstKeys(log[..i]), log[i].key;
            FirstKeys(log[..i+1]) == if k in front then front else front + [k]
  {
    assert log[..i+1][..i] == log[..i];
  }

  lemma {:induction false} FirstKeysNamed(log: seq<Line>, k: OrderKey)
    ensures k in FirstKeys(log) <==> Of(log, k) != []
  {
    if log == [] {
      assert Of(log, k) == [];
    } else {
      var n := |log| - 1;
      FirstKeysNamed(log[..n], k);
      assert log == log[..n] + [log[n]];
      OfSnoc(log[..n], log[n], k);
    }
  }

  /** The first line that names an order. */
  function FirstLine(log: seq<Line>, k: OrderKey): nat {
    if log == [] || log[0].key == k then 0 else 1 + FirstLine(log[1..], k)
  }

  lemma {:induction false} FirstLineSnoc(log: seq<Line>, l: Line, k: OrderKey)
    ensures FirstLine(log + [l], k) ==
              if Of(log, k) != [] then FirstLine(log, k) else if l.key == k then |log| else |log| + 1
    ensures Of(log, k) != [] ==> FirstLine(log, k) < |log|
  {
    if log == [] {
      assert Of(log, k) == [] && (log + [l])[1..] == [];
    } else {
      FirstLineSnoc(log[1..], l, k);
      assert (log + [l])[1..] == log[1..] + [l];
    }
  }

  /** Each order once, in the order of its first line. */
  lemma {:induction false} FirstKeysInOrder(log: seq<Line>)
    ensures forall i, j | 0 <= i < j < |FirstKeys(log)| ::
              FirstLine(log, FirstKeys(log)[i]) < FirstLine(log, FirstKeys(log)[j])
  {
    if log == [] {
      assert FirstKeys(log) == [];
    } else {
      var n := |log| - 1;
      var front, l := log[..n], log[n];
      FirstKeysInOrder(front);
      assert log == front + [l];
      forall k ensures k in FirstKeys(front) ==> FirstLine(log, k) == FirstLine(front, k) < n
               ensures k == l.key && k !in FirstKeys(front) ==> FirstLine(log, k) == n
      {
        FirstKeysNamed(front, k);
        FirstLineSnoc(front, l, k);
      }
    }
  }

  /** The orders of the log as they are first met. */
  method CollectKeys(log: seq<Line>) returns (keys: seq<OrderKey>)
    ensures keys == FirstKeys(log)
  {
    keys := [];
    for i := 0 to |log|
      invariant keys == FirstKeys(log[..i])
    {
      FirstKeysSnoc(log, i);
      if log[i].key !in keys {
        keys := keys + [log[i].key];
      }
    }
    assert log[..|log|] == log;
  }

  /** One order after the other is judged. */
  method TallyKeys(log: seq<Line>, keys: seq<OrderKey>, now: int)
    returns (tally: map<Verdict, nat>, stuck: seq<(OrderKey, int)>)
    requires forall k | k in keys :: Of(log, k) != []
    ensures Scores(log, keys, now, tally, stuck)
  {
    tally, stuck := map[], [];
    for i := 0 to |keys|
      invariant Scores(log, keys[..i], now, tally, stuck)
    {
      var k := keys[i];
      ScoresNext(log, keys, i, now, tally, stuck);
      var es := Of(log, k);
      var v := Judge(es);
      tally := tally[v := Tally(tally, v) + 1];
      if StuckOpen(es, now) {
        stuck := stuck + [(k, Age(es, now))];
      }
    }
    assert keys[..|keys|] == keys;
  }

  /** The verdict on a log. */
  method ScoreLog(log: seq<Line>, now: int, target: real) returns (r: Score)
    ensures r.seen == |FirstKeys(log)| && Scores(log, FirstKeys(log), now, r.tally, r.stuck)
    ensures r.slo == Share(Tally(r.tally, Cleared), Tally(r.tally, Missed) + |r.stuck|)
    ensures r.pass <==> r.slo >= target && r.stuck == []
  {
    var keys := CollectKeys(log);
    forall k | k in keys ensures Of(log, k) != [] {
      FirstKeysNamed(log, k);
    }
    var tally, stuck := TallyKeys(log, keys, now);
    var slo := Share(Tally(tally, Cleared), Tally(tally, Missed) + |stuck|);
    r := Score(|keys|, tally, stuck, slo, slo >= target && stuck == []);
  }

  // ---- the live gauges against the verdict ----

  lemma {:induction false} VisitedSize(ks: seq<OrderKey>)
    requires Distinct(ks)
    ensures |Visited(ks)| == |ks|
  {
    if ks == [] {
      assert Visited(ks) == {};
    } else {
      VisitedSize(ks[..|ks|-1]);
      VisitedSnoc(ks);
    }
  }

  lemma FirstKeysDistinct(log: seq<Line>)
    ensures Distinct(FirstKeys(log))
  {
    FirstKeysInOrder(log);
  }

  /** The orders the replay judges `v`. */
  function Verdicts(log: seq<Line>, v: Verdict): set<OrderKey> { Visited(Filter(FirstKeys(log), JudgedAs(log, v))) }

  lemma VerdictsAre(log: seq<Line>, v: Verdict)
    ensures |Verdicts(log, v)| == |Filter(FirstKeys(log), JudgedAs(log, v))|
    ensures forall k :: k in Verdicts(log, v) <==> JudgedAs(log, v)(k)
  {
    var ks := FirstKeys(log);
    FirstKeysDistinct(log);
    FilterDistinct(ks, JudgedAs(log, v));
    VisitedSize(Filter(ks, JudgedAs(log, v)));
    forall k ensures k in Verdicts(log, v) <==> JudgedAs(log, v)(k) {
      FilterMember(ks, JudgedAs(log, v), k);
      FirstKeysNamed(log, k);
    }
  }

  /** The verdict lists exactly the orders stuck open. */
  lemma StuckListed(log: seq<Line>, now: int)
    ensures Visited(Filter(FirstKeys(log), StuckOf(log, now))) == Stuck(log, now)
  {
    forall k ensures k in Visited(Filter(FirstKeys(log), StuckOf(log, now))) <==> k in Stuck(log, now) {
      FilterMember(FirstKeys(log), StuckOf(log, now), k);
      FirstKeysNamed(log, k);
      FilterMembers(log, ForKey(k));
      if Of(log, k) != [] {
        assert Of(log, k)[0] in Of(log, k);
      }
    }
  }

  lemma SubsetSizes(a: set<OrderKey>, b: set<OrderKey>)
    requires a <= b
    ensures |a| <= |b| && (|a| == |b| <==> a == b)
  {
    var rest := b - a;
    assert b == a + rest;
  }

  /** The live tallies never exceed the verdict's. They are the same if and only if every order
      judged cleared was marketable, and no order judged missed was cancelled. */
  lemma TalliesAgreeIff(rs: seq<Report>)
    requires FitRun(rs)
    ensures var t := Run(rs);
            && t.cleared <= |Verdicts(t.log, Cleared)| && t.missed <= |Verdicts(t.log, Missed)|
            && (t.cleared == |Verdicts(t.log, Cleared)| <==>
                  forall k | k in Verdicts(t.log, Cleared) :: JudgedMarketable(Of(t.log, k)))
            && (t.missed == |Verdicts(t.log, Missed)| <==>
                  forall k | k in Verdicts(t.log, Missed) :: FirstTerminal(Of(t.log, k)) != Some(Cancelled))
  {
    var log := Run(rs).log;
    VerdictsAre(log, Cleared);
    VerdictsAre(log, Missed);
    forall k
      ensures k in Ended(log, IsFilled()) <==> k in Verdicts(log, Cleared) && JudgedMarketable(Of(log, k))
      ensures k in Ended(log, IsCounted()) <==>
              k in Verdicts(log, Missed) && FirstTerminal(Of(log, k)) != Some(Cancelled)
    {
      TalliesByVerdict(rs, k);
    }
    TalliesByVerdict(rs, OrderKey(0, 0, 0));
    SubsetSizes(Ended(log, IsFilled()), Verdicts(log, Cleared));
    SubsetSizes(Ended(log, IsCounted()), Verdicts(log, Missed));
  }

  /** A run in which one order is placed and ends. */
  function OneOrder(marketable: bool, outcome: Result): seq<Report> {
    var k := OrderKey(0, 0, 1);
    [Report(0, k, Placed, marketable), Report(1, k, Terminal(outcome), marketable)]
  }

  lemma OneOrderRun(marketable: bool, outcome: Result)
    ensures var rs, k := OneOrder(marketable, outcome), OrderKey(0, 0, 1);
            && FitRun(rs)
            && Run(rs).log == [Line(0, k, Placed, marketable), Line(1, k, Terminal(outcome), marketable)]
            && Run(rs).cleared == (if marketable && outcome.Filled? then 1 else 0)
            && Run(rs).missed == (if marketable && Counts(outcome) then 1 else 0)
  {
    var rs, k := OneOrder(marketable, outcome), OrderKey(0, 0, 1);
    assert rs[..1][..0] == [];
    assert Run(rs[..1]) == Tables(map[k := Rec(PlacedPhase, 0, 0, marketable)], 0, 0, [Line(0, k, Placed, marketable)]);
    assert FitRun([]) && FitRun(rs[..1]);
  }

  lemma TwoLines(log: seq<Line>, k: OrderKey, x: OrderKey)
    requires |log| == 2 && log[0].key == k && log[1].key == k
    ensures Of(log, x) == if x == k then log else []
  {
    if x == k {
      FilterAll(log, ForKey(k));
    } else {
      FilterNone(log, ForKey(x));
    }
  }

  lemma TwoLinesJudged(log: seq<Line>, outcome: Result, v: Verdict)
    requires |log| == 2 && log[0].event == Placed && log[1].event == Terminal(outcome)
    requires log[0].marketable == log[1].marketable
    requires v == if outcome.Filled? then Cleared else if log[0].marketable then Missed else Lapsed
    ensures Judge(log) == v
  {
    assert log[0] in log && log[1] in log;
    assert FirstTerminal(log[1..]) == Some(outcome);
  }

  lemma OneOrderJudged(marketable: bool, outcome: Result, v: Verdict)
    requires v == if outcome.Filled? then Cleared else if marketable then Missed else Lapsed
    ensures Verdicts(Run(OneOrder(marketable, outcome)).log, v) == {OrderKey(0, 0, 1)}
  {
    var k, log := OrderKey(0, 0, 1), Run(OneOrder(marketable, outcome)).log;
    OneOrderRun(marketable, outcome);
    TwoLinesJudged(log, outcome, v);
    VerdictsAre(log, v);
    forall x ensures x in Verdicts(log, v) <==> x == k {
      TwoLines(log, k, x);
    }
  }

  /** Both ways the tallies differ: a filled order that was not marketable is cleared for the
      verdict only, and a marketable order that was cancelled is missed for the verdict only. */
  lemma TalliesDiffer()
    ensures FitRun(OneOrder(false, Filled)) && FitRun(OneOrder(true, Cancelled))
    ensures var t := Run(OneOrder(false, Filled)); t.cleared == 0 && |Verdicts(t.log, Cleared)| == 1
    ensures var t := Run(OneOrder(true, Cancelled)); t.missed == 0 && |Verdicts(t.log, Missed)| == 1
  {
    OneOrderRun(false, Filled);
    OneOrderRun(true, Cancelled);
    OneOrderJudged(false, Filled, Cleared);
    OneOrderJudged(true, Cancelled, Missed);
  }
}
