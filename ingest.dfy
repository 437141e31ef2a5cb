/**
 * The ingestion path: the handlers' policy filters and `add_data`, which
 * screens a click or drag, weighs it, consumes a priority vote and stores it
 * in the window buffer (`poll_dict`).
 *
 * `add_data` is stated here as a transition on the three tables it touches;
 * the `ChatClicks` class performs it in place and is proved equal to it.
 */
module Ingest {
  import opened Wrappers
  import opened Geometry
  import opened PriorityLedger

  datatype Kind = Left | Right | Drag

  /** A click's `x`/`y`, or a drag's `start` and `end`. */
  datatype Coords = At(p: Point) | Span(start: Point, end: Point)

  /** The fields of a `leftClick`, `rightClick` or `drag` payload that the core reads. */
  datatype ClickEvent = ClickEvent(opaqueId: string, loginName: string, subscribed: bool, position: Coords)

  /** What `check_coords_func` is shown: the payload with its coordinates mapped onto the monitor. */
  datatype Submission = Submission(opaqueId: string, loginName: string, subscribed: bool, kind: Kind, position: Coords)

  /** One `poll_dict` value: `{"login_name", "click", "coords", "n"}`. */
  datatype PendingAction = PendingAction(loginName: string, click: Kind, coords: Coords, n: int)

  /** The integrator's configuration that `add_data` reads. */
  datatype Settings = Settings(box: Box, priorityBoost: int, subBoost: int, checkCoords: Option<Submission -> bool>)

  /** The configuration and ban list that the three handlers read. */
  datatype Policy = Policy(subOnly: bool, allowAnonymous: bool, banList: set<string>)

  /** `poll_dict` (a map and its insertion order) and `priority_dict`. */
  datatype Tables = Tables(poll: map<string, PendingAction>, order: seq<string>, ledger: Ledger)

  /** Drags carry a start and an end, clicks a single point. */
  predicate Shaped(click: Kind, c: Coords) {
    (click == Drag) == c.Span?
  }

  predicate AllShaped(es: seq<PendingAction>) {
    forall i :: 0 <= i < |es| ==> Shaped(es[i].click, es[i].coords)
  }

  /** The order lists each key of the buffer exactly once, and every stored action is shaped. */
  ghost predicate WellFormed(t: Tables) {
    && (forall i :: 0 <= i < |t.order| ==> t.order[i] in t.poll)
    && (forall id :: id in t.poll ==> id in t.order)
    && (forall i, j :: 0 <= i < j < |t.order| ==> t.order[i] != t.order[j])
    && (forall id :: id in t.poll ==> Shaped(t.poll[id].click, t.poll[id].coords))
  }

  /** An empty buffer has an empty order. */
  lemma EmptyBufferHasNoOrder(t: Tables)
    requires WellFormed(t) && t.poll == map[]
    ensures t.order == []
  {
    FirstOf(t.order);
  }

  lemma FirstOf(s: seq<string>)
    ensures s != [] ==> s[0] in s
  {
  }

  /** `poll_dict.values()` in insertion order. */
  function Entries(t: Tables): (es: seq<PendingAction>)
    requires WellFormed(t)
    ensures |es| == |t.order| && AllShaped(es)
  {
    seq(|t.order|, i requires 0 <= i < |t.order| && t.order[i] in t.poll => t.poll[t.order[i]])
  }

  /** Every component of the submitted position lies in `[0, 1)`; drags check all four. */
  predicate CoordsInUnit(c: Coords) {
    match c
    case At(p) => PointInUnit(p)
    case Span(s, e) => PointInUnit(s) && PointInUnit(e)
  }

  /** Both points of a drag, or the click's point, lie on the monitor. */
  predicate CoordsOnMonitor(c: Coords, box: Box) {
    match c
    case At(p) => OnMonitor(p, box)
    case Span(s, e) => OnMonitor(s, box) && OnMonitor(e, box)
  }

  /**
   * Clicks are eased onto the monitor, drags scaled linearly: the shape is
   * kept, and a position that passed the range check lands on the monitor.
   */
  function ToScreen(c: Coords, box: Box): (r: Coords)
    ensures r.At? == c.At?
    ensures CoordsInUnit(c) && NonDegenerate(box) ==> CoordsOnMonitor(r, box)
  {
    match c
    case At(p) => At(EasePoint(p, box))
    case Span(s, e) => Span(ScalePoint(s, box), ScalePoint(e, box))
  }

  function SubmissionOf(ev: ClickEvent, click: Kind, box: Box): Submission {
    Submission(ev.opaqueId, ev.loginName, ev.subscribed, click, ToScreen(ev.position, box))
  }

  /** The weight of an accepted submission: 1, plus the priority boost, plus the subscriber boost. */
  function Weight(boosted: bool, subscribed: bool, priorityBoost: int, subBoost: int): (n: int)
    ensures 0 <= priorityBoost && 0 <= subBoost ==> n >= 1
    ensures !boosted && !subscribed ==> n == 1
  {
    1 + (if boosted then priorityBoost else 0) + (if subscribed then subBoost else 0)
  }

  /** With non-negative boosts, gaining priority or subscription never lowers the weight. */
  lemma WeightMonotone(b1: bool, s1: bool, b2: bool, s2: bool, priorityBoost: int, subBoost: int)
    requires 0 <= priorityBoost && 0 <= subBoost
    requires (b1 ==> b2) && (s1 ==> s2)
    ensures Weight(b1, s1, priorityBoost, subBoost) <= Weight(b2, s2, priorityBoost, subBoost)
  {
  }

  /** Why `add_data` keeps or drops a submission. */
  datatype Verdict = Duplicate | OutOfRange | Vetoed | Accepted

  /**
   * `add_data`'s checks, first failing one wins: duplicate, range, then the
   * integrator's veto, which is shown the mapped submission.
   */
  function Screen(t: Tables, cfg: Settings, ev: ClickEvent, click: Kind): (v: Verdict)
    ensures v == Duplicate <==> ev.opaqueId in t.poll
    ensures v == OutOfRange <==> ev.opaqueId !in t.poll && !CoordsInUnit(ev.position)
    ensures v == Vetoed ==> cfg.checkCoords.Some? && !cfg.checkCoords.value(SubmissionOf(ev, click, cfg.box))
    ensures v == Accepted <==>
      && ev.opaqueId !in t.poll
      && CoordsInUnit(ev.position)
      && (cfg.checkCoords.None? || cfg.checkCoords.value(SubmissionOf(ev, click, cfg.box)))
  {
    if ev.opaqueId in t.poll then Duplicate
    else if !CoordsInUnit(ev.position) then OutOfRange
    else if cfg.checkCoords.Some? && !cfg.checkCoords.value(SubmissionOf(ev, click, cfg.box)) then Vetoed
    else Accepted
  }

  /**
   * `add_data`: a rejected submission changes neither table; an accepted one
   * adds exactly its participant to the buffer; what is already stored is never
   * replaced.
   */
  function AddData(t: Tables, cfg: Settings, ev: ClickEvent, click: Kind): (r: Tables)
    requires Shaped(click, ev.position)
    ensures Screen(t, cfg, ev, click) != Accepted ==> r == t
    ensures Screen(t, cfg, ev, click) == Accepted ==>
              ev.opaqueId !in t.poll && r.poll.Keys == t.poll.Keys + {ev.opaqueId}
    ensures forall id :: id in t.poll ==> id in r.poll && r.poll[id] == t.poll[id]
  {
    if Screen(t, cfg, ev, click) != Accepted then t
    else
      var id := ev.opaqueId;
      var n := Weight(id in t.ledger, ev.subscribed, cfg.priorityBoost, cfg.subBoost);
      var stored := PendingAction(ev.loginName, click, ToScreen(ev.position, cfg.box), n);
      Tables(t.poll[id := stored], t.order + [id], Consume(t.ledger, id))
  }

  /**
   * An accepted submission is stored with weight `1 + priority_boost (if the
   * participant has an entry) + sub_boost (if subscribed)`, and the participant's
   * owed votes drop by exactly one if they had an entry; no other entry moves.
   */
  lemma AcceptedWeightAndLedger(t: Tables, cfg: Settings, ev: ClickEvent, click: Kind)
    requires Shaped(click, ev.position)
    requires Screen(t, cfg, ev, click) == Accepted
    ensures var r := AddData(t, cfg, ev, click);
      && r.poll[ev.opaqueId].n
           == 1 + (if ev.opaqueId in t.ledger then cfg.priorityBoost else 0)
                + (if ev.subscribed then cfg.subBoost else 0)
      && r.poll[ev.opaqueId].click == click
      && Balance(r.ledger, ev.opaqueId)
           == Balance(t.ledger, ev.opaqueId) - (if ev.opaqueId in t.ledger then 1 else 0)
      && (forall k :: k in t.ledger && k != ev.opaqueId ==> k in r.ledger && r.ledger[k] == t.ledger[k])
  {
  }

  /** A participant's second submission in a window changes nothing: the first one stays. */
  lemma SecondSubmissionIgnored(t: Tables, cfg: Settings, ev1: ClickEvent, c1: Kind, ev2: ClickEvent, c2: Kind)
    requires Shaped(c1, ev1.position) && Shaped(c2, ev2.position)
    requires ev1.opaqueId == ev2.opaqueId
    requires Screen(t, cfg, ev1, c1) == Accepted
    ensures var r := AddData(t, cfg, ev1, c1);
      Screen(r, cfg, ev2, c2) == Duplicate && AddData(r, cfg, ev2, c2) == r
  {
  }

  /** The range is half-open: a click with `x == 0` passes it, one with `x == 1` does not. */
  lemma HalfOpenBoundary(t: Tables, cfg: Settings, id: string, name: string, sub: bool, y: real)
    requires id !in t.poll && cfg.checkCoords == None && InUnit(y)
    ensures Screen(t, cfg, ClickEvent(id, name, sub, At(Point(0.0, y))), Left) == Accepted
    ensures Screen(t, cfg, ClickEvent(id, name, sub, At(Point(1.0, y))), Left) == OutOfRange
  {
  }

  /** A veto by `check_coords_func` leaves the ledger and the buffer as they were. */
  lemma VetoKeepsLedger(t: Tables, cfg: Settings, ev: ClickEvent, click: Kind)
    requires Shaped(click, ev.position)
    requires ev.opaqueId !in t.poll && CoordsInUnit(ev.position)
    requires cfg.checkCoords.Some? && !cfg.checkCoords.value(SubmissionOf(ev, click, cfg.box))
    ensures AddData(t, cfg, ev, click).ledger == t.ledger
    ensures AddData(t, cfg, ev, click).poll == t.poll
  {
  }

  /** What an accepted submission stores lies on the monitor, whichever mapping it took. */
  lemma AcceptedOnMonitor(t: Tables, cfg: Settings, ev: ClickEvent, click: Kind)
    requires Shaped(click, ev.position) && NonDegenerate(cfg.box)
    requires Screen(t, cfg, ev, click) == Accepted
    ensures CoordsOnMonitor(AddData(t, cfg, ev, click).poll[ev.opaqueId].coords, cfg.box)
  {
  }

  /**
   * The accepted case of `AddData`, spelled out as the three updates it makes.
   * It repeats that branch word for word; it serves only to unfold it for the
   * in-place version of `add_data`.
   */
  lemma AcceptedUpdates(t: Tables, cfg: Settings, ev: ClickEvent, click: Kind)
    requires Shaped(click, ev.position) && Screen(t, cfg, ev, click) == Accepted
    ensures var id := ev.opaqueId;
      var n := Weight(id in t.ledger, ev.subscribed, cfg.priorityBoost, cfg.subBoost);
      AddData(t, cfg, ev, click)
        == Tables(t.poll[id := PendingAction(ev.loginName, click, ToScreen(ev.position, cfg.box), n)],
                  t.order + [id], Consume(t.ledger, id))
  {
  }

  /** Storing a shaped action under a new key, appended to the order, keeps the buffer well formed. */
  lemma StoreKeepsWellFormed(t: Tables, id: string, a: PendingAction, ledger: Ledger)
    requires WellFormed(t) && id !in t.poll && Shaped(a.click, a.coords)
    ensures WellFormed(Tables(t.poll[id := a], t.order + [id], ledger))
  {
  }

  /** Every stored submission weighs at least one. */
  predicate StoredWeightsPositive(t: Tables) {
    forall id :: id in t.poll ==> t.poll[id].n >= 1
  }

  /**
   * In a well-formed buffer of positive weights, `poll_dict.values()` all
   * weigh at least one, and there are some as soon as the buffer is not empty.
   */
  lemma EntriesWeighted(t: Tables)
    requires WellFormed(t) && StoredWeightsPositive(t)
    ensures forall i :: 0 <= i < |Entries(t)| ==> Entries(t)[i].n >= 1
    ensures t.poll != map[] ==> Entries(t) != []
  {
    if t.poll != map[] {
      var id :| id in t.poll;
      assert id in t.order;
    }
  }

  /**
   * `add_data` keeps the buffer's order in step with its keys, the ledger
   * positive, and, with non-negative boosts, every stored weight positive.
   */
  lemma AddDataKeepsWellFormed(t: Tables, cfg: Settings, ev: ClickEvent, click: Kind)
    requires Shaped(click, ev.position) && WellFormed(t)
    ensures WellFormed(AddData(t, cfg, ev, click))
    ensures Positive(t.ledger) ==> Positive(AddData(t, cfg, ev, click).ledger)
    ensures 0 <= cfg.priorityBoost && 0 <= cfg.subBoost && StoredWeightsPositive(t) ==>
              StoredWeightsPositive(AddData(t, cfg, ev, click))
  {
  }

  /** `opaque_id.startswith("A")`: the prefix of an anonymous viewer's id. */
  predicate IsAnonymous(id: string) {
    |id| > 0 && id[0] == 'A'
  }

  /**
   * The handlers' filters: sub-only mode and not subscribed, a login name in
   * the ban list (compared as sent, without lower-casing), or an anonymous id
   * while anonymous viewers are not allowed.
   */
  predicate PolicyDrops(p: Policy, ev: ClickEvent) {
    || (p.subOnly && !ev.subscribed)
    || ev.loginName in p.banList
    || (!p.allowAnonymous && IsAnonymous(ev.opaqueId))
  }

  /**
   * A click handler: the filters, then `add_data`. A dropped event changes
   * nothing; otherwise at most the submitter's key is added to the buffer,
   * nothing stored is replaced, and only the submitter's ledger entry can move.
   */
  function Handle(t: Tables, p: Policy, cfg: Settings, ev: ClickEvent, click: Kind): (r: Tables)
    requires Shaped(click, ev.position)
    ensures PolicyDrops(p, ev) ==> r == t
    ensures r.poll.Keys <= t.poll.Keys + {ev.opaqueId}
    ensures forall id :: id in t.poll ==> id in r.poll && r.poll[id] == t.poll[id]
    ensures forall k :: k != ev.opaqueId ==> (k in r.ledger <==> k in t.ledger)
    ensures forall k :: k != ev.opaqueId && k in t.ledger ==> r.ledger[k] == t.ledger[k]
  {
    if PolicyDrops(p, ev) then t else AddData(t, cfg, ev, click)
  }

  function LowerChar(c: char): char {
    if 'A' <= c <= 'Z' then (c as int + 32) as char else c
  }

  predicate IsLowerCase(s: string) {
    forall i :: 0 <= i < |s| ==> !('A' <= s[i] <= 'Z')
  }

  /**
   * `str.lower()` on ASCII letters: the result has the same length and no
   * upper-case letter, and a name that is already lower-case is unchanged.
   */
  function Lower(s: string): (r: string)
    ensures |r| == |s| && IsLowerCase(r)
    ensures IsLowerCase(s) ==> r == s
  {
    seq(|s|, i requires 0 <= i < |s| => LowerChar(s[i]))
  }

  /**
   * As written, the ban filter compares the raw login name with a lower-cased
   * list, so a login name with an upper-case letter is never dropped by it.
   */
  lemma BanMissesMixedCase(p: Policy, ev: ClickEvent)
    requires forall n :: n in p.banList ==> IsLowerCase(n)
    requires !IsLowerCase(ev.loginName)
    ensures PolicyDrops(p, ev) <==> (p.subOnly && !ev.subscribed) || (!p.allowAnonymous && IsAnonymous(ev.opaqueId))
  {
  }

  /** Banning "Bob" stores "bob", and a payload whose login name is "Bob" passes the filters. */
  lemma BannedBobStillClicks(pos: Coords)
    ensures var p := Policy(false, true, {Lower("Bob")});
      !PolicyDrops(p, ClickEvent("U1", "Bob", true, pos))
  {
    assert Lower("Bob")[0] == 'b';
    assert "Bob"[0] == 'B';
  }
}
