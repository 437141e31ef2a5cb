/**
 * The `ChatClicks` bot object: its configuration, the state its event
 * handlers update in place (`poll_dict`, `priority_dict`, `ban_list`,
 * `_tug_of_war`), and one pass of the polling loop. Each method is proved to
 * perform, on the fields, the transition the pure modules define.
 */
module Bot {
  import opened Wrappers
  import opened Geometry
  import TugOfWar
  import opened PriorityLedger
  import opened Ingest
  import opened Resolve

  /**
   * The fields of a `bits` payload the core reads: `test` is `"transaction" in
   * data`, `kind` is `data["type"]`, of which "priority", "chaos" and "order"
   * have an effect.
   */
  datatype BitsEvent = BitsEvent(test: bool, kind: string, cost: int, opaqueId: string, displayName: string)

  /** The cost table `bits_cost`: per `type`, the expected cost, or `None` for "any cost". */
  type CostTable = map<string, Option<int>>

  /** How the `bits` handler disposes of a payload. */
  datatype BitsVerdict =
    | TestTransaction  // a test transaction is only logged
    | Unlisted         // the kind is missing from the cost table: the lookup raises
    | CostMismatch     // the paid cost differs from a set expected cost
    | Applied

  /**
   * The checks of the `bits` handler in order: a test transaction is only
   * logged, a kind the cost table lacks raises, a paid cost that differs from
   * a set expected cost is refused.
   */
  function ScreenBits(table: Option<CostTable>, ev: BitsEvent): (v: BitsVerdict)
    ensures v == TestTransaction <==> ev.test
    ensures v == Unlisted <==> !ev.test && table.Some? && ev.kind !in table.value
    ensures v == CostMismatch ==>
              table.Some? && ev.kind in table.value && table.value[ev.kind].Some?
              && table.value[ev.kind].value != ev.cost
  {
    if ev.test then TestTransaction
    else match table
      case None => Applied
      case Some(m) =>
        if ev.kind !in m then Unlisted
        else if m[ev.kind].Some? && m[ev.kind].value != ev.cost then CostMismatch
        else Applied
  }

  /**
   * A payload that is not a test is applied exactly when there is no cost
   * table, or the table lists its kind with no expected cost or the paid one.
   */
  lemma ScreenBitsApplies(table: Option<CostTable>, ev: BitsEvent)
    ensures ScreenBits(table, ev) == Applied <==>
      && !ev.test
      && (table.None? || (ev.kind in table.value && table.value[ev.kind] in {None, Some(ev.cost)}))
  {
  }

  /**
   * A non-empty buffer whose stored weights are all at least one resolves to
   * an action, drawn from the hull of its cloud(s) when the clustering stays
   * in the hull.
   */
  lemma WeightedWindowEmits(t: Tables, cluster: seq<Point> -> Point)
    requires WellFormed(t) && StoredWeightsPositive(t) && t.poll != map[]
    ensures Resolution(Entries(t), cluster).Emitted?
    ensures StaysInHull(cluster) ==> DrawnFromClouds(Entries(t), Resolution(Entries(t), cluster).action)
  {
    EntriesWeighted(t);
    ResolutionEmits(Entries(t), cluster);
    if StaysInHull(cluster) {
      EmittedInHull(Entries(t), cluster);
    }
  }

  class ChatClicks {
    const channelId: string
    const subOnly: bool
    const allowAnonymous: bool
    const subBoost: int
    const priorityBoost: int
    const priorityVotes: int
    const maxPollTime: real
    const tugWeight: int
    const boundingBox: Box
    const checkCoords: Option<Submission -> bool>

    var bitsCost: Option<CostTable>
    var banList: set<string>
    /** `poll_dict`: the window's submissions by participant, and the order they arrived in. */
    var pollDict: map<string, PendingAction>
    var pollOrder: seq<string>
    var priorityDict: Ledger
    var tugOfWar: int

    function Buffers(): Tables
      reads this
    {
      Tables(pollDict, pollOrder, priorityDict)
    }

    function Config(): Settings {
      Settings(boundingBox, priorityBoost, subBoost, checkCoords)
    }

    function Filters(): Policy
      reads this
    {
      Policy(subOnly, allowAnonymous, banList)
    }

    /**
     * The state the handlers keep: the buffer's order matches its keys, the
     * signal is within its bounds, the ban list holds lower-case names, with a
     * positive vote grant every ledger entry is still owed a vote, and with
     * non-negative boosts every stored submission weighs at least one.
     */
    ghost predicate Valid()
      reads this
    {
      && WellFormed(Buffers())
      && TugOfWar.Min <= tugOfWar <= TugOfWar.Max
      && (forall name :: name in banList ==> IsLowerCase(name))
      && (1 <= priorityVotes ==> Positive(priorityDict))
      && (0 <= priorityBoost && 0 <= subBoost ==> StoredWeightsPositive(Buffers()))
    }

    constructor (channelId: string, subOnly: bool, allowAnonymous: bool, banList: Option<seq<string>>,
                 maxPollTime: real, subBoost: int, priorityBoost: int, priorityVotes: int,
                 tugWeight: int, boundingBox: Box, checkCoords: Option<Submission -> bool>)
      ensures Valid()
      ensures this.channelId == channelId && this.subOnly == subOnly && this.allowAnonymous == allowAnonymous
      ensures this.maxPollTime == maxPollTime && this.subBoost == subBoost && this.priorityBoost == priorityBoost
      ensures this.priorityVotes == priorityVotes && this.tugWeight == tugWeight
      ensures this.boundingBox == boundingBox && this.checkCoords == checkCoords
      ensures this.banList == (if banList.None? then {} else set name | name in banList.value :: Lower(name))
      ensures pollDict == map[] && pollOrder == [] && priorityDict == map[]
      ensures tugOfWar == TugOfWar.Initial && bitsCost == None
    {
      this.channelId := channelId;
      this.subOnly := subOnly;
      this.allowAnonymous := allowAnonymous;
      this.banList := if banList.None? then {} else set name | name in banList.value :: Lower(name);
      this.subBoost := subBoost;
      this.priorityBoost := priorityBoost;
      this.priorityVotes := priorityVotes;
      this.maxPollTime := maxPollTime;
      pollDict := map[];
      pollOrder := [];
      priorityDict := map[];
      this.checkCoords := checkCoords;
      bitsCost := None;
      this.tugWeight := tugWeight;
      tugOfWar := TugOfWar.Initial;
      this.boundingBox := boundingBox;
    }

    /** The `tug_of_war` setter: the stored value is the clamped one. */
    method SetTugOfWar(value: int)
      requires Valid()
      modifies this`tugOfWar
      ensures Valid()
      ensures tugOfWar == TugOfWar.Clamp(value)
    {
      tugOfWar := if value < 100 then value else 100;
      tugOfWar := if tugOfWar > -100 then tugOfWar else -100;
    }

    /** The `poll_time` property: between 50 ms and the larger of one second and `max_poll_time`. */
    function PollTime(): (t: real)
      requires Valid()
      reads this
      ensures t == TugOfWar.PollTime(tugOfWar, maxPollTime)
      ensures TugOfWar.FloorInterval <= t
      ensures 0.0 <= maxPollTime ==> t <= TugOfWar.MaxReal(1.0, maxPollTime)
    {
      TugOfWar.PollTimeBounded(tugOfWar, maxPollTime);
      TugOfWar.PollTime(tugOfWar, maxPollTime)
    }

    /** `add_data`, performed in place on `poll_dict` and `priority_dict`. */
    method AddData(ev: ClickEvent, click: Kind)
      requires Valid() && Shaped(click, ev.position)
      modifies this`pollDict, this`pollOrder, this`priorityDict
      ensures Valid()
      ensures Buffers() == Ingest.AddData(old(Buffers()), Config(), ev, click)
    {
      var verdict := Admit(ev, click);
      if verdict == Accepted {
        Store(ev, click);
      }
    }

    /** `add_data`'s checks in order: duplicate, the four (or two) range checks, the integrator's veto. */
    method Admit(ev: ClickEvent, click: Kind) returns (verdict: Verdict)
      ensures verdict == Screen(Buffers(), Config(), ev, click)
    {
      if ev.opaqueId in pollDict {
        return Duplicate;
      }
      if !CoordsInUnit(ev.position) {
        return OutOfRange;
      }
      var submission := SubmissionOf(ev, click, boundingBox);
      if checkCoords.Some? && !checkCoords.value(submission) {
        return Vetoed;
      }
      return Accepted;
    }

    /** The accepted case of `add_data`: weigh the submission, use a priority vote, store it. */
    method Store(ev: ClickEvent, click: Kind)
      requires Valid() && Shaped(click, ev.position)
      requires Screen(Buffers(), Config(), ev, click) == Accepted
      modifies this`pollDict, this`pollOrder, this`priorityDict
      ensures Valid()
      ensures Buffers() == Ingest.AddData(old(Buffers()), Config(), ev, click)
    {
      AcceptedUpdates(Buffers(), Config(), ev, click);
      var id := ev.opaqueId;
      var n := 1;
      var boosted := UseVote(id);
      if boosted {
        n := n + priorityBoost;
      }
      if ev.subscribed {
        n := n + subBoost;
      }
      assert n == Weight(boosted, ev.subscribed, priorityBoost, subBoost);
      AddDataKeepsWellFormed(old(Buffers()), Config(), ev, click);
      var action := PendingAction(ev.loginName, click, ToScreen(ev.position, boundingBox), n);
      StoreKeepsWellFormed(old(Buffers()), id, action, priorityDict);
      pollDict := pollDict[id := action];
      pollOrder := pollOrder + [id];
    }

    /** The ledger step of `add_data`: a participant with an entry uses one owed vote. */
    method UseVote(id: string) returns (boosted: bool)
      modifies this`priorityDict
      ensures boosted == (id in old(priorityDict))
      ensures priorityDict == Consume(old(priorityDict), id)
      ensures Positive(old(priorityDict)) ==> Positive(priorityDict)
    {
      if Positive(priorityDict) {
        ConsumeKeepsPositive(priorityDict, id);
      }
      boosted := id in priorityDict;
      if boosted {
        var entry := priorityDict[id];
        priorityDict := priorityDict[id := entry.(n := entry.n - 1)];
        if priorityDict[id].n == 0 {
          priorityDict := priorityDict - {id};
        }
      }
    }

    /** The filters shared by the three click handlers, then `add_data`. */
    method OnClick(ev: ClickEvent, click: Kind)
      requires Valid() && Shaped(click, ev.position)
      modifies this`pollDict, this`pollOrder, this`priorityDict
      ensures Valid()
      ensures Buffers() == Handle(old(Buffers()), Filters(), Config(), ev, click)
    {
      if subOnly && !ev.subscribed {
        return;
      }
      if ev.loginName in banList {
        return;
      }
      if !allowAnonymous && IsAnonymous(ev.opaqueId) {
        return;
      }
      AddData(ev, click);
    }

    /** The `leftClick` handler. */
    method LeftClick(ev: ClickEvent)
      requires Valid() && ev.position.At?
      modifies this`pollDict, this`pollOrder, this`priorityDict
      ensures Valid()
      ensures Buffers() == Handle(old(Buffers()), Filters(), Config(), ev, Kind.Left)
    {
      OnClick(ev, Kind.Left);
    }

    /** The `rightClick` handler. */
    method RightClick(ev: ClickEvent)
      requires Valid() && ev.position.At?
      modifies this`pollDict, this`pollOrder, this`priorityDict
      ensures Valid()
      ensures Buffers() == Handle(old(Buffers()), Filters(), Config(), ev, Kind.Right)
    {
      OnClick(ev, Kind.Right);
    }

    /** The `drag` handler. */
    method Drag(ev: ClickEvent)
      requires Valid() && ev.position.Span?
      modifies this`pollDict, this`pollOrder, this`priorityDict
      ensures Valid()
      ensures Buffers() == Handle(old(Buffers()), Filters(), Config(), ev, Kind.Drag)
    {
      OnClick(ev, Kind.Drag);
    }

    /**
     * The `bits` handler: a paid "priority" action grants `priority_votes`
     * boosted votes, "chaos" pulls the signal down by `tug_weight` and "order"
     * pulls it up; anything else, and every payload that is not applied,
     * changes nothing.
     */
    method Bits(ev: BitsEvent) returns (verdict: BitsVerdict)
      requires Valid()
      modifies this`priorityDict, this`tugOfWar
      ensures Valid()
      ensures verdict == ScreenBits(bitsCost, ev)
      ensures verdict != Applied || ev.kind !in {"priority", "chaos", "order"} ==>
                priorityDict == old(priorityDict) && tugOfWar == old(tugOfWar)
      ensures verdict == Applied && ev.kind == "priority" ==>
                priorityDict == Grant(old(priorityDict), ev.opaqueId, ev.displayName, priorityVotes)
                && tugOfWar == old(tugOfWar)
      ensures verdict == Applied && ev.kind == "chaos" ==>
                tugOfWar == TugOfWar.Pull(old(tugOfWar), -tugWeight) && priorityDict == old(priorityDict)
      ensures verdict == Applied && ev.kind == "order" ==>
                tugOfWar == TugOfWar.Pull(old(tugOfWar), tugWeight) && priorityDict == old(priorityDict)
    {
      if ev.test {
        return TestTransaction;
      }
      if bitsCost.Some? {
        if ev.kind !in bitsCost.value {
          return Unlisted;
        }
        var expected := bitsCost.value[ev.kind];
        if expected.Some? && expected.value != ev.cost {
          return CostMismatch;
        }
      }
      verdict := Applied;
      var id := ev.opaqueId;
      if ev.kind == "priority" {
        GrantVotes(id, ev.displayName);
      } else if ev.kind == "chaos" {
        SetTugOfWar(tugOfWar - tugWeight);
      } else if ev.kind == "order" {
        SetTugOfWar(tugOfWar + tugWeight);
      }
    }

    /** The ledger step of a paid "priority" action: create the entry, or add to it. */
    method GrantVotes(id: string, displayName: string)
      modifies this`priorityDict
      ensures priorityDict == Grant(old(priorityDict), id, displayName, priorityVotes)
      ensures 1 <= priorityVotes && Positive(old(priorityDict)) ==> Positive(priorityDict)
    {
      if 1 <= priorityVotes && Positive(priorityDict) {
        GrantKeepsPositive(priorityDict, id, displayName, priorityVotes);
      }
      if id !in priorityDict {
        priorityDict := priorityDict[id := Entry(priorityVotes, displayName)];
      } else {
        var entry := priorityDict[id];
        priorityDict := priorityDict[id := entry.(n := entry.n + priorityVotes)];
      }
    }

    /** `ban_username`: the lower-cased name joins the ban list. */
    method BanUsername(name: string)
      requires Valid()
      modifies this`banList
      ensures Valid()
      ensures banList == old(banList) + {Lower(name)}
    {
      banList := banList + {Lower(name)};
    }

    /** `unban_username`: the lower-cased name leaves the ban list, if it was there. */
    method UnbanUsername(name: string)
      requires Valid()
      modifies this`banList
      ensures Valid()
      ensures banList == old(banList) - {Lower(name)}
    {
      var key := Lower(name);
      if key in banList {
        banList := banList - {key};
      }
    }

    /**
     * One pass of the polling loop, after its wait: a non-empty window is
     * resolved into at most one action (`None` when resolution raises), and the
     * window is emptied either way; the priority ledger is not touched. With
     * non-negative boosts nothing raises, and the emitted point(s) lie in the
     * convex hull of the cloud(s) they were drawn from.
     */
    method ClosePoll(cluster: seq<Point> -> Point) returns (emitted: Option<Action>)
      requires Valid()
      modifies this`pollDict, this`pollOrder
      ensures Valid()
      ensures pollDict == map[] && pollOrder == []
      ensures old(pollDict) == map[] ==> emitted == None
      ensures old(pollDict) != map[] ==>
                match Resolution(Entries(old(Buffers())), cluster)
                case Emitted(a) => emitted == Some(a)
                case Raised => emitted == None
      ensures old(pollDict) != map[] && 0 <= priorityBoost && 0 <= subBoost ==> emitted.Some?
      ensures emitted.Some? && 0 <= priorityBoost && 0 <= subBoost && StaysInHull(cluster) ==>
                DrawnFromClouds(Entries(old(Buffers())), emitted.value)
    {
      emitted := None;
      if |pollDict| > 0 {
        if 0 <= priorityBoost && 0 <= subBoost {
          WeightedWindowEmits(Buffers(), cluster);
        }
        var out := FindCenterCluster(Entries(Buffers()), cluster);
        if out.Emitted? {
          emitted := Some(out.action);
        }
        pollDict := map[];
        pollOrder := [];
      } else {
        EmptyBufferHasNoOrder(Buffers());
      }
    }
  }
}
