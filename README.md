# ChatClicks vote aggregation, modelled in Dafny

ChatClicks is a bot for a Twitch extension. Viewers click, right-click or
drag on the streamed screen. The bot collects one submission per viewer in a
polling window and, when the window closes, turns the window into a single
mouse action. Paid "bits" actions change how submissions are weighed:

- "priority" gives a viewer a number of boosted votes;
- "chaos" and "order" pull a bounded tug-of-war signal down or up, and the
  signal sets how long each window lasts.

This project models the `ChatClicks` class's vote-aggregation core and
proves its contracts:

- `wrappers.dfy` (`Wrappers`): the `Option` type.
- `geometry.dfy` (`Geometry`): points, the monitor's bounding box, and
  how normalised coordinates map onto it. Clicks are eased quadratically and
  drags scaled linearly. Also the arithmetic mean of a point cloud and
  membership in a cloud's convex hull.
- `tug.dfy` (`TugOfWar`): the clamping `tug_of_war` setter, chaos and order
  pulls, and the `poll_time` property.
- `ledger.dfy` (`PriorityLedger`): `priority_dict` as a map. A paid
  priority action grants votes; each accepted submission consumes one, and
  the entry is deleted when it reaches zero.
- `ingest.dfy` (`Ingest`): the handlers' policy filters and `add_data`,
  stated as a pure transition on the window buffer and the ledger.
  `poll_dict` is a map plus the order its keys were inserted in, because
  Python dictionaries iterate in insertion order.
- `resolve.dfy` (`Resolve`): `find_center_cluster`, written as a method
  with the source's loop and proved equal to a specification function. The
  module also holds lemmas about weights, tallies, the winner and the
  emitted point.
- `chatclicks.dfy` (`Bot`): the class `ChatClicks`. Its fields are updated
  in place by methods whose postconditions tie the new state to the pure
  transitions. Its invariant `Valid` says that:
  - the buffer's order matches its keys;
  - the signal lies in [-100, 100];
  - the ban list is lower-case;
  - with a positive `priority_votes`, every ledger entry is positive;
  - with non-negative boosts, every stored submission weighs at least one.

Behaviour as written, kept on purpose:

- The ban filter compares the login name exactly as sent against a set of
  lower-cased names. A login name containing an upper-case letter is never
  dropped by it (`Ingest.BanMissesMixedCase`).
- Left and right clicks share one point cloud.
- Drag endpoints are plain means and are not clustered.
- If the drag tally wins but the drag clouds are empty, the source returns
  the endpoints of the last drag its loop saw. With no drag at all, the
  local variable is unbound and the call raises. This can only happen when
  weights are zero or negative. The model keeps both cases (`LastDrag`,
  `Raised`).
- `max` over the tally dictionary returns the first maximal key. Ties are
  therefore won by left over right over drag.

## Model

| member | source | states |
|---|---|---|
| TugOfWar.Clamp | chatclicks/__init__.py:65-72 | the stored signal always lies in [-100, 100]; a value in range is kept, and one outside is replaced by the nearer bound |
| TugOfWar.Pull | chatclicks/__init__.py:259-262 | a chaos or order action leaves the signal in [-100, 100] whatever its weight |
| TugOfWar.PullIsMonotone | chatclicks/__init__.py:65-72 | a pull through the setter preserves the order of two signals |
| TugOfWar.ChaosReachesFloor | chatclicks/__init__.py:259-260 | k chaos actions of weight w reach -100 from any signal t with k*w >= t + 100 |
| TugOfWar.FloorAbsorbsChaos | chatclicks/__init__.py:259-260 | once the signal is at -100, further chaos actions keep it there |
| TugOfWar.ChaosFromInitial | chatclicks/__init__.py:33 | from the initial 50, one chaos of weight 5 gives 45, thirty give -100, and any number more stay at -100 |
| TugOfWar.PollTime | chatclicks/__init__.py:74-81 | the interval is 0.05 s when the signal is below 1 and at least one second otherwise |
| TugOfWar.PollTimeMonotone | chatclicks/__init__.py:74-81 | a higher signal never gives a shorter interval, for any max_poll_time; with a negative max_poll_time every signal of at least 1 gives exactly one second |
| TugOfWar.PollTimeBounded | chatclicks/__init__.py:74-81 | within the signal's bounds the interval is at least 0.05 s and, for a non-negative max_poll_time, at most the larger of one second and max_poll_time |
| TugOfWar.PollTimeAtMax | chatclicks/__init__.py:81 | at signal 100 the interval equals max_poll_time when max_poll_time is at least one second |
| TugOfWar.PollTimeAtMin | chatclicks/__init__.py:78-79 | at signal -100 the interval is the 0.05 s floor |
| PriorityLedger.Grant | chatclicks/__init__.py:251-258 | a priority action creates the entry with the granted votes under the display name, or adds the votes to an existing entry and keeps its name; no other entry changes |
| PriorityLedger.Consume | chatclicks/__init__.py:147-151 | an accepted submission from a participant with an entry lowers its count by one, and the entry is deleted exactly when the count was 1; without an entry nothing changes; no other entry changes |
| PriorityLedger.ConsumeKeepsPositive | chatclicks/__init__.py:147-151 | deleting entries at zero keeps every remaining count at least 1 |
| PriorityLedger.GrantKeepsPositive | chatclicks/__init__.py:251-258 | granting a positive number of votes keeps every count at least 1 |
| PriorityLedger.ConsumeTimesBalance | chatclicks/__init__.py:146-151 | after k accepted submissions from a participant with balance b >= k, the balance is b - k and the entry exists exactly while b - k > 0 |
| PriorityLedger.GrantLastsExactly | chatclicks/__init__.py:251-258 | a fresh grant of v votes boosts exactly the next v accepted submissions |
| PriorityLedger.FiveVoteScenario | chatclicks/__init__.py:12 | with the default five priority votes, one submission leaves four and five remove the entry |
| Ingest.ToScreen | chatclicks/__init__.py:133-140 | a click stays a click and a drag a drag, and coordinates in the unit square land on the monitor's box |
| Ingest.Screen | chatclicks/__init__.py:112-144 | the verdict is Duplicate exactly when the participant already has an entry, OutOfRange exactly when it is new but a coordinate lies outside [0, 1), Vetoed only when check_coords_func rejects the mapped submission, and Accepted exactly when all three checks pass |
| Ingest.Weight | chatclicks/__init__.py:146-154 | the weight is 1 for a participant who is neither boosted nor subscribed, and at least 1 for non-negative boosts |
| Ingest.WeightMonotone | chatclicks/__init__.py:146-154 | with non-negative boosts, gaining priority or a subscription never lowers the weight |
| Ingest.AddData | chatclicks/__init__.py:105-177 | a duplicate, out-of-range or vetoed submission changes neither poll_dict nor priority_dict; an accepted one adds exactly its participant's key; stored entries are never replaced |
| Ingest.AcceptedWeightAndLedger | chatclicks/__init__.py:146-177 | an accepted submission is stored with its kind and weight 1 + priority_boost (if in the ledger) + sub_boost (if subscribed); its owner's balance drops by one only if they had an entry; no other ledger entry moves |
| Ingest.SecondSubmissionIgnored | chatclicks/__init__.py:112-113 | a second submission from the same participant in a window is a duplicate and leaves the state unchanged |
| Ingest.HalfOpenBoundary | chatclicks/__init__.py:115-120 | a coordinate of 0 passes the range check and a coordinate of 1 fails it |
| Ingest.VetoKeepsLedger | chatclicks/__init__.py:142-144 | a veto by check_coords_func leaves the ledger and the buffer untouched |
| Ingest.AcceptedOnMonitor | chatclicks/__init__.py:133-140 | every stored point, eased click or scaled drag endpoint, lies on the monitor's half-open box |
| Ingest.AddDataKeepsWellFormed | chatclicks/__init__.py:146-177 | add_data keeps the order in step with the keys, every stored action shaped, a positive ledger positive, and, with non-negative boosts, every stored weight at least 1 |
| Ingest.EntriesWeighted | chatclicks/__init__.py:325-327 | the values iterated from a buffer whose stored weights are at least 1 all weigh at least 1, and there are some when the buffer is not empty |
| Ingest.Handle | chatclicks/__init__.py:184-194 | an event dropped by the sub-only, ban-list or anonymous filter (PolicyDrops) changes nothing; otherwise at most the event's own key is added, stored entries are kept, and no other participant's ledger entry changes |
| Ingest.Lower | chatclicks/__init__.py:298 | a lower-cased name keeps its length, has no upper-case letter, and a name already lower-case is unchanged |
| Ingest.BanMissesMixedCase | chatclicks/__init__.py:186 | with a lower-case ban list, a login name with an upper-case letter is dropped only by the sub-only or anonymous filter |
| Ingest.BannedBobStillClicks | chatclicks/__init__.py:186 | after banning "Bob", a payload whose login name is "Bob" passes the filters |
| Geometry.EasePoint | chatclicks/__init__.py:133-135 | a click inside the unit square is mapped onto the monitor's half-open box |
| Geometry.ScalePoint | chatclicks/__init__.py:136-140 | a drag endpoint inside the unit square is mapped onto the monitor's half-open box |
| Geometry.EaseBelowScale | chatclicks/__init__.py:133-140 | the quadratic click mapping never lands further from the box's low edges than the linear one |
| Geometry.Copies | chatclicks/__init__.py:336-343 | repeating a point n times gives n copies of that point, and nothing for n <= 0 |
| Geometry.Mean | chatclicks/__init__.py:371-379 | the mean of a cloud of copies of one point is that point |
| Geometry.SumsOfCopies | chatclicks/__init__.py:336-343 | n copies of a point sum to n times the point |
| Geometry.MeanInHull | chatclicks/__init__.py:371-379 | the mean of a non-empty cloud is a convex combination of its points |
| Resolve.Tally | chatclicks/__init__.py:317-344 | with non-negative weights a tally is non-negative, and with weights of at least 1 it is zero exactly when no entry has that kind |
| Resolve.CloudPointsSubmitted | chatclicks/__init__.py:325-344 | every point of a cloud is the point of some entry that feeds that cloud |
| Resolve.LastDragIsLast | chatclicks/__init__.py:329-334 | the endpoints left by the loop are unbound exactly when the window has no drag, and otherwise are those of a drag with no drag after it |
| Resolve.Resolution | chatclicks/__init__.py:346-386 | a click action carries the winning kind and a non-empty click cloud, a drag action means drag won, and the result raises exactly when the winner's point is unbound: no clicks for a click winner, or an empty drag cloud and no drag at all for a drag winner |
| Resolve.Winner | chatclicks/__init__.py:346 | the chosen kind's tally is maximal, and every kind earlier in the order left, right, drag has a strictly smaller tally |
| Resolve.Pass | chatclicks/__init__.py:315-344 | the loop builds exactly the clouds, tallies and last-drag endpoints of the whole window |
| Resolve.FindCenterCluster | chatclicks/__init__.py:308-386 | the result is the specified resolution: the winner's action, or a raise when its point is unbound |
| Resolve.ExtendWindow | chatclicks/__init__.py:325-344 | one more entry extends its kind's cloud(s) by n copies of its point(s), adds n to its kind's tally only, and becomes the last drag if it is a drag |
| Resolve.CloudSizeIsWeight | chatclicks/__init__.py:325-344 | each cloud holds exactly as many points as the total weight of the entries that feed it |
| Resolve.CloudSumIsMoment | chatclicks/__init__.py:336-344 | each cloud's coordinate sums are the weighted sums n * point over its entries |
| Resolve.MeanIsWeightedAverage | chatclicks/__init__.py:371-379 | a drag endpoint is the weight-averaged endpoint of the submitted drags |
| Resolve.TalliesCoverWindow | chatclicks/__init__.py:317-344 | with every weight at least 1, the tallies are non-negative and add up to at least the number of entries |
| Resolve.ResolutionEmits | chatclicks/__init__.py:381-386 | on a non-empty window of weights at least 1 nothing raises and the action has the winning kind; the None branch is unreachable |
| Resolve.EmittedInHull | chatclicks/__init__.py:349-379 | given a clustering step that stays in the convex hull, every emitted point lies in the hull of the cloud it was drawn from |
| Bot.ScreenBits | chatclicks/__init__.py:244-250 | the verdict is TestTransaction exactly for a test transaction, Unlisted exactly when a cost table exists and lacks the kind, and CostMismatch only when an expected cost is set and differs from the paid one |
| Bot.ScreenBitsApplies | chatclicks/__init__.py:244-250 | a bits payload is applied exactly when it is not a test transaction and either there is no cost table or the table lists its kind with no expected cost or the paid cost |
| Bot.ChatClicks.constructor | chatclicks/__init__.py:12-33 | the configuration is stored, the ban list is the lower-cased names given, the buffers are empty, the signal is 50, there is no cost table, and the invariant holds |
| Bot.ChatClicks.SetTugOfWar | chatclicks/__init__.py:65-72 | the stored signal is the clamped value and the invariant is kept |
| Bot.ChatClicks.PollTime | chatclicks/__init__.py:74-81 | the bot's interval is at least 0.05 s and, for a non-negative max_poll_time, at most the larger of one second and max_poll_time |
| Bot.ChatClicks.AddData | chatclicks/__init__.py:105-177 | the in-place update of poll_dict and priority_dict is the add_data transition, and the invariant is kept |
| Bot.ChatClicks.Admit | chatclicks/__init__.py:112-144 | add_data's checks run in order duplicate, range, veto, and the first that fails decides the verdict |
| Bot.ChatClicks.Store | chatclicks/__init__.py:146-177 | an accepted submission is weighed, uses a priority vote and is appended to poll_dict as the add_data transition says |
| Bot.ChatClicks.UseVote | chatclicks/__init__.py:147-151 | the participant is boosted exactly when they had an entry, the ledger becomes its consumed form, and positivity is kept |
| Bot.ChatClicks.OnClick | chatclicks/__init__.py:184-194 | the sub-only, ban-list and anonymous filters drop the event before add_data, otherwise add_data runs |
| Bot.ChatClicks.LeftClick | chatclicks/__init__.py:179-197 | a left click goes through the filters and add_data as a left click |
| Bot.ChatClicks.RightClick | chatclicks/__init__.py:199-217 | a right click goes through the filters and add_data as a right click |
| Bot.ChatClicks.Drag | chatclicks/__init__.py:219-237 | a drag goes through the filters and add_data as a drag |
| Bot.ChatClicks.Bits | chatclicks/__init__.py:239-262 | a test transaction, an unlisted kind, a cost mismatch or a type other than "priority", "chaos" and "order" changes neither the ledger nor the signal; otherwise priority grants priority_votes, chaos pulls the signal down by tug_weight and order pulls it up, through the clamp |
| Bot.ChatClicks.GrantVotes | chatclicks/__init__.py:251-258 | the ledger becomes its granted form and stays positive for a positive grant |
| Bot.ChatClicks.BanUsername | chatclicks/__init__.py:293-298 | the ban list gains exactly the lower-cased name |
| Bot.ChatClicks.UnbanUsername | chatclicks/__init__.py:300-306 | the ban list loses exactly the lower-cased name, and is unchanged when it was absent |
| Bot.WeightedWindowEmits | chatclicks/__init__.py:325-386 | a non-empty buffer whose stored weights are at least 1 resolves to an action, drawn from the convex hull of its cloud(s) when the clustering stays in the hull |
| Bot.ChatClicks.ClosePoll | chatclicks/__init__.py:388-404 | an empty window emits nothing; a non-empty one emits the resolution of its entries in arrival order, or nothing when that raises; with non-negative boosts it always emits, and the emitted point(s) lie in the hull of their cloud(s); the window is empty afterwards and the ledger is untouched |

## Left out

- The Socket.IO transport and the `connect`, `message`, `init`, `connect_error` and `disconnect` handlers, with `start` and `run`: these are network I/O and asyncio plumbing.
- The monitor lookup through `screeninfo` in the constructor is a foreign call. The bounding box is a constructor parameter, stored as origin and size.
- The `clock_offset` and `event_time` adjustment, which reads the wall clock.
- The `event` decorator, the integrator handlers it registers, and all printed output.
- DBSCAN, the choice of the most populated cluster and its mean belong to foreign libraries. They are the parameter `cluster`, of which only one thing is assumed, as a premise of `Resolve.EmittedInHull`: it returns a point of the convex hull of a non-empty cloud.
- Floating point: coordinates, the bounding box and `poll_time` are reals, with no rounding and no `float` conversion.
- `click_loop`: the sleep, the endless repetition, `poll_callback` and the check of the result by `check_coords_func`. `Bot.ChatClicks.ClosePoll` models one pass after the sleep and returns the action instead of handing it on.
- `check_coords_func` is awaited in the source and may do anything. It is modelled as a pure predicate on the submission with its coordinates mapped onto the monitor.
- `add_data` rewrites the payload dictionary in place (it adds `type` and replaces the coordinates). Only the stored entry is modelled.
- Malformed payloads: a missing key, or a click with drag coordinates, would raise in the source. The model requires a drag to carry a start and an end, and a click a single point.
- A payload whose `action` names a different kind from the handler that receives it is outside the model. In the source, `action` picks the coordinate mapping (`chatclicks/__init__.py:131-140`) and what `check_coords_func` sees, while the range check and the stored `click` follow the handler. The model uses the handler's kind for all of these.
- Interleaving of the asynchronous handlers and the polling loop. Each handler and each loop pass is modelled as one atomic step. In the source, `add_data` awaits `check_coords_func` (`chatclicks/__init__.py:143`) between its duplicate check (:112) and its store (:177). Two submissions from one participant can therefore both pass the duplicate check, both use a priority vote, and the later one overwrites the earlier. Likewise `click_loop` rebinds `poll_dict` (:401) after awaiting the callbacks (:397-398), which loses submissions stored meanwhile and the votes they used. The model rules out both outcomes.
- `Bot.ChatClicks.Bits`: `cost` is taken as an integer that is already parsed; a non-numeric cost raises `ValueError` in the source and is not modelled. A kind missing from the cost table raises `KeyError` there; the model returns the verdict `Unlisted`, which leaves the state unchanged, just as the exception does.
- `bits_cost` is never assigned by the class itself. It is a public field that integrators may set.
- `Ingest.Lower`: `str.lower()` is modelled on ASCII letters only; no other Unicode case mapping is modelled.
- `test.py`, an example integrator script, and `setup.py`, packaging metadata.
