# Mine Monitor: models and proofs

Mine Monitor turns the GNSS fixes and camera observations of a mine site into haul cycles,
metrics, alarms and reports. This project models its stateful cores and proves what the program
relies on them for.

| files | what they model |
|---|---|
| `Wrappers` | a value that may be missing |
| `Track`, `Locality`, `Cycles`, `Queueing`, `Analysis`, `Segments` | visits, stops, queue, haul cycles and the restart point of one track |
| `Restart`, `Finality`, `Resumption` | why, and exactly when, an analysis can restart part-way |
| `Metrics`, `Totals`, `Buckets` | metric buckets, what they tell of the fixes, and which of them new fixes can change |
| `Recompute`, `Refresh`, `Stored`, `Slices` | the incremental tick and the sliced on-demand rebuild over stored rows |
| `Runs`, `Standing`, `Interleavings`, `Assets` | one asset's rows under any interleaving of stored fixes, ticks and slices |
| `FirstBucket`, `Rebuilds`, `Conditions` | exactly when a tick, an on-demand rebuild, and the tick after it leave the rows right |
| `Losses` | interleavings after which a row stays wrong |
| `Streaks`, `Evidence`, `Temporal`, `Signs` | the temporal rule engine: one debounce a key, the evidence it gathers, the engine as their product, and what an event rests on |
| `Association`, `Tracking`, `Boxes` | greedy association, the life of a track, and which object keeps its id |
| `Zones`, `Pipeline` | zone debounce, once-per-episode alarms, live processing of deliveries |
| `Forwarding` | spool, broker, ingestor and database as a step system with crashes |
| `Presence`, `Counting`, `Rollup` | people counts per zone and time bucket |
| `Dispatch` | advisory truck allocation |
| `Shifts` | shift windows and the queueing of shift reports |
| `Geometry` | point in polygon by ray casting |

The rows from `Track` to `Losses` are one development. A track is described without any loop: where a visit
starts (`StartAt`), where it ends (`VisitEnd`), whether it counts (`Long`), which cycle it opens
(`CycleAt`) and where a rebuild restarts (`Anchor`). The program's loops are methods proved equal
to these. From there: cycles depend on few fixes (`Locality`, `Restart`), so the window a tick
chooses is enough (`Recompute`), and a rebuild leaves the rows of a whole one exactly when the rows
before its window were right (`Refresh`, `Slices`). `Interleavings` carries that over every run of
stored fixes, ticks and slices. `Conditions` and `Rebuilds` say, for any state, exactly when one tick
or one on-demand rebuild leaves the rows right, and `Losses` gives runs after which the program has
lost a row.

## Assumptions

- Times are whole microseconds; coordinates, speeds, scores and confidences are real numbers.
  Bucket boundaries are floors; the program truncates toward the epoch, which is the same from
  1970 on.
- `haversine_m` is any function of two points. Zones are fixed, both kinds of cycle zone exist,
  no machine is a loader, and nothing is deleted by retention.
- The shortest visit is at least as long as the shortest exit, and both are positive (each is 15 s
  in the program). The cycle cap is set wherever the tick is concerned, as it always is there; in
  `Rebuilds.EverythingExact` it is no shorter than the shortest visit (the program's is 600 s or more).
- The module's documentation promises, without a condition, that a restart reproduces a whole
  analysis. The code does not keep that promise: a dump visit still open where the track breaks off
  may be one a closed cycle has already taken, and `Resumption.OverlapNotFirm` gives a track with
  overlapping zones that shows it. `Resumption.ResumeExact` says exactly which tracks can be
  restarted whatever follows (those that are `Firm`), and `Resumption.LateExact` exactly which
  keep their settled cycles whatever is late (those that are calm there, `Recompute.CalmBy`). A
  `Quiet` track is calm at every time, and so firm; every track is quiet in which no dump visit is
  under way when a load visit begins (`Clear`, `Recompute.ClearQuiet`).
- Metric buckets are at least `minVisit + minExit` long (300 s in the program). For the slices to
  make progress a bucket must not be longer than the shortest slice, 1 h; the program does not
  check this. In runs a bucket is no longer than the lookback either (`Runs.Setting`).
- What `Runs.Careful` asks of the moment an operation comes at: the rows rest on tracks that can be
  trusted; an on-demand rebuild starts no later than the cursor and leaves out no bucket that the
  cursor has not passed; its last rebuild finds the restart point; if a fix was stored or marked
  behind what it has written, it leaves a mark from which the next tick goes back; and such a fix
  does not fall before the very first tick into a first bucket that slices have written. The program
  checks none of these.
- So a rebuild of everything is not always one that `Runs.Careful` admits. When the first fix lies
  inside a bucket that is stored, the program leaves that bucket as it is, in case retention has
  deleted fixes from it, and moves the cursor past it all the same; its comment that without such a
  cut the bucket holds the same fixes is not so while fixes of it are unread.
  `Rebuilds.EverythingExact` says exactly when this does no harm, and `Losses.SkippedBucket` is a run
  that loses a fix's metrics for good.
- The temporal engine's rule ids are distinct, as are shift names, dispatch job ids and the zones
  of a roll-up; observations reach a live engine in time order. So do the frames of a roll-up, and
  none after its bucket was handed out.
- Live processing: a fix is refused when it is dated further ahead of its stamp than the skew allows.
  Deliveries are stamped before the asset's lock is taken, so they may be processed in another order
  than that of their stamps; `Pipeline.ConfluenceExact` says exactly when that matters.
- Forwarding: which payloads the program always refuses is a fixed parameter (malformed, wrongly
  addressed, unregistered, not storable), and so is the skew it allows.
- MQTT: the broker keeps the QoS 1 contract of section 4.3.2 of MQTT 3.1.1.

## Model

| member | source | states |
|---|---|---|
| Track.VisitsApart | src/minemonitor/cycles/statemachine.py:176-198 | Two visits of one kind do not overlap, and the later starts at least `min_exit_s` after the earlier was left. |
| Segments.InOneVisit | src/minemonitor/cycles/statemachine.py:176-198 | A fix inside a zone belongs to exactly one visit, the last to have started by then. |
| Analysis.Visits | src/minemonitor/cycles/statemachine.py:176-198 | The merging loop, with its in-place edit of the last run, yields exactly the visits defined by where they start and end. |
| Queueing.Stops | src/minemonitor/cycles/statemachine.py:212-238 | The stop loop finds the visit's stops: each from where the truck halts to where it moves off, at the mean of its stationary fixes; a run of stationary fixes joins the stop before exactly when its mean is within a step of where that stop had been; and no stationary fix is left out. |
| Queueing.StopsUnique | src/minemonitor/cycles/statemachine.py:212-238 | A visit has only one such list of stops. |
| Cycles.QueueWithinVisit | src/minemonitor/cycles/statemachine.py:274-318 | Queue time is never negative and never more than the time in the load zone. |
| Queueing.QueueIs | src/minemonitor/cycles/statemachine.py:274-318 | The wait, said of the fixes and stops: from the first stationary fix of all to the fix at which the truck moves off from the stop before the one where it loads, driving on from there; the one where it loads is the last it stays at 30 s or more, or the last of all if there is none; and there is no wait when that is its first, or it never stops. |
| Queueing.QueueSeconds | src/minemonitor/cycles/statemachine.py:274-318 | The backward search for the loading stop gives that wait, for any list of stops that is the visit's. |
| Cycles.CreditedFirst | src/minemonitor/cycles/statemachine.py:170-173 | A visit is credited to a zone if a fix of it lies in one; none has more of its fixes, and of those that have as many it was in none sooner. |
| Analysis.CycleLoop | src/minemonitor/cycles/statemachine.py:412-446 | The loop over consecutive load visits yields exactly the cycles that visits which may open one open, in order. |
| Analysis.ResumePoint | src/minemonitor/cycles/statemachine.py:448-487 | The branches over openers and the pending tail compute the restart point defined by the last opener that can still close, or the pending visit, or the last fix. |
| Analysis.Analyse | src/minemonitor/cycles/statemachine.py:354-487 | The whole analysis: cycles and restart point of a track or a window of one, and nothing for an empty stream. |
| Restart.CyclesApart | src/minemonitor/cycles/statemachine.py:412-446 | Cycles of one track never overlap. |
| Restart.CycleLength | src/minemonitor/cycles/statemachine.py:416-418 | A completed cycle has positive length, within the cap when there is one. |
| Segments.SegmentsAddUp | src/minemonitor/cycles/statemachine.py:428-446 | Queue, load, haul, dump and return add up to the cycle time exactly (the clamp on load time never acts); all but the return are non-negative, and so is the return in a clear track. |
| Segments.SegmentsAre | src/minemonitor/cycles/statemachine.py:412-446 | Said of the fixes: the wait, the load until the first fix outside, the haul until the first fix in the dump zone, the dump until that is left, the return until the next load visit's entry; and each zone named held most of its visit. |
| Segments.OpensExactly | src/minemonitor/cycles/statemachine.py:412-426 | A load visit opens a completed cycle exactly when it counts, the next that counts comes within the cap, and a dump visit that counts starts in between. |
| Segments.ReturnSign | src/minemonitor/cycles/statemachine.py:441 | The return is negative exactly when the dump visit is left after the next load visit's entry. |
| Restart.WindowCycles | src/minemonitor/cycles/recompute.py:341-349 | A window from `cycles_from` with its lead-in gives exactly the whole track's cycles that open from there on. |
| Restart.WindowResumeExact | src/minemonitor/cycles/recompute.py:341-349 | The restart point found in a window is the whole track's if and only if the window starts no later than the load entry the track restarts from, if it restarts from one. |
| Finality.FirmSame | src/minemonitor/cycles/statemachine.py:35-39 | Whatever fixes follow a firm track, the cycles opened before its restart point stay as they are. |
| Recompute.ClearQuiet | src/minemonitor/cycles/statemachine.py:35-39 | A track in which no dump visit is under way when a load visit begins is quiet: calm at every time. |
| Recompute.QuietFirm | src/minemonitor/cycles/statemachine.py:35-39 | A quiet track is firm. |
| Finality.FirmSettled | src/minemonitor/cycles/recompute.py:603-609 | Whatever follows a firm track, the cycles that end `MIN_VISIT_S + MIN_EXIT_S` before its newest fix are the same. |
| Resumption.ResumeExact | src/minemonitor/cycles/statemachine.py:35-39 | For every extension of a track the kept cycles and those of the window at its restart point are the cycles of a whole analysis, if and only if the track is firm. |
| Resumption.LateExact | src/minemonitor/cycles/recompute.py:132-140 | The cycles that ended `MIN_VISIT_S + MIN_EXIT_S` before a time are the same in every track with the same fixes before it, if and only if none that closed so long before takes a dump visit still open then. |
| Resumption.OverlapNotFirm | src/minemonitor/cycles/statemachine.py:448-487 | With a load zone overlapping a dump zone there is a track, and an extension of it, for which restarting differs from a whole analysis. |
| Restart.ExtendRestart | src/minemonitor/cycles/statemachine.py:448-487 | The restart point never moves back when fixes follow. |
| Restart.LateSame | src/minemonitor/cycles/recompute.py:258-262 | Late fixes at least `MIN_VISIT_S` past the cursor's load entry leave every cycle before it as it was, if the track is calm where they come in. |
| Restart.FarSame | src/minemonitor/cycles/recompute.py:132-140 | Fixes at least the cap plus `MIN_VISIT_S` plus `MIN_EXIT_S` later leave every cycle opened before a time as it was, if the track is calm there. |
| Restart.RestartWithinReach | src/minemonitor/cycles/recompute.py:820-824 | The restart point is never as far back from the newest fix as the lookback. |
| Restart.SettledSame | src/minemonitor/cycles/recompute.py:603-609 | A cycle whose end lies `MIN_VISIT_S + MIN_EXIT_S` before the tracks part is in both tables or in neither, if the one is calm there. |
| Restart.StillOpen | src/minemonitor/cycles/recompute.py:352-362 | When every newer fix is in a load zone, within the cap, the restart point is the same, still inside, and so are the cycles. |
| Recompute.CursorWindow | src/minemonitor/cycles/recompute.py:248-256 | From the cursor, a rebuild finds all that fixes following a firm track can have changed. |
| Recompute.CursorLateWindow | src/minemonitor/cycles/recompute.py:258-268 | From the cursor, a rebuild also finds what late fixes far enough past it can have changed; the cycles before it stay if the track was calm where they came in. |
| Recompute.LookbackWindow | src/minemonitor/cycles/recompute.py:185-194 | From the lookback before a late fix, or the first fix, it finds what any late fix can have changed; the cycles before it stay if the track was calm there. |
| Refresh.WindowGood | src/minemonitor/cycles/recompute.py:218-268 | Every window a tick chooses gives the whole track's restart point and starts where the rows that nothing can have changed end. |
| Refresh.SafeSame | src/minemonitor/cycles/recompute.py:218-268 | Those rows, cycles and buckets, are the same before and after everything stored since the last rebuild, if the track was firm, or calm at the mark. |
| Refresh.PassedBy | src/minemonitor/cycles/recompute.py:240-246 | A tick passes an asset by only when nothing was stored since its last rebuild. |
| Refresh.RebuildRight | src/minemonitor/cycles/recompute.py:511-555 | A window gives the whole track's cycles from where it starts, the restart point exactly when it reaches back to it, and, with right cycles kept before it, the whole cycle table. |
| Refresh.NoneOverlap | src/minemonitor/cycles/recompute.py:550-555 | The filter that drops a rebuilt cycle overlapping a kept one drops none. |
| Refresh.LoadsRight | src/minemonitor/cycles/recompute.py:529-576 | Rebuilt and kept cycles together count each cycle that ends in a rewritten bucket once. |
| Refresh.RebuildExact | src/minemonitor/cycles/recompute.py:489-584 | What a rebuild from a window to the newest fix leaves is the whole history's cycles and buckets if and only if the rows before the window were. |
| Totals.ContentSums | src/minemonitor/cycles/metrics.py:83-104 | A bucket, said of its fixes: moving time is the sum of the gaps, of no more than a bucket's length, that follow its fixes at the threshold or faster, idle time of those that follow slower ones, distance the way between; the dwell in a zone the sum of the gaps after its fixes there, for the zones there are any in; the greatest speed is one of theirs, or 0; speed sum and count are over those that have a speed. |
| Totals.ComputeMetrics | src/minemonitor/cycles/metrics.py:52-110 | The two loops give every bucket that has a fix, and only those, just these sums, with one load for each cycle ending in it. |
| Totals.FullSums | src/minemonitor/cycles/metrics.py:52-110 | The same of the buckets of a whole history, the ones stored rows are compared with, with as many loads as cycles end in each. |
| Buckets.ExtendBuckets | src/minemonitor/cycles/recompute.py:603-609 | Fixes after a firm track's newest leave every bucket before `floor(last - MIN_VISIT_S - MIN_EXIT_S)` as it was. |
| Buckets.LateBuckets | src/minemonitor/cycles/recompute.py:263-266 | Late fixes leave every bucket that ends one bucket before theirs as it was, if the track was calm where they came in. |
| Stored.MarkKnows | src/minemonitor/storage/repositories.py:63-94 | Storing a fix with its mark keeps the cursor's knowledge: every fix not read by the last rebuild follows `through_ts` or is at or after `dirty_from`. |
| Stored.Rewrite | src/minemonitor/cycles/recompute.py:529-583 | The buckets from the window on are replaced by those of the fixes read, with the rebuilt cycles and the kept ones that reach past its start counted. |
| Slices.SliceAdvances | src/minemonitor/cycles/recompute.py:820-830 | Each slice ends at a bucket boundary strictly past where it began. |
| Slices.SliceFound | src/minemonitor/cycles/recompute.py:291-308 | What a slice reads past its end is enough to build every cycle opening before the end, and no other, if the track is calm where the reading ends (`Resumption.LateExact` says that is needed). |
| Slices.WroteSlice | src/minemonitor/cycles/recompute.py:489-584 | A slice replaces exactly the cycles opening, and the buckets starting, between where it starts and its end, and those buckets are right when the cycles ending in them are, if the track is calm where it stops reading. |
| Slices.SliceRight | src/minemonitor/cycles/recompute.py:489-584 | So it carries right rows on to its end. |
| Slices.Rebuild | src/minemonitor/cycles/recompute.py:812-860 | The sliced rebuild of a track that no fix joins meanwhile terminates, from any window; it finds the restart point exactly when the window reaches back to it, leaves every row right exactly when the rows before the window were (if the track is calm where each slice stops reading), and leaves earlier rows alone. |
| Slices.OnDemandExact | src/minemonitor/cycles/recompute.py:271-288 | An on-demand window gives the right restart point if and only if the time asked for is no more than the lookback past the load entry the track restarts from, if it restarts from one. Up to the newest fix every time is so; when the track restarts from before its newest fix, some time less than the lookback past that is not. |
| FirstBucket.FirstBucketExact | src/minemonitor/cycles/recompute.py:202-220 | The bucket a track begins in is the same in every extension of the track if and only if neither the next fix nor the time to it can count toward it and no cycle may still come to end in it. |
| Rebuilds.UndisturbedRun | src/minemonitor/cycles/recompute.py:812-860 | An on-demand rebuild that nothing comes between is a run: its first transaction and as many more as it takes. |
| Rebuilds.UndisturbedIs | src/minemonitor/cycles/recompute.py:812-860 | It leaves the rows the loop over slices does, and a cursor that only its last transaction has moved. |
| Rebuilds.EverythingExact | src/minemonitor/cycles/recompute.py:202-220 | A rebuild from the first fix leaves every row right, whatever has followed the track for which the first bucket was stored (if calm where the slices stop reading), if and only if the first fix lies on a boundary, or its bucket is not stored, or that bucket is final. |
| Rebuilds.PassedIsFinal | src/minemonitor/cycles/recompute.py:603-609 | A first bucket that the cursor of a track has passed is final. |
| Interleavings.OpKeeps | src/minemonitor/cycles/recompute.py:750-860 | A stored fix, a tick, the first and every later transaction of an on-demand rebuild each keep what holds of the rows, when they come at their moment. |
| Interleavings.RunRight | src/minemonitor/cycles/recompute.py:13-19 | After any interleaving of these, whenever nothing is left unread, the cycles, the buckets and the restart point are those of the whole history. |
| Interleavings.TickEnds | src/minemonitor/cycles/recompute.py:750-778 | A run that ends in a tick leaves nothing unread. |
| Interleavings.PlainSound | src/minemonitor/cycles/recompute.py:13-19 | Runs of stored fixes and ticks alone need only that each track an earlier tick rebuilt was quiet. |
| Interleavings.StartRead | src/minemonitor/cycles/recompute.py:271-288 | A rebuild of everything, or asked to start no later than the newest fix the cursor has read, reaches back to the restart point and, with nothing marked, passes no mark; and it comes at its moment if and only if it does not leave out a first bucket that the cursor has not passed. |
| Assets.Asset.Insert | src/minemonitor/storage/repositories.py:19-94 | A fix is stored once, in time order, with its mark; one at a time already stored changes nothing. |
| Assets.Asset.Refresh | src/minemonitor/cycles/recompute.py:750-778 | One tick: passed over, or the window rebuilt, the cursor moved and the mark cleared. |
| Assets.Asset.Apply | src/minemonitor/cycles/recompute.py:489-584 | The rebuild to the newest fix, by the fast path for a visit still open or in full. |
| Assets.Asset.Begin | src/minemonitor/cycles/recompute.py:812-821 | An on-demand rebuild begins: the window asked for, and its first transaction. |
| Assets.Asset.Proceed | src/minemonitor/cycles/recompute.py:822-860 | Its next transaction: a slice, or the last rebuild, which moves the cursor and leaves the mark. |
| Assets.Run | src/minemonitor/cycles/recompute.py:13-19 | The methods over any run: after a sound one that ends in a tick, fields and cursor hold the cycles, buckets and restart point of the whole history. |
| Conditions.TickExact | src/minemonitor/cycles/recompute.py:489-584 | A tick that rebuilds leaves every row right if and only if the rows before its window were. |
| Conditions.NextTickExact | src/minemonitor/cycles/recompute.py:13-19 | With nothing marked and right rows, the next tick leaves right rows whatever newer fixes are stored before it, if and only if the track the cursor has read is firm. |
| Conditions.FirstTickExact | src/minemonitor/cycles/recompute.py:229-238 | An asset's first tick leaves every row right if and only if the first fix lies on a boundary, or slices have stored nothing of its bucket, or what they have stored of it is right. |
| Conditions.MarkExact | src/minemonitor/cycles/recompute.py:258-262 | A cycle of the track that is missing, opened before the cursor and no further back of the mark than the lookback: a tick writes it if and only if the mark lies less than `MIN_VISIT_S` past the cursor's load entry. |
| Conditions.RestartPassed | src/minemonitor/cycles/recompute.py:271-288 | An on-demand rebuild from past a cycle's opening, of any number of transactions, leaves the cycle as it was and the cursor past its opening; with nothing marked so does the next tick, whatever newer fixes are stored before it. |
| Conditions.ForgottenExact | src/minemonitor/cycles/recompute.py:258-262 | With a mark, the next tick writes a missing cycle that such a rebuild has passed if and only if the mark lies less than `MIN_VISIT_S` past the load entry where the rebuild has left the cursor. |
| Conditions.BetweenExact | src/minemonitor/storage/repositories.py:63-94 | A fix stored unmarked before a rebuild's last transaction: nothing is left unread and no tick changes anything more; every row is right if and only if those before the last window are right with the fix in the track; and a new bucket for it is written if and only if it does not lie before that window. |
| Conditions.MissedExact | src/minemonitor/storage/repositories.py:63-94 | If the rows were right until then, they are afterwards if and only if the fix changes none of those before the last window; a fix with a speed in an earlier bucket does, and one the lookback past the window, in a calm track, does not. |
| Conditions.MarkedBetween | src/minemonitor/storage/repositories.py:63-94 | Stored marked instead, the next tick writes the fix's bucket, but a cycle the fix brings, opened before the last window, only if the fix lies less than `MIN_VISIT_S` past the load entry where the rebuild leaves the cursor. |
| Losses.PassedCycle | src/minemonitor/cycles/recompute.py:271-288 | A run: asked to start 141 s past the newest fix, a rebuild moves the cursor past a load visit, and the tick after its cycle has closed does not write it. |
| Losses.ForgottenCycle | src/minemonitor/cycles/recompute.py:258-262 | A run: a late fix is marked, a rebuild asked to start in between moves the cursor near the mark, and the tick does not go back far enough to write the cycle the fix completed. |
| Losses.SkippedBucket | src/minemonitor/cycles/recompute.py:202-220 | A run: one fix inside a bucket, a tick, one more fix in the bucket and one past it, a rebuild of everything; the second fix is in no bucket, nothing is left unread, and a tick changes nothing. |
| Losses.MissedBetween | src/minemonitor/cycles/recompute.py:812-860 | A run: a fix stored between two slices, behind what they have written and ahead of `through_ts`, is not marked, and the last slice moves the cursor past it; its bucket is never written. |
| Streaks.FiresExactly | src/minemonitor/vision/temporal.py:78-103 | An observation fires exactly when it is the first at which the streak in progress has its opening hits and its dwell, and the cooldown is over; the event names that streak's start and counts its hits. |
| Evidence.FiresWith | src/minemonitor/vision/temporal.py:240-250 | An event carries, of the observations of its streak up to the firing one: the least confidence noted (1 at most), the tracks noted, the last 20 frames noted with none twice in a row, and the largest count. |
| Streaks.RipeFires | src/minemonitor/vision/temporal.py:252-270 | The observations that fire are those said, of the observations alone, to be the first at which a streak is due with the cooldown since the last such one over. |
| Streaks.OncePerStreak | src/minemonitor/vision/temporal.py:252-268 | Of two events of one key the later names a streak that opened later. |
| Streaks.HitsFire | src/minemonitor/vision/temporal.py:78-103 | Hits without a miss, enough of them and over the dwell, fire. |
| Streaks.CooldownApart | src/minemonitor/vision/temporal.py:264-270 | Any two events of one key are at least the cooldown apart, also when the state was forgotten in between. |
| Streaks.UnseenIsNothing | src/minemonitor/vision/temporal.py:313-323 | Leaving out the observations that do not see a subject changes no event, when it is seen at least once a window. |
| Signs.SignExactly | src/minemonitor/vision/temporal.py:150-232 | An observation is a hit exactly when the track's last qualifying object is in the zone, the zone holds more qualifying objects than it may, or the camera is bad; it says nothing exactly when the track is not seen, the zone has no limit, or the camera was not assessed; otherwise it is a miss. |
| Signs.EventRests | src/minemonitor/vision/temporal.py:187-299 | Said of the run: an event's streak opens and fires at observations at which its condition holds; it counts those in between, and carries their last frames, the least confidence and the tracks of the objects that make it hold, and the largest crowd. |
| Signs.EveryEventRests | src/minemonitor/vision/temporal.py:130-146 | So does every event that a run of the engine, or a replay, gives of a key. |
| Temporal.Engine.Presences | src/minemonitor/vision/temporal.py:156-185 | Hits for tracks in qualifying zones, then misses for those seen outside, advance each of the rule's keys by what the observation says of it and touch no other. |
| Temporal.Engine.Step | src/minemonitor/vision/temporal.py:130-146 | One observation takes every key of every rule exactly one turn of its own machine, expiry included. |
| Temporal.Feed | src/minemonitor/vision/temporal.py:130-146 | The engine over a run is the product of its keys' machines: each key's events are those its machine fires on the run's projection to that key (when it fires, `Streaks.FiresExactly`; on what, `Signs.EveryEventRests`). |
| Temporal.Replay | src/minemonitor/vision/temporal.py:326-351 | The replay of stored observations sorts them by time and frame; each key's events are those its own machine fires on what they say of that key. |
| Temporal.AnyOrder | src/minemonitor/vision/temporal.py:326-351 | The order in which stored observations are given does not matter, when no two share time and frame. |
| Temporal.IdsShared | src/minemonitor/vision/temporal.py:271-277 | Two events of a rule have one id if and only if they are of one track, or one zone, or the whole view, and their streaks opened at one observation. |
| Temporal.IdsDiffer | src/minemonitor/vision/temporal.py:271-277 | The events of a rule have ids of their own if and only if no two streaks of one subject opened at one observation and both came, by the observations alone, to be due with the cooldown over. |
| Temporal.AllIdsDiffer | src/minemonitor/vision/temporal.py:271-277 | The same for the events of all rules together. |
| Temporal.OneZoneEnough | src/minemonitor/vision/temporal.py:271-277 | No two such streaks exist when no track is seen in two qualifying zones at once. |
| Temporal.TwoZonesClash | src/minemonitor/vision/temporal.py:271-277 | For every presence rule: an object long enough in two qualifying zones has an event in each, and the two have one id. |
| Association.StableUnique | src/minemonitor/vision/tracker.py:146-168 | There is one matching that uses each side once and leaves no eligible pair unless a pair no worse shares a side with it. |
| Association.Greedy | src/minemonitor/vision/tracker.py:155-168 | The greedy loop computes that matching. |
| Boxes.IouIs | src/minemonitor/vision/geometry.py:31-40 | The overlap of two boxes is the area of the largest box within both over the area they cover; it is 0 exactly when they are apart, 1 exactly when they are one proper box, and never more. |
| Boxes.PredictedIs | src/minemonitor/vision/tracker.py:61-64 | A track is predicted with its size and its centre moved by its velocity for the time passed. |
| Boxes.CorrectIs | src/minemonitor/vision/tracker.py:186-202 | A corrected centre lies `alpha` of the way from the predicted to the measured one, between them for `alpha` in [0, 1]; the velocity changes by `beta` of the miss a second; the size is the detection's. |
| Boxes.ScoreIs | src/minemonitor/vision/tracker.py:146-154 | A pair is eligible exactly when the track's predicted box or its last one overlaps the detection that much; the score is 1 exactly when one of the two is the detection's box, whatever the velocity, and 0 exactly when both are apart from it. |
| Boxes.BestFirst | src/minemonitor/vision/tracker.py:155-168 | An eligible pair is matched unless a matched pair sharing a side with it scores more, or as much and comes first. |
| Boxes.StillKeepsId | src/minemonitor/vision/tracker.py:102-137 | A confident detection just where a track was last seen, or is predicted, keeps the track's id unless another track or another confident detection is just there too. |
| Boxes.FaintKeepsId | src/minemonitor/vision/tracker.py:104-120 | So does a faint one, of a confirmed track that overlaps no confident detection enough. |
| Boxes.CoastsExactly | src/minemonitor/vision/tracker.py:122-132 | A track not matched lives on exactly when it is confirmed and has missed fewer frames than it may; it stays where it was, with its last box, slower. |
| Boxes.ReportedExactly | src/minemonitor/vision/tracker.py:116-120 | Reported are the matched tracks with hits enough, each at its detection's box. |
| Boxes.NewStands | src/minemonitor/vision/tracker.py:170-184 | A track just started is predicted, at any time, where it was detected. |
| Tracking.MatchingUnique | src/minemonitor/vision/tracker.py:146-168 | What a stage matches is decided by classes and scores alone. |
| Tracking.Associate | src/minemonitor/vision/tracker.py:139-168 | A stage matches only pairs of one class scoring at least `match_iou`, stably, and returns the tracks and detections left, in order. |
| Tracking.StagesFair | src/minemonitor/vision/tracker.py:102-116 | The two stages together match no track twice, and a low-confidence detection only with a confirmed track. |
| Tracking.NoneReturns | src/minemonitor/vision/tracker.py:170-184 | New tracks start only from high-confidence detections, with new numbers; a dropped number never returns. |
| Tracking.Tracker.Update | src/minemonitor/vision/tracker.py:102-137 | One frame: matched tracks corrected, confirmed ones coast up to `max_missed`, others dropped, starters added; reported ids are distinct and keep their class (which object is matched, corrected and reported, and how, is said of boxes in `Boxes`). |
| Tracking.Run | src/minemonitor/vision/tracker.py:102-137 | Over any run the ids reported in a frame are distinct, and one id always names an object of one class. |
| Zones.ZoneRow.Step | src/minemonitor/zones/engine.py:28-90 | The row's new state and transition, all fields. |
| Zones.ZoneRow.OnInzoneFix | src/minemonitor/rules/evaluate.py:66-128 | The rule counters' new state and the alarms raised. |
| Zones.TransitionExactly | src/minemonitor/zones/engine.py:48-90 | Entries and exits, exactly, from the fixes alone. |
| Zones.EntryMeans | src/minemonitor/zones/engine.py:48-76 | An entry rests on the last `debounce_in` or more fixes, all inside, with no long silence between, spanning `min_entry_dwell_s`. |
| Zones.ExitMeans | src/minemonitor/zones/engine.py:60-90 | An exit rests on `exit_debounce` fixes beyond the buffer with no inside fix and no long silence since the first of the spell. |
| Zones.Alternate | src/minemonitor/zones/engine.py:64-90 | Between two entries there is an exit. |
| Zones.AlarmsExactly | src/minemonitor/rules/evaluate.py:47-128 | Breach, overspeed and dwell alarms, exactly, from the fixes alone. |
| Zones.OverspeedRearms | src/minemonitor/rules/evaluate.py:79-105 | Overspeed fires again only after a fix at or below the limit, or a time outside. |
| Zones.DwellRearms | src/minemonitor/rules/evaluate.py:107-127 | Dwell fires again only after a moving fix, or a time outside. |
| Pipeline.Asset.Visit | src/minemonitor/pipeline.py:63-115 | One zone's turn: skip, heal, or step and apply the rules. |
| Pipeline.PassedOver | src/minemonitor/pipeline.py:63-98 | A fix no newer than the watermark, or, while that lies in the future, one older than the skew allows, changes nothing; any other moves the watermark to its time. |
| Pipeline.HealsAfresh | src/minemonitor/pipeline.py:71-96 | Putting a watermark right starts afresh what the bad clock began: no earlier fix counts toward an entry or an exit, no stationary spell is left that began later than the fix, and one that began by then goes on. |
| Pipeline.Asset.Deliver | src/minemonitor/ingest/service.py:103-118 | A delivery is refused, a repeat, or stored and processed for every zone. |
| Pipeline.Confluence | src/minemonitor/pipeline.py:63-98 | Deliveries that put no watermark right leave each zone's row, and raise the alarms, of the fixes that move the newest time on, taken alone. |
| Pipeline.ConfluenceExact | src/minemonitor/pipeline.py:63-98 | Rows and alarms are, all along, those of the fixes that move the newest time on, if and only if no delivery puts a watermark right. |
| Pipeline.NeverHeals | src/minemonitor/pipeline.py:68-96 | Deliveries processed in the order of their stamps put no watermark right: the healing branch is not reached. |
| Pipeline.OutOfOrderHeals | src/minemonitor/ingest/service.py:112-114 | Two deliveries, processed in the other order than that of their stamps, put a watermark right with no clock further ahead than the skew. |
| Pipeline.Run | src/minemonitor/pipeline.py:41-118 | The same for a whole run over all zones. |
| Forwarding.DeliveredStays | src/minemonitor/ingest/mqtt.py:237-249 | What is held by the broker, stored or refused for good stays so across every step and crash. |
| Forwarding.StepKeeps | src/minemonitor/ingest/spool.py:41-73 | Every step, crashes included, keeps the invariant of spool, broker, ingestor and database. |
| Forwarding.NothingLost | src/minemonitor/ingest/mqtt.py:131-161 | In every reachable state each payload ever spooled is in the spool, in quarantine, held unacknowledged, stored or refused for good, and no key is stored twice. |
| Forwarding.RefusedOnly | src/minemonitor/ingest/mqtt.py:251-298 | Only a payload the program always refuses, or one dated too far ahead when it was first spooled, is ever refused for good. |
| Forwarding.RowsStay | src/minemonitor/storage/repositories.py:46-54 | A stored row is never changed or lost. |
| Forwarding.StoredTrue | src/minemonitor/ingest/mqtt.py:251-298 | Every stored row holds a payload that was spooled, under its own key, and neither faulty nor dated further ahead than the skew. |
| Forwarding.FinishClears | src/minemonitor/ingest/spool.py:53-57 | When a drain finishes, every entry acknowledged in it has left the spool, and has been delivered. |
| Forwarding.DrainsValid | src/minemonitor/ingest/mqtt.py:131-161 | From rest, a valid entry can always be drained to a broker that takes it, and then leaves the spool. |
| Forwarding.DrainsInvalid | src/minemonitor/ingest/mqtt.py:131-161 | An invalid one can be set aside, and then is in quarantine as it was spooled. |
| Forwarding.AtRest | src/minemonitor/ingest/mqtt.py:372-450 | When spool and broker are empty every valid payload is stored, unless the program always refuses it or it was dated too far ahead when first spooled. |
| Presence.TurnsExactly | src/minemonitor/vision/rollup.py:103-124 | Said of the frames alone: a track enters a zone at a frame exactly when it was not inside and the last `confirm_frames` frames show it there; it leaves exactly when it was inside and none of them does; its dwell runs from the frame at which it entered to the last that shows it. |
| Presence.VisitStep | src/minemonitor/vision/rollup.py:103-124 | One frame in one zone: every track seen or known takes its turn; those that enter and leave are counted, their dwells listed, and entries less exits change as the number confirmed inside does. |
| Counting.TallyNext | src/minemonitor/vision/rollup.py:92-101 | A zone's tally is that of the bucket's frames: how many tracks enter and leave at each, how many each shows, and the dwells that end. |
| Rollup.MeanWithinMax | src/minemonitor/contracts/vision.py:331-337 | A bucket's mean count never exceeds its maximum. |
| Rollup.CloseKeeps | src/minemonitor/vision/rollup.py:126-163 | Closing a bucket keeps the balance; its records are valid, its clamp on observed time does nothing, and its start is after all earlier ones. |
| Rollup.RecordTells | src/minemonitor/vision/rollup.py:126-163 | A closed bucket's record of a zone, said of the frames: its largest count is one of them and none is larger, its mean is theirs, entries and exits are those at its frames, its longest stay one that ended in it or goes on, and its observed time the sum of the gaps between its frames, each cut to the longest that counts. |
| Rollup.Accumulator.Feed | src/minemonitor/vision/rollup.py:80-101 | A frame dated no earlier than the last, nor than the end of a bucket handed out, keeps all of it: visits, open bucket and records are what the frames so far make them, every zone has a record of every bucket that is over, and the balance, the time observed and the order of starts hold. |
| Rollup.Accumulator.Flush | src/minemonitor/vision/rollup.py:165-176 | An unforced flush, at any time, hands out each completed record once and keeps the invariant. |
| Dispatch.NextJob | src/minemonitor/dispatch/service.py:94-103 | The first job with room, when all before it are full. |
| Dispatch.Board.Recommend | src/minemonitor/dispatch/service.py:106-167 | Un-actioned recommendations are replaced; trucks stay in one live assignment, and jobs within their targets; no truck of an approved or active row is recommended, none to a job that another open job with room outranks by priority or age, and none is left idle while an open job has room. |
| Dispatch.Advice | src/minemonitor/dispatch/service.py:94-141 | The first two follow from each recommendation having gone to the first open job with room. |
| Dispatch.Board.SetJobStatus | src/minemonitor/dispatch/service.py:70-88 | Ending a job releases exactly its committed assignments. |
| Dispatch.Board.Decide | src/minemonitor/dispatch/service.py:180-205 | Only a recommended assignment can be approved or rejected, and only it changes. |
| Dispatch.Board.CreateJob | src/minemonitor/dispatch/service.py:30-59 | A job with a target that is not positive is refused. |
| Shifts.WindowsEndingBetween | src/minemonitor/operations/shifts.py:123-143 | Every shift that ended in the span, whatever its length, once, and no other. |
| Shifts.StartsLocally | src/minemonitor/operations/shifts.py:69-81 | A shift starts on its day at its local hour and lasts its hours. |
| Shifts.HoldsByHour | src/minemonitor/operations/shifts.py:105-120 | It holds a moment of its day, or of the day after, exactly when the local hour of the moment lies within its hours. |
| Shifts.ResolveShift | src/minemonitor/operations/shifts.py:105-120 | A shift holding the moment that starts on its day or the day before, that of its own day first; none exactly when by the local hour no definition holds it. |
| Shifts.TwoDaysEnough | src/minemonitor/operations/shifts.py:105-120 | Looking on two days finds every shift of a definition if and only if it ends by the end of the second day. |
| Shifts.QueueDueReports | src/minemonitor/operations/shift_reports.py:215-293 | A tick adds exactly the reports due and not yet queued. |
| Shifts.Run | src/minemonitor/operations/shift_reports.py:215-293 | Over ticks never further apart than the catch-up time, a shift is queued for a recipient if and only if it ended in the span covered, and once. |
| Geometry.PointInPolygon | src/minemonitor/zones/geometry.py:25-40 | The toggling loop answers whether the ray crosses the ring an odd number of times. |
| Geometry.AnyStart | src/minemonitor/zones/geometry.py:25-40 | The answer is the same wherever the ring starts. |
| Geometry.EitherWay | src/minemonitor/zones/geometry.py:25-40 | ... and whichever way it goes round. |
| Geometry.ClosedOrNot | src/minemonitor/zones/geometry.py:25-40 | ... and whether or not it repeats its first vertex. |
| Geometry.SidesChange | src/minemonitor/zones/geometry.py:35-36 | A path crosses a horizontal line an odd number of times exactly when it ends on the other side. |
| Geometry.CrossesExactly | src/minemonitor/zones/geometry.py:35-38 | The ray crosses an edge exactly when the edge passes the point's height, its lower end counted and its upper end not, with the point on its left as one walks up it. |
| Geometry.InRectangle | src/minemonitor/zones/geometry.py:79-97 | A point is in a rectangle exactly when it is between its sides, the left and the lower one included. |
| Geometry.OutsideBox | src/minemonitor/zones/geometry.py:25-40 | A point outside the bounding box is never found inside. |

## Left out

- Loader pairing (`_Loaders`, `_mark_paired`), zone edits and retention: the program keeps older
  derived rows on purpose there, so equality with a whole rebuild is not promised.
- Interleavings.RunRight: asks of each operation what `Runs.Careful` says, and that is sufficient, not
  always necessary. What is exact is said of one operation from a given state: `Conditions` for ticks
  and for a fix between slices, `Rebuilds.EverythingExact` for a rebuild from the first fix.
- Conditions.MissedExact: a fix without a speed in a bucket already stored, or one after the window's
  start within the lookback, may or may not change a row before it; for these the condition is only
  said as that.
- Restart.LateSame: of late fixes `MIN_VISIT_S` past the cursor's entry that lie less than
  `MIN_EXIT_S` further it gives a sufficient condition only; from there on `Resumption.LateExact` is exact.
- One on-demand rebuild of an asset is under way at a time; a second one takes the place of the first.
- An asset with positions from before cursors existed: its first tick rebuilds a bounded window
  only, so runs start without positions.
- Rows are sets, maps and sequences held in fields; sessions, locks and transactions are taken as
  one atomic step. Streaks, tracks, visits and zone rows in dictionaries are values that methods
  put back, so sharing of one object by two keys is not modelled; no such sharing occurs.
- Rounding, display strings, and the order in which equal results are listed (roll-up, shifts and
  reported tracks are sorted for display).
- The median dwell of a roll-up record, and forced flushes at shutdown.
- Rollup.Accumulator.Feed: takes frames in time order, and none dated before the end of a bucket that
  was handed out. The program accepts both. It clamps a step backwards to zero in the time observed,
  but not in a dwell, which can then be negative (`Presence.BackwardsDwell`); and a frame of 299.9 s
  after one of 299.5 s and a flush at 300.2 s opens the bucket from 0 s again, for which a second set
  of records then follows.
- Temporal.AnyOrder: observations that share time and frame are outside it; they keep the order given.
- Reading stored state back as naive or aware timestamps; time zones with daylight saving.
- Vision records at the ingestor, device registration and topic checks: each is one of the
  reasons for which the step system may refuse a payload.
- That an ended job holds no trucks: the program does not check a job's status on approval.
- Sending queued reports, report rendering and the scorecard.
- The API, authentication, CSV and HTML rendering, configuration, migrations, and the
  create/read/update domains (fuel, weighbridge, laboratory, cameras, incidents).
