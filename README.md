# Conference track planner: a verified model

This project models the scheduling core of a conference track manager (`main.go`).
Talks have a title and a duration in minutes. Each day of the schedule has a
180-minute morning session and a 240-minute afternoon session. The planner drains
a pending queue into those sessions. The queue is kept sorted, longest talk first.
A session that cannot take a talk may evict one talk it already holds and send it
back to the queue. A session that still has no room rejects the talk and closes
for good. When both sessions of the last day are closed, a new day is created.

Modules, ordered as the program's structure:

- `Talks`: the `Talk` value, minute totals, and the pending queue as a
  `TalkList` class. `putToTalkList` is `TalkList.Put`. It is proved against
  `Inserted`, which puts a talk before the first queued talk that is not longer.
- `Sessions`: `Session.set` as the `Session` class, with its scan loop. The
  class is proved against the value function `SessionSet`. Lemmas state:
  - the capacity bound;
  - the eviction rule;
  - the rejection rule;
  - the success rule;
  - that a closed session never reopens;
  - that talks are conserved.
- `Tracks`: `Track` as a class linked through `nextDay`, with a ghost list
  `Days` of the days from this one on. `Track.set` is proved against
  `TrackSet`. TrackSet creates a new day lazily: only when every existing day
  is closed.
- `Planner`: `plan`. It is split into one turn of the inner loop (`Offer`), one
  pass over the queue (`Pass`), one turn of the outer loop (`Round`) and the
  outer loop itself (`Plan`). The model proves
  that plan terminates for talks of 0 to 240 minutes. At the end the queue is
  empty, no error is left, and every talk is placed exactly once.
- `Parsing`: `initTalkList` and one line's parse (`ParseLine`), using a model
  of `strings.LastIndex` and `strconv.Atoi`.

Three points about what the code does, each followed by the model:

- At most one talk is evicted per call of `Session.set`. `list.Remove` clears
  the removed element's links, so `e.Prev()` is then nil and the scan stops.
  `Session.Set` sets its cursor to -1 after a removal for that reason.
- `plan` walks the queue with a cursor. It takes `next` before offering the
  talk, stops the pass at the first rejection, and starts again from the
  front. An evicted talk is longer than the talk on offer, so it re-enters the
  queue ahead of it. The cursor's talk therefore moves one place further on
  (`Planner.Cursor`, `Planner.CursorFinds`).
- Nothing rejects a talk over 240 minutes up front. Every session rejects such
  a talk, and each rejection closes one session. Once both sessions of the last
  day are Done, the next call creates a new day. So an oversized talk adds a day
  every second rejection and `plan` never stops. `Plan` therefore requires every
  duration to be in [0, 240].

## Model

| member | source | states |
|---|---|---|
| Talks.Total | main.go:195-204 | getTotalTime on values: the sum of the talks' durations, 0 for no talks |
| Talks.InsertPos | main.go:212-218 | the index putToTalkList inserts at: the first queued talk that is not longer than t, or the end of the queue when every talk is longer (never past the end) |
| Talks.Inserted | main.go:206-220 | the queue after putToTalkList: t placed at InsertPos, the other talks unchanged around it |
| Talks.InsertPosSpec | main.go:212-217 | every queued talk ahead of the insertion point is strictly longer than t; the talk at the insertion point, if any, is not |
| Talks.InsertPosIs | main.go:212-218 | the insertion point is the only index with those two properties (at the back when every talk is longer) |
| Talks.InsertedShape | main.go:206-218 | insertion adds exactly t at the insertion point; the other talks keep their order; the multiset grows by t |
| Talks.InsertedAhead | main.go:213-214 | a new talk goes in ahead of every queued talk of equal duration |
| Talks.InsertedSorted | main.go:206-218 | a queue sorted longest first stays sorted after an insertion |
| Talks.InsertedBefore | main.go:174-176 | a talk longer than the queued talk at index i is inserted at or before i, and the queue from i on slides back by one |
| Talks.RemoveAt | main.go:232 | removing the element at i shortens the queue by one and takes exactly that talk out of its multiset |
| Talks.TotalRemove | main.go:195-204 | taking the talk at i out of a session lowers getTotalTime by exactly that talk's duration |
| Talks.RemoveAtSorted | main.go:232 | list.Remove keeps a queue sorted longest first |
| Talks.TalkList.constructor | main.go:18-20 | the global queue starts empty |
| Talks.TalkList.Put | main.go:206-220 | putToTalkList leaves the queue equal to Inserted of the old queue, including the empty-list and push-back cases |
| Talks.TalkList.Remove | main.go:232 | list.Remove of the talk at index i leaves the queue equal to RemoveAt of the old queue |
| Sessions.Evictee | main.go:172-179 | the index of the talk Session.set evicts: the back-to-front scan's result when t does not fit, and none when it fits |
| Sessions.Kept | main.go:172-179 | the session's talks after the scan: without the evicted talk if there is one, else unchanged |
| Sessions.SessionSet | main.go:170-193 | Session.set on values: after at most one eviction, t is appended if it fits, with Done set when the total reaches MaxLen; otherwise t is rejected and Done is set; the result carries the new session, the evicted talk and whether t was accepted |
| Sessions.LastFreeing | main.go:173-174 | the scan finds the most recently added talk whose removal frees more than the headroom, or reports that no talk does |
| Sessions.SessionSetCapacity | main.go:170-193 | getTotalTime() <= MaxLen holds after every call, and MaxLen never changes |
| Sessions.SessionSetEviction | main.go:172-180 | a talk is evicted exactly when t does not fit and some talk frees enough room; the evictee is the last such talk added; it is longer than t; t is then accepted, appended after the remaining talks, with the total strictly below MaxLen and Done unchanged |
| Sessions.SessionSetRejection | main.go:181-185 | t is rejected exactly when it does not fit and no talk frees enough room; a rejection evicts nothing, changes no talk, and sets Done |
| Sessions.SessionSetSuccess | main.go:185-191 | an accepted talk ends up last; Done afterwards is the old Done or the new total equal to MaxLen; without eviction the total grows by t's duration |
| Sessions.SessionSetMonotone | main.go:184-190 | a Done session stays Done |
| Sessions.SessionSetConserves | main.go:170-193 | the session's talks plus the evicted talk equal its old talks plus t if accepted |
| Sessions.Session.constructor | main.go:50-62 | a new session is empty, not Done, with the given MaxLen |
| Sessions.Session.TotalTime | main.go:195-204 | getTotalTime: the total of the session's talks |
| Sessions.Session.Set | main.go:170-193 | the session afterwards is SessionSet of the old session; the result is its ok; the queue is the old queue with the evicted talk put back |
| Tracks.FreshDay | main.go:48-65 | the day newTrack builds: empty 180- and 240-minute sessions, neither Done |
| Tracks.DaySet | main.go:73-76 | one day's Track.set: the morning session while it is not Done, else the afternoon session |
| Tracks.TrackSet | main.go:72-84 | Track.set on the chain: the first day takes the talk unless both its sessions are Done; then the talk goes on to the next day, which is a fresh day when there is none |
| Tracks.FirstOpenDay | main.go:72-84 | the day Track.set reaches is within the chain or just past it, and a day within the chain is not closed |
| Tracks.FirstOpenDayClosed | main.go:72-84 | every day before the one Track.set reaches has both sessions Done |
| Tracks.TrackSetFirstOpen | main.go:72-84 | Track.set changes only the first open day, whose morning or afternoon takes the talk; a fresh day is appended exactly when every day is closed; the answer is that session's answer |
| Tracks.TrackSetMorning | main.go:73-74 | on a one-day chain whose morning is open, Track.set is the morning session's set (every call reaches such a day, since a day gets a next day only once it is closed) |
| Tracks.TrackSetAfternoon | main.go:75-76 | on a one-day chain whose morning is Done and whose afternoon is open, Track.set is the afternoon session's set |
| Tracks.SessionStep | main.go:170-193 | one Session.set on an open session, for a talk of 0 to 240 minutes, keeps the capacity bound and the duration range; a rejection changes no talk; an eviction returns a longer talk and lowers the total; talks are conserved |
| Tracks.WellFormedCapacity | main.go:48-65 | every session of a well-formed chain has MaxLen 180 (morning) or 240 (afternoon) and keeps getTotalTime() <= MaxLen |
| Tracks.WellFormedSize | main.go:78-81 | a well-formed chain has at most two Done sessions per day, and at most one day more than it holds talks |
| Tracks.TrackSetStep | main.go:72-84 | Track.set keeps the chain well formed (every day but the last closed); the Done count never falls and rises on a rejection; an evicted talk is longer than t; talks are conserved |
| Tracks.Track.constructor | main.go:48-65 | newTrack is a single fresh day: an empty 180-minute morning and an empty 240-minute afternoon, neither Done, with no next day |
| Tracks.Track.Set | main.go:72-84 | the chain, the result and the queue afterwards are TrackSet of the chain before, creating the next day only when this day is closed |
| Planner.PlanBounds | main.go:224 | a chain built from n talks has at most 2(n+1) Done sessions and never a negative number of placed minutes, so the progress measure is well founded |
| Planner.Cursor | main.go:227-232 | the index of the talk on offer after Track.set: one place further on exactly when a talk was evicted |
| Planner.CursorFinds | main.go:227-232 | after Track.set the talk on offer is at the cursor index, one place further on exactly when a talk was evicted, and the queue behind it is the old queue behind the talk |
| Planner.PlanStepAccepted | main.go:227-233 | removing an accepted talk at the cursor conserves talks, keeps durations in range, and lowers the progress measure; the queue from the next cursor on is the old queue after the accepted talk, as `next = e.Next()` gives |
| Planner.PlanStepRejected | main.go:228-231 | a rejected talk leaves the queue as it was and still lowers the progress measure |
| Planner.OfferAccepted | main.go:227-233 | when Track.set accepts the talk at the cursor, taking it away at the cursor conserves talks, lowers the measure, and leaves the old queue after the talk from the next cursor on |
| Planner.OfferRejected | main.go:228-231 | when Track.set rejects the talk at the cursor, the queue is unchanged and the measure still goes down |
| Planner.OfferOutcome | main.go:226-233 | one turn on values: acceptance or rejection as in the rows above |
| Planner.Offer | main.go:226-233 | one turn of the inner loop keeps the chain well formed, conserves talks and lowers the measure; after an acceptance, the queue from next on is exactly the old queue after the accepted talk (`next = e.Next()`) |
| Planner.PassNext | main.go:226-234 | the inner loop's invariant survives an accepted turn, and a rejected turn ends the pass with progress made |
| Planner.Pass | main.go:226-238 | one pass over a non-empty queue keeps the chain well formed, conserves talks and lowers the progress measure; after err, talks are still queued |
| Planner.PlanNext | main.go:224-239 | the outer loop's invariant survives a pass, and the progress measure goes down |
| Planner.Round | main.go:224-239 | one turn of the outer loop keeps its invariant (well-formed chain, conserved talks, bounded measure) and lowers the progress measure |
| Planner.Plan | main.go:222-241 | plan terminates; the queue ends empty; err is nil; the chain is well formed; the placed talks are exactly the talks queued at the start |
| Parsing.LastSpace | main.go:92 | strings.LastIndex(v, " "): the index of the last space, or -1 when there is none |
| Parsing.LastSpaceAfter | main.go:92-94 | for the line title + " " + word, where the word has no space, the title is everything before the last space |
| Parsing.Atoi | main.go:103 | a successful strconv.Atoi returns a value in the range of a 64-bit int |
| Parsing.AtoiDecimal | main.go:103 | Atoi reads back the decimal spelling of every 64-bit value |
| Parsing.ParseLine | main.go:92-111 | one line of initTalkList: no space is fatal; `lightning` gives 5 minutes; `<n>min` gives Atoi's value, or is fatal when Atoi fails; any other last word is skipped |
| Parsing.ParseLineOfLine | main.go:101-110 | the line `<title> <n>min` parses back to the talk (title, n), for every title and every 64-bit n |
| Parsing.ParseLightning | main.go:96-100 | `<title> lightning` parses to a 5-minute talk |
| Parsing.ParseNoSpace | main.go:92-93 | a line with no space is fatal (v[:-1] panics) |
| Parsing.ParseOtherWord | main.go:101-111 | a last word that is not `lightning` and does not end in `min` is skipped; a `min` word whose number Atoi refuses is fatal |
| Parsing.ParsedTalkShape | main.go:92-94 | a parsed talk's title is the line before its last space (LastSpace of the line is the title's length, no space follows it), and its duration is a 64-bit value |
| Parsing.ParsedTalks | main.go:91-111 | the talks of the lines that parse, in input order |
| Parsing.FirstFatal | main.go:91-106 | the index of the first line at which initTalkList stops the program, or the number of lines when none is fatal |
| Parsing.InsertAll | main.go:91-111 | the queue after putToTalkList of each talk in turn |
| Parsing.InsertAllSorted | main.go:90-112 | loading talks one by one keeps the queue sorted longest first |
| Parsing.InsertAllContents | main.go:90-112 | loading adds exactly the loaded talks to the queue |
| Parsing.LoadedFromEmpty | main.go:90-112 | a queue loaded from empty is sorted, holds exactly the parsed talks, and meets the planner's duration bound when they do |
| Parsing.InitTalkList | main.go:90-112 | ok holds exactly when no line is fatal; the queue is the old queue with the talks of the lines before the first fatal line put in, in input order |

## Left out

- Printing (`Print`, `getClock`), every `String` method and all logging: output only.
- `init`, `main` and the test inputs: program wiring and data.
- `MinLen` and `Type` of a session: no operation in the core reads them.
- Talks longer than 240 minutes, or of negative length. `Plan` requires every queued duration to be in [0, 240]. Beyond 240 the source never terminates, as explained above. A negative duration (`-5min` parses) would let a session's total fall and the placed minutes go below zero, so the progress measure used here is not well founded for it; whether plan then terminates is not modelled.
- Planner.Pass: its contract states progress and conservation (through `Progressed`), and that talks remain queued after err. The exact queue and chain after a pass, and the stop at the first rejection, are given by its body: the loop over `Offer` returns at the first offer that is not accepted.
- Planner.Offer: its contract states progress and conservation (through `Offered`), and after an acceptance the queue from `next` on; it does not state the queue before `next` or the exact new chain. The exact effect is the contract of `Tracks.Track.Set` followed by that of `Talks.TalkList.Remove`, which Offer calls in that order.
- Parsing.InitTalkList: `logger.Fatal` ends the process. The model returns `ok == false` instead, with the lines before the fatal one loaded.
- Parsing: strings are sequences of characters, not bytes. `strconv.Atoi` is modelled by its accepted syntax (optional sign, one or more decimal digits) and its 64-bit range check. Its error values are not modelled.
- Element pointers of `container/list` are modelled by indices into the queue. Aliasing between the queue and the sessions cannot arise in the model, because the queue is a separate object outside every track's footprint.
- Go's `int` width: durations are unbounded integers outside `Atoi`. Sums of at most 240 minutes per session cannot overflow.
