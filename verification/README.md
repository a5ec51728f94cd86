# MOOS core: models and proofs

MOOS is a publish/subscribe middleware in which every client talks to one database. This project
models the parts of it whose behaviour is hardest to see from the code, in Dafny, and proves what
clients and maintainers rely on.

| files | part of MOOS |
|---|---|
| `Glob` | the wildcard matcher behind subscriptions, routing and timing |
| `Envelope`, `EnvelopeMotion`, `ConvexHull`, `EnvelopeRuns`, `LongestSegment` | the convex envelope of clock-offset measurements |
| `SkewFilter`, `SkewRuns`, `SkewAnswers`, `SkewHang`, `ClientSkew` | the two skew filters built on it, and the simple blend clients use by default |
| `Messages`, `DbState`, `MoosDb` | the database: what each handler does, and the object with the loops |
| `DbInvariants`, `DbTheorems`, `DbHandlers`, `DbActs`, `WildcardRuns`, `TypeRuns`, `MailRate`, `Deliveries`, `Requests` | what holds in every reachable database state, and what each request means |
| `CommServer`, `CommServerInvariants`, `CommServerTheorems`, `Goodbyes`, `RoundMail`, `JoinedRound`, `ThreadedServer` | the threaded server as a state machine over atomic steps, and the object with the handlers |
| `Wire`, `CutShort`, `CommPkt`, `CommObject` | messages and packets as bytes, and reading packets off a socket |
| `Routing`, `RoutingHistory`, `CommClient` | the client's memory of which queue wants which name, and dispatch |
| `Strings`, `Serial`, `RwSummary` | cutting telegrams off a serial stream; printing and parsing the read-write summary |

Where the program changes an object step by step, the model is a class whose methods are proved to
compute a function of the old state; the properties are lemmas about those functions. Where threads
interleave, the model is a step relation, and the properties hold in every state of every run.
Records that exist only for the sake of a property (what was ever put in a box, when a subscription
was served, what was read off a socket or taken off a list to be sent) are part of the values and are named as such in the code.

The model follows the code where code and intention part:

* The conditioned skew filter is meant to return the plain filter's skew and returns it less twice
  the first measured offset (`SkewRuns.ConditionedIsOff`); the two agree if and only if that offset
  is zero (`SkewRuns.ConditionedAgreesIff`).
* The cached longest segment is not always the longest: the first segment leaves the cached length
  at zero, so a later merge can take the index with a shorter segment
  (`LongestSegment.IndexCanBeStolen`). `LongestSegment.ExactRuns` says exactly when that happens, by
  a condition on the envelope before each point, and `LongestSegment.RunEstimateBounds` that the line
  reported bounds every measurement all the same.
* `CropFrontBefore` comes back if and only if all segments before the longest one are old
  (`Envelope.CropExitsExactly`); otherwise it turns for ever. A fresh filter can get there: 503
  exchanges one after the other, with a client whose clock drifts by less than a second, make it
  hang (`SkewHang.FilterCanHang`).
* A client whose name is empty can store a wildcard filter but is never subscribed by it. Asking for
  stored patterns again with another period changes nothing
  (`WildcardRuns.AskingAgainChangesNothing`). Unregistering a wildcard leaves the filter in place
  (`DbTheorems.WildcardUnregisterDoesNotStick`). Filters are consulted only on the first write of a
  variable (`DbTheorems.LaterWritesSubscribeNobody`).
* A written variable keeps its type until the database is cleared (`TypeRuns.TypesStick`). Clearing
  does not change the type; a write of an unwritten variable as another type does, and nothing else
  (`TypeRuns.TypeChangesIff`), so what was ignored before a clear is taken after it
  (`TypeRuns.ClearingReopens`).
* A synchronous client that sends a packet without messages (`CommServerTheorems.EmptyReadStarves`)
  is never answered, and its reader never reads again (`CommServerTheorems.EmptyRequestStarves`).
* A round of offering mail after a notification delivers what was there when it began, to everybody
  (`CommServerTheorems.RoundDelivers`). Mail can be left held when the round is over
  (`JoinedRound.JoinLeavesMailHeld`): for a client that had its turn, if and only if somebody joined
  after that turn and the announcement of it went to the client (`RoundMail.MailLeftHeldIff`).
* Dispatch stops at the first message nobody routes; messages behind it stay in the inbox
  (`Routing.GoneIffTaken`).

## Model

| member | source | states |
|---|---|---|
| Glob.WildCmp | Core/libMOOS/Utils/MOOSUtilityFunctions.cpp:961-1020 | the two-pointer loop terminates, its restart pointers are set before use, and it returns true exactly when the text is in the language of the pattern |
| Glob.MatchesIsLanguage | Core/libMOOS/Utils/MOOSUtilityFunctions.cpp:961-1020 | the recursive matcher accepts exactly the strings that can be cut into pieces fitting the pattern's characters |
| Glob.LastStarSuffices | Core/libMOOS/Utils/MOOSUtilityFunctions.cpp:961-1020 | giving up every star but the last never loses a match |
| Glob.EndOfString | Core/libMOOS/Utils/MOOSUtilityFunctions.cpp:961-1020 | at the end of the text a match is left exactly when only stars are left in the pattern |
| Envelope.CropExitsExactly | Core/libMOOS/Comms/MOOSSkewFilter.cpp:390-400 | cropping comes back if and only if every segment before the longest ends before the cutoff, and has then dropped exactly those |
| Envelope.CropOnce | Core/libMOOS/Comms/MOOSSkewFilter.cpp:390-400 | one turn of the cropping loop changes neither whether the loop comes back nor the state it comes to |
| Envelope.AppendMeans | Core/libMOOS/Comms/MOOSSkewFilter.cpp:369-387 | in the fields of any state, what appending does to the segments, the index and the cached length |
| Envelope.MergeMeans | Core/libMOOS/Comms/MOOSSkewFilter.cpp:431-480 | in the fields of any state, when the last two segments become one and what that does to the index and the cached length |
| Envelope.ConvexEnvelope.AppendSeg | Core/libMOOS/Comms/MOOSSkewFilter.cpp:369-387 | the new state of the envelope |
| Envelope.ConvexEnvelope.MergeLastSeg | Core/libMOOS/Comms/MOOSSkewFilter.cpp:431-480 | the new state, and that the answer says whether a merge happened |
| Envelope.ConvexEnvelope.AddPoint | Core/libMOOS/Comms/MOOSSkewFilter.cpp:332-366 | the merging loop ends, and leaves the state of append and merge from the back |
| Envelope.ConvexEnvelope.CropFrontBefore | Core/libMOOS/Comms/MOOSSkewFilter.cpp:390-400 | exits exactly when the old front allows it, with the cropped state |
| ConvexHull.MergedAllHull | Core/libMOOS/Comms/MOOSSkewFilter.cpp:355-360 | merging from the back restores falling slopes and loses no point under the hull |
| ConvexHull.AddKeepsUpper | Core/libMOOS/Comms/MOOSSkewFilter.cpp:332-366 | a later point keeps the segments a connected chain with strictly falling slopes, through measured points, with every point on or below it |
| EnvelopeRuns.HullIsMinOfLines | Core/libMOOS/Comms/MOOSSkewFilter.cpp:403-480 | the hull is the lowest of its edges extended for ever |
| EnvelopeRuns.LeastConcaveMajorant | Core/libMOOS/Comms/MOOSSkewFilter.cpp:332-366 | the hull is above all points and below every concave function that is |
| EnvelopeRuns.RunCovers | Core/libMOOS/Comms/MOOSSkewFilter.cpp:332-366 | after every run with increasing times either envelope covers all its measurements |
| EnvelopeRuns.EveryEdgeBounds | Core/libMOOS/Comms/MOOSSkewFilter.cpp:420-480 | every edge extended for ever bounds every covered point |
| EnvelopeRuns.EstimateBounds | Core/libMOOS/Comms/MOOSSkewFilter.cpp:305-328 | the reported line bounds every covered point, from above or from below |
| EnvelopeRuns.LineOutsideHull | Core/libMOOS/Comms/MOOSSkewFilter.cpp:403-480 | a line that fits an envelope's measurements stays outside its hull over the covered span |
| EnvelopeRuns.SkewBetweenHulls | Core/libMOOS/Comms/MOOSSkewFilter.cpp:151-169 | a linear skew consistent with all lower and upper measurements runs between the two hulls |
| EnvelopeMotion.MakeSegMoves | Core/libMOOS/Comms/MOOSSkewFilter.cpp:403-428 | the segment between moved points is the moved segment, refused or not |
| EnvelopeMotion.WithPointMoves | Core/libMOOS/Comms/MOOSSkewFilter.cpp:332-366 | adding a moved point to a moved envelope gives the moved result, also when mirrored |
| EnvelopeMotion.CropMoves | Core/libMOOS/Comms/MOOSSkewFilter.cpp:390-400 | cropping commutes with moving |
| LongestSegment.PeriodsSumToSpan | Core/libMOOS/Comms/MOOSSkewFilter.cpp:403-480 | segment lengths sum to the covered span |
| LongestSegment.RunPeriodsSum | Core/libMOOS/Comms/MOOSSkewFilter.cpp:332-366 | after a run with increasing times the lengths sum to the time the run took |
| LongestSegment.AppendElseIsDead | Core/libMOOS/Comms/MOOSSkewFilter.cpp:369-387 | the branch that would set the length for a first segment is never taken |
| LongestSegment.ExactStep | Core/libMOOS/Comms/MOOSSkewFilter.cpp:451-476 | from an exact cache the next point leaves an exact one if and only if it does not take the index wrongly, a condition on the segments before the call |
| LongestSegment.MergedAllKept | Core/libMOOS/Comms/MOOSSkewFilter.cpp:355-360 | how many segments merging leaves in front of the newest, and where that one starts, from the slopes before it |
| LongestSegment.ExactRuns | Core/libMOOS/Comms/MOOSSkewFilter.cpp:369-480 | the index names a longest segment throughout a run if and only if no point takes it wrongly |
| LongestSegment.IndexCanBeStolen | Core/libMOOS/Comms/MOOSSkewFilter.cpp:369-480 | four points after which it does not |
| LongestSegment.RunCached | Core/libMOOS/Comms/MOOSSkewFilter.cpp:369-480 | the cached length is that of the named segment, or still unset |
| LongestSegment.RunEstimateBounds | Core/libMOOS/Comms/MOOSSkewFilter.cpp:305-328 | longest or not, the reported line bounds every measurement of the run |
| LongestSegment.CropKeepsCovering | Core/libMOOS/Comms/MOOSSkewFilter.cpp:390-400 | a cropped hull is the hull of the points from the longest segment on |
| LongestSegment.CropKeepsCache | Core/libMOOS/Comms/MOOSSkewFilter.cpp:390-400 | cropping keeps the named segment and its length |
| SkewFilter.PlainSkewFilter.UpdateEnvelopes | Core/libMOOS/Comms/MOOSSkewFilter.cpp:151-169 | both envelopes take the measurement, and a refusal resets that one |
| SkewFilter.PlainSkewFilter.Update | Core/libMOOS/Comms/MOOSSkewFilter.cpp:173-255 | the returned skew, the diagnostics and the new state, and exactly when the call comes back |
| SkewFilter.ConditionedSkewFilter.Update | Core/libMOOS/Comms/include/MOOS/libMOOS/Comms/MOOSSkewFilter.h:195-225 | offsets stored at the first call, the base filter on moved inputs, the offset taken off the answer, the diagnostics handed on, and exactly when the call comes back |
| SkewRuns.RunInStep | Core/libMOOS/Comms/MOOSSkewFilter.cpp:151-169 | the two envelopes keep equal measurement counts on every run |
| SkewRuns.UpperOnlyIsDead | Core/libMOOS/Comms/MOOSSkewFilter.cpp:208-212 | so only the upper bound being stable never happens |
| SkewRuns.EstimateIsBetween | Core/libMOOS/Comms/MOOSSkewFilter.cpp:173-213 | the skew settled on is on the line it comes with: halfway between the envelope lines, or on the lower one, or between the measured bounds |
| SkewRuns.SmoothingContracts | Core/libMOOS/Comms/MOOSSkewFilter.cpp:139-148 | against any line of the gradient used, smoothing keeps 0.999 of the old deviation and takes 0.001 of the new |
| SkewAnswers.UpdateAnswers | Core/libMOOS/Comms/MOOSSkewFilter.cpp:173-255 | in numbers, when an update does not come back, and otherwise the answer, every diagnostic and the filter left: the raw measurement or the line between the envelopes, with 0.999 of the last answer's distance kept |
| SkewAnswers.RunAnswers | Core/libMOOS/Comms/MOOSSkewFilter.cpp:173-255 | every answer of every run from the samples and the answer before it: first the lower bound, then a thousandth of the way to the measurement, and past fifty-one samples without a repeated time the line between the envelopes |
| SkewAnswers.HonestAnswers | Core/libMOOS/Comms/MOOSSkewFilter.cpp:173-255 | until the envelopes are stable, honest exchanges keep every answer within a round trip of the truth |
| SkewRuns.RunMoves | Core/libMOOS/Comms/MOOSSkewFilter.cpp:139-255 | shifting the clocks of a run shifts every returned skew by exactly the offset shift, through merges, resets, crops, stability and smoothing |
| SkewRuns.ConditionedIsOff | Core/libMOOS/Comms/include/MOOS/libMOOS/Comms/MOOSSkewFilter.h:195-225 | on every run the conditioned filter returns the plain skews less twice the first offset |
| SkewRuns.ConditionedAgreesIff | Core/libMOOS/Comms/include/MOOS/libMOOS/Comms/MOOSSkewFilter.h:195-225 | on every run that is not empty it agrees with the plain filter if and only if the first exchange measures no offset |
| SkewRuns.RunWindows | Core/libMOOS/Comms/MOOSSkewFilter.cpp:173-255 | while times do not run backwards each envelope covers exactly a latest stretch of the measurements |
| SkewRuns.RunBoundsSkew | Core/libMOOS/Comms/MOOSSkewFilter.cpp:173-255 | a linear skew that fits the measurements an envelope covers stays outside the hull the filter holds, whatever came before them, and each reported line bounds the covered measurements |
| SkewHang.FilterCanHang | Core/libMOOS/Comms/MOOSSkewFilter.cpp:390-400 | a run of a fresh filter that does not come back, of 503 exchanges made one after the other in less than ten minutes, by a client whose clock is never a second off |
| ClientSkew.Clock.UpdateMOOSSkew | Core/libMOOS/Comms/MOOSCommClient.cpp:1696-1745 | the new correction |
| ClientSkew.LastExchange | Core/libMOOS/Comms/MOOSCommClient.cpp:1731-1745 | a zero correction is replaced by the measured skew, any other moves a tenth of the way to it |
| ClientSkew.FirstExchangeSuffices | Core/libMOOS/Comms/MOOSCommClient.cpp:1731-1745 | a client that starts without a correction is within half a round trip of the truth after its first honest exchange and stays there |
| ClientSkew.SkewConverges | Core/libMOOS/Comms/MOOSCommClient.cpp:1731-1745 | after n honest exchanges the correction is within half a round trip of the truth, but for 0.9^n of the error at the start |
| ClientSkew.ErrorDecays | Core/libMOOS/Comms/MOOSCommClient.cpp:1731-1745 | with equal measurements the error shrinks by exactly a tenth each time, unless the correction passes through zero |
| MoosDb.Database.constructor | Core/libMOOS/DB/MOOSDB.cpp:88-190 | the seven variables of the database itself, unwritten and never timed |
| Requests.InitialMeans | Core/libMOOS/DB/MOOSDB.cpp:88-190 | the names, types and values of the seven variables, written by nobody, and nothing else |
| MoosDb.Database.AddMessageToClientBox | Core/libMOOS/DB/MOOSDB.cpp:853-874 | the message goes to the end of the client's box |
| MoosDb.Database.GetOrMakeVar | Core/libMOOS/DB/MOOSDB.cpp:1030-1090 | a variable exists afterwards, and an existing one is untouched |
| MoosDb.Database.AddOwner | Core/libMOOS/DB/MOOSDB.cpp:721-736 | one client's filters subscribe it with the period of the last that matches |
| MoosDb.Database.ApplyFilters | Core/libMOOS/DB/MOOSDB.cpp:710-739 | whatever the order, exactly the named owners of matching filters are subscribed |
| MoosDb.Database.TellSubscribers | Core/libMOOS/DB/MOOSDB.cpp:806-832 | whatever the order, exactly the expired subscribers get the message and are stamped |
| MoosDb.Database.OnNotify | Core/libMOOS/DB/MOOSDB.cpp:704-848 | the new state of the database |
| MoosDb.Database.OnRegisterVar | Core/libMOOS/DB/MOOSDB.cpp:925-969 | the new state of the database |
| MoosDb.Database.OnRegisterWildcard | Core/libMOOS/DB/MOOSDB.cpp:970-1016 | the new state, for some order that meets every variable |
| MoosDb.Database.OnUnRegisterVar | Core/libMOOS/DB/MOOSDB.cpp:879-891 | the new state of the database |
| MoosDb.Database.OnUnRegisterWildcard | Core/libMOOS/DB/MOOSDB.cpp:892-918 | the new state, whatever the order |
| MoosDb.Database.OnClearRequested | Core/libMOOS/DB/MOOSDB.cpp:1377-1413 | the new state, whatever the order |
| MoosDb.Database.OnFetchAllMail | Core/libMOOS/DB/MOOSDB.cpp:655-669 | everything held is handed out |
| MoosDb.Database.OnDisconnect | Core/libMOOS/DB/MOOSDB.cpp:1107-1143 | the client is forgotten and its leaving announced |
| MoosDb.Database.ProcessMsg | Core/libMOOS/DB/MOOSDB.cpp:672-702 | the new state for each kind of message |
| MoosDb.Database.OnRxPkt | Core/libMOOS/DB/MOOSDB.cpp:582-652 | the messages in turn, each with its own reading of the clock, what the database tells itself, then the client's mail, unless the packet was empty |
| DbInvariants.RunInv | Core/libMOOS/DB/MOOSDB.cpp:582-1143 | coherence, conservation of mail and pacing hold in every state any events can lead to |
| DbTheorems.LastWriteCoherence | Core/libMOOS/DB/MOOSDB.cpp:704-848 | the last message a period-0 subscriber was given about a written variable carries its present type, payload, time, source and community |
| DbTheorems.PacketHandsOutInOrder | Core/libMOOS/DB/MOOSDB.cpp:582-652 | a packet's reply completes, in order, all that was put in the box, and touches no other account |
| DbTheorems.FetchHandsOutInOrder | Core/libMOOS/DB/MOOSDB.cpp:655-669 | the same for fetching |
| DbTheorems.RunMail | Core/libMOOS/DB/MOOSDB.cpp:582-669 | over any run without clearing or leaving, handed out followed by held is everything ever put in the box, in order |
| DbTheorems.RateBound | Core/libMOOS/DB/MOOSRegisterInfo.cpp:51-62 | whatever the clock does, sends in a window of length w number at most floor(w / period) + 1 |
| Deliveries.NotifyTells | Core/libMOOS/DB/MOOSDB.cpp:704-848 | exactly those who follow the variable and are due get one message with what was written, and are stamped; nobody else hears of it; due is a period of zero, or a period gone since the last stamp, which starts at zero |
| Deliveries.TellsVariable | Core/libMOOS/DB/MOOSDB.cpp:704-848 | what an accepted write leaves in each field of the variable, and that a refused one leaves it alone |
| Deliveries.UntoldIffTooSoon | Core/libMOOS/DB/MOOSRegisterInfo.cpp:51-62 | in every reachable state an accepted write leaves a follower untold if and only if it has a period and was told less than a period before, or never while the clock is below the period |
| DbTheorems.SendsAreStamped | Core/libMOOS/DB/MOOSDB.cpp:811-832 | a notification, first write or later, reaches a subscriber's box exactly when its subscription has expired, and is stamped then and only then |
| DbTheorems.RepliesAreStamped | Core/libMOOS/DB/MOOSDB.cpp:925-969 | the answer to a registration reaches the box exactly when it is the one stamp of the new subscription, and no other box or stamp changes |
| MailRate.StampsAreMail | Core/libMOOS/DB/MOOSDB.cpp:704-848 | over every run in which a subscription is not renewed, the messages about the variable put in the subscriber's box are as many as the stamps it got |
| MailRate.MailRateBound | Core/libMOOS/DB/MOOSRegisterInfo.cpp:51-62 | over whole runs, of what is told within w seconds at most floor(w / period) + 1 messages about the variable reach a subscriber's box, whatever the clock does |
| DbTheorems.FilterLessTotal | Core/libMOOS/DB/MsgFilter.cpp:71-74 | two filters are unordered exactly when their patterns are equal |
| DbTheorems.FilterLessMeans | Core/libMOOS/DB/MsgFilter.cpp:71-74 | filters are in the dictionary order of their application patterns and then of their variable patterns |
| DbTheorems.InsertStores | Core/libMOOS/DB/MOOSDB.cpp:985-988 | storing a filter keeps all others and makes its patterns stored |
| DbTheorems.InsertKeepsOldPeriod | Core/libMOOS/DB/MOOSDB.cpp:985-988 | the set stays ordered, and patterns stored before keep their period |
| DbTheorems.RunSubscribers | Core/libMOOS/DB/MOOSDBVar.cpp:87-125 | a subscription outlasts every run in which its owner neither unregisters nor leaves |
| DbTheorems.WildcardSubscribesPresent | Core/libMOOS/DB/MOOSDB.cpp:970-1016 | a wildcard request subscribes its sender, while it stays, to every variable matching by name and last writer |
| Requests.RegisterMeans | Core/libMOOS/DB/MOOSDB.cpp:925-969 | in the fields of the message, the variable and subscription a registration leaves, and the one message it is answered with |
| Requests.WildcardRegisterMeans | Core/libMOOS/DB/MOOSDB.cpp:970-1016 | exactly the variables whose last writer and name are in the languages of the patterns get the subscription with the period asked for, and their values are told |
| Requests.WildcardUnregisterMeans | Core/libMOOS/DB/MOOSDB.cpp:892-918 | the sender loses exactly the subscriptions to variables whose last writer and name are in the languages of the patterns, and nothing else changes |
| Requests.UnregisterMeans | Core/libMOOS/DB/MOOSDB.cpp:879-891 | the sender loses exactly the subscription to the variable named |
| Requests.TakenBackIsQuiet | Core/libMOOS/DB/MOOSDB.cpp:892-918 | over whole runs, after a wildcard is taken back no message about a picked variable is put in the client's box until something may subscribe it again |
| Requests.ServerRequestMeans | Core/libMOOS/DB/MOOSDB.cpp:1145-1169 | a request to the server empties every variable and box if and only if it names DB_CLEAR and no summary; otherwise it changes nothing |
| DbTheorems.FirstWriteSubscribes | Core/libMOOS/DB/MOOSDB.cpp:710-739 | a first write subscribes exactly the named owners of matching filters besides those already there |
| DbTheorems.WildcardUnregisterDoesNotStick | Core/libMOOS/DB/MOOSDB.cpp:892-918 | after unregistering a wildcard the next new variable it matches subscribes the client again |
| DbTheorems.LaterWritesSubscribeNobody | Core/libMOOS/DB/MOOSDB.cpp:710-739 | after the first write nobody is subscribed by writing |
| WildcardRuns.FiltersInOrder | Core/libMOOS/DB/MOOSDB.cpp:985-988 | in every reachable state each client's filters are in the order of the set, no two with equal patterns |
| WildcardRuns.AskingAgainChangesNothing | Core/libMOOS/DB/MOOSDB.cpp:985-988 | in every reachable state, storing patterns that are stored, whatever the period, changes nothing |
| WildcardRuns.RunFilters | Core/libMOOS/DB/MOOSDB.cpp:970-1143 | a stored filter stays stored, period and all, over every run in which its owner does not leave |
| DbActs.RunIsActs | Core/libMOOS/DB/MOOSDB.cpp:582-702 | a run of packets, fetches, connections and departures is the run of the single messages and hand-outs in them |
| WildcardRuns.WildcardAgreement | Core/libMOOS/DB/MOOSDB.cpp:710-739 | over whole runs: a wildcard asked for at any message, and the first write of a variable it matches at any later one, by a client or the database, leave the client subscribed at the end, unless it left in between or gave up afterwards |
| DbHandlers.UnregisterUndoes | Core/libMOOS/DB/MOOSDB.cpp:879-891 | unregistering a new subscription restores all variables |
| DbHandlers.FilterMeansLanguages | Core/libMOOS/DB/MsgFilter.cpp:36-40 | a filter matches exactly the messages whose source is in the language of its application pattern and whose name is in that of its variable pattern |
| DbHandlers.WriteIsRemembered | Core/libMOOS/DB/MOOSDB.cpp:741-790 | a write is counted, its writer remembered, and the variable holds what the message says |
| DbHandlers.LeaverIsForgotten | Core/libMOOS/DB/MOOSDB.cpp:1107-1143 | a client that left has no subscription, filter or mail |
| Deliveries.LeavingTells | Core/libMOOS/DB/MOOSDB.cpp:1107-1143 | the event of a client leaving is told to exactly those of the others who follow it and are due, and they keep what was held |
| DbHandlers.OthersKeepTheirs | Core/libMOOS/DB/MOOSDB.cpp:1107-1143 | the others keep their subscriptions and mail |
| TypeRuns.TypesStick | Core/libMOOS/DB/MOOSDB.cpp:741-843 | over every run without a clear a written variable keeps its type, its count of writes never falls and no writer is forgotten |
| TypeRuns.TypeChangesIff | Core/libMOOS/DB/MOOSDB.cpp:704-848 | over every run a variable has its type throughout if and only if nobody writes it, unwritten at that moment, as another type |
| TypeRuns.ClearingReopens | Core/libMOOS/DB/MOOSDB.cpp:1145-1169 | a write of another type is ignored, and the same write after DB_CLEAR is taken as a first write that changes the type and consults the filters again |
| CommServerInvariants.ServeInOrder | Core/libMOOS/Comms/ThreadedCommServer.cpp:253-388 | serving a synchronous client's request leaves its one reply waiting, or, for an empty request, nothing |
| CommServerInvariants.TakeInOrder | Core/libMOOS/Comms/ThreadedCommServer.cpp:833-858 | what a waiting reader takes is the reply to what it read, and nothing is left behind |
| CommServerInvariants.RegistryConnect | Core/libMOOS/Comms/MOOSCommServer.cpp:944-972 | a name that passes the handshake has no thread, and gets one flagged as it asked |
| CommServerInvariants.RegistryDepart | Core/libMOOS/Comms/ThreadedCommServer.cpp:438-496 | a departing client's thread, socket and flag go together, and the database is told the right name |
| CommServerInvariants.LastWord | Core/libMOOS/Comms/ThreadedCommServer.cpp:695-712 | when a goodbye is served nothing of its client is left in the line |
| CommServerInvariants.RunInv | Core/libMOOS/Comms/ThreadedCommServer.cpp:121-496 | registry, order of requests, lockstep and rounds hold in every interleaving, and no error branch is taken |
| CommServerInvariants.ErrorsAreRecorded | Core/libMOOS/Comms/ThreadedCommServer.cpp:121-496 | what the error branches are: each is recorded and leaves the server as stated |
| CommServerTheorems.RegistryAgrees | Core/libMOOS/Comms/ThreadedCommServer.cpp:121-183 | the names with a thread and the names in the socket map are the same, each once, flags included, in every reachable state |
| CommServerTheorems.SynchronousLockstep | Core/libMOOS/Comms/ThreadedCommServer.cpp:812-858 | a synchronous client has at most one request under way or one reply waiting, and every earlier request had exactly one reply |
| CommServerTheorems.ServeReplies | Core/libMOOS/Comms/ThreadedCommServer.cpp:344-388 | a request that is not empty is answered in the step that serves it: a null message with the time, the mail, the answers; an asynchronous client gets its timing message back in front, with the time and its consolidation period, and nothing if there is nothing to say; nobody else's list changes |
| CommServerTheorems.ServedMessages | Core/libMOOS/Comms/ThreadedCommServer.cpp:309-342 | the database works on every message of a packet in order, but for a timing message in front |
| CommServerTheorems.ServingStartsRound | Core/libMOOS/Comms/ThreadedCommServer.cpp:293-307 | serving a packet starts a round of offers if and only if a message anywhere in it is a notification |
| CommServerTheorems.ConsolidationAsConfigured | Core/libMOOS/Comms/ThreadedCommServer.cpp:157-183 | in every reachable state each client is asked to consolidate for what the first matching pattern says |
| CommServerTheorems.StoppedForGood | Core/libMOOS/Comms/ThreadedCommServer.cpp:758-807 | once its writer has stopped nothing more is taken off a client's list, in every run for as long as the client stays registered |
| Goodbyes.GoodbyeReachesWriter | Core/libMOOS/Comms/ThreadedCommServer.cpp:695-712 | in every reachable state an asynchronous client's reader has hung up if and only if the mark is in the client's list or was taken off it, once, and a writer that took it has stopped |
| Goodbyes.WriterTakesInOrder | Core/libMOOS/Comms/ThreadedCommServer.cpp:758-807 | a writer takes the packets of its list one by one from the front and changes nothing else |
| Goodbyes.WriterStops | Core/libMOOS/Comms/ThreadedCommServer.cpp:758-807 | a writer stops at the mark and at a packet that cannot be sent, and at nothing else |
| CommServerTheorems.EmptyRequestStarves | Core/libMOOS/Comms/ThreadedCommServer.cpp:287-291 | a synchronous client whose last request was empty stays registered and unanswered, exactly as it is, through every run |
| CommServerTheorems.EmptyReadStarves | Core/libMOOS/Comms/ThreadedCommServer.cpp:287-291 | an empty packet read from an idle synchronous client brings that about |
| CommServerTheorems.MailArrivesInOrder | Core/libMOOS/Comms/ThreadedCommServer.cpp:360-417 | packets taken off the list, packets waiting and mail held end with everything put in the box since it last lost mail, in order, and are exactly that if the database was never cleared |
| CommServerTheorems.RoundDelivers | Core/libMOOS/Comms/ThreadedCommServer.cpp:385-417 | when a round is over, whoever joined during it, every asynchronous client that was due a turn has in its packets all that was in its box when the round began |
| CommServerTheorems.NotificationDelivers | Core/libMOOS/Comms/ThreadedCommServer.cpp:253-428 | from the start of the server: after a packet with a notification in it is served and the round it starts is over, every asynchronous client there was has in its packets all that was in its box by then |
| CommServerTheorems.EveryRoundDelivers | Core/libMOOS/Comms/ThreadedCommServer.cpp:385-417 | within a round, from its turn on, everything put in an asynchronous client's box before the round began has been handed out |
| CommServerTheorems.UndisturbedRoundDelivers | Core/libMOOS/Comms/ThreadedCommServer.cpp:385-417 | after a round nobody joined, nothing at all is held for any asynchronous client |
| RoundMail.HeldIff | Core/libMOOS/Comms/ThreadedCommServer.cpp:385-417 | between a client's turn and the end of the round nothing is held for it if and only if nothing was and no joining client's announcement went to it |
| RoundMail.MailLeftHeldIff | Core/libMOOS/Comms/ThreadedCommServer.cpp:385-417 | from the start of the server, after its turn in a round mail is held for an asynchronous client if and only if somebody joined since whose announcement reached it |
| JoinedRound.JoinLeavesMailHeld | Core/libMOOS/Comms/ThreadedCommServer.cpp:385-417 | a run from the start in which a client joins during a round and mail is held when the round is over |
| CommServerTheorems.EndToEndCoherence | Core/libMOOS/Comms/ThreadedCommServer.cpp:253-428 | a connected period-0 subscriber's last message about a written variable, wherever it has got to, carries the present value |
| ThreadedServer.RoundGivesEachItsMail | Core/libMOOS/Comms/ThreadedCommServer.cpp:385-417 | a round appends to each asynchronous client's list one packet with exactly what was held for it, and leaves synchronous clients alone |
| ThreadedServer.ThreadedCommServer.IsUniqueName | Core/libMOOS/Comms/MOOSCommServer.cpp:898-911 | true exactly when no socket has the name |
| ThreadedServer.ThreadedCommServer.HandShake | Core/libMOOS/Comms/MOOSCommServer.cpp:913-1009 | the name and kind of client are recorded exactly when the protocol is right, a first message came and its name is unique; the welcome carries the clock difference, an empty first packet or a name in use is poisoned, and a wrong protocol or no packet in time is not answered |
| ThreadedServer.ThreadedCommServer.AddAndStartClientThread | Core/libMOOS/Comms/ThreadedCommServer.cpp:143-183 | a thread is added, with its kind and consolidation period, or the duplicate reported |
| CommServer.FirstPatternDecides | Core/libMOOS/Comms/ThreadedCommServer.cpp:157-165 | the first pattern of the timing list that matches a name decides its consolidation period, and no match means none |
| ThreadedServer.ThreadedCommServer.LookUpConsolidation | Core/libMOOS/Comms/ThreadedCommServer.cpp:157-165 | the look-up loop gives that period |
| ThreadedServer.ThreadedCommServer.OnNewClient | Core/libMOOS/Comms/ThreadedCommServer.cpp:121-136 | the connecting step for whoever may join, at any moment, also while mail is offered round; nothing changes for whoever may not |
| ThreadedServer.ThreadedCommServer.PassUp | Core/libMOOS/Comms/ThreadedCommServer.cpp:812-834 | the reading step |
| ThreadedServer.ThreadedCommServer.PassDown | Core/libMOOS/Comms/ThreadedCommServer.cpp:835-870 | the replying step, with both error branches |
| ThreadedServer.ThreadedCommServer.TellServer | Core/libMOOS/Comms/ThreadedCommServer.cpp:695-712 | the goodbye goes up, and down to an asynchronous writer |
| ThreadedServer.ThreadedCommServer.ProcessClient | Core/libMOOS/Comms/ThreadedCommServer.cpp:253-428 | the serving step, and after a notification one offer to every client in some order |
| ThreadedServer.ThreadedCommServer.OnClientDisconnect | Core/libMOOS/Comms/ThreadedCommServer.cpp:438-496 | the departing step |
| Wire.IntRoundTrip | Core/libMOOS/Comms/MOOSMsg.cpp:117-150 | a 32-bit integer reads back from its four little-endian bytes |
| Wire.IntLayout | Core/libMOOS/Comms/MOOSMsg.cpp:117-150 | an integer is four bytes, the lowest first, negative ones counted back from 2^32 |
| Wire.FieldRoundTrip | Core/libMOOS/Comms/MOOSMsg.cpp:153-301 | a value of each kind reads back from its bytes, whatever follows |
| Wire.MsgRoundTrip | Core/libMOOS/Comms/MOOSMsg.cpp:303-446 | a message reads back and uses up exactly the size it announces |
| Wire.MsgLayout | Core/libMOOS/Comms/MOOSMsg.cpp:320-386 | which field of a message travels where, behind the length of the whole |
| Wire.PacketRoundTrip | Core/libMOOS/Comms/MOOSCommPkt.cpp:139-274 | a list reads back from its packet, null messages left out on request and the leading one's value as the time; the length field is the packet's length |
| Wire.PacketLayout | Core/libMOOS/Comms/MOOSCommPkt.cpp:145-206 | a packet is its length, the number of messages, a zero byte and the messages in order |
| Wire.PacketsTellListsApart | Core/libMOOS/Comms/MOOSCommPkt.cpp:139-274 | different lists travel as different bytes |
| CommPkt.Message.PutString | Core/libMOOS/Comms/MOOSMsg.cpp:187-215 | length and bytes are written, or the string does not fit and at most its length is |
| CommPkt.Message.Put | Core/libMOOS/Comms/MOOSMsg.cpp:153-285 | a value is written at the cursor exactly when it fits, and nothing outside the region changes |
| CommPkt.Message.SerializeTo | Core/libMOOS/Comms/MOOSMsg.cpp:320-386 | the message is written exactly when the region has the size it announces, and otherwise -1 comes back and nothing outside the region changes |
| CommPkt.Message.GetString | Core/libMOOS/Comms/MOOSMsg.cpp:217-234 | a string is read from the region, on any bytes |
| CommPkt.Message.Get | Core/libMOOS/Comms/MOOSMsg.cpp:168-301 | a value of each kind is read from the region, on any bytes |
| CommPkt.Message.SerializeFrom | Core/libMOOS/Comms/MOOSMsg.cpp:387-446 | reading a message from any bytes gives what the parser gives, or fails as it does and leaves the fields read before the failure |
| CutShort.CutShortMeans | Core/libMOOS/Comms/MOOSMsg.cpp:387-446 | of a message cut short, by the number of its bytes that came, exactly the fields that came whole are read and the others stay what they were |
| CommPkt.CommPacket.InflateTo | Core/libMOOS/Comms/MOOSCommPkt.cpp:65-81 | more room, same contents, cursor behind them |
| CommPkt.CommPacket.OnBytesWritten | Core/libMOOS/Comms/MOOSCommPkt.cpp:83-106 | the cursor moves, and once the length has come there is room for the packet |
| CommPkt.CommPacket.Serialize | Core/libMOOS/Comms/MOOSCommPkt.cpp:145-206 | the buffer ends up holding exactly the packet of the list, and serialising never fails |
| CommPkt.CommPacket.Deserialize | Core/libMOOS/Comms/MOOSCommPkt.cpp:207-266 | reading a packet of any bytes, too short ones and wrong lengths included, gives what the parser gives or strays as it does |
| CommObject.ReadPkt | Core/libMOOS/Comms/MOOSCommObject.cpp:160-222 | under any short reads one packet is read and not a byte more, if the stream holds one; reading strays if and only if the length that comes is below four; the buffer is never overrun |
| CommObject.ReadAll | Core/libMOOS/Comms/MOOSCommObject.cpp:160-222 | a stream of packets comes back list by list under any short reads |
| Routing.RoutesAreExact | Core/libMOOS/Comms/MOOSCommClient.cpp:477-631 | over any run the routes of a name are its explicit ones and, once met, exactly the wildcard queues that match; every queue routed to exists |
| RoutingHistory.RoutesByHistory | Core/libMOOS/Comms/MOOSCommClient.cpp:477-631 | from the history of the calls alone: a name goes to a queue if and only if a route was asked for while the queue was there, or it was added with a pattern the name matches, and it was not removed since |
| RoutingHistory.QueuesGrow | Core/libMOOS/Comms/MOOSCommClient.cpp:477-631 | a queue starts empty, and what is in it only grows, by dispatch |
| Routing.RoutesExist | Core/libMOOS/Comms/MOOSCommClient.cpp:874-893 | so the error for a queue that does not exist is never thrown |
| Routing.GoneIffTaken | Core/libMOOS/Comms/MOOSCommClient.cpp:795-905 | place by place, a message dispatch got past is gone from the inbox if and only if a queue has it; queues and inbox keep the order, and all behind the first unrouted message stays |
| Routing.ForMember | Core/libMOOS/Comms/MOOSCommClient.cpp:866-893 | a queue gets exactly the messages whose name routes to it |
| CommClient.Client.AddActiveQueue | Core/libMOOS/Comms/MOOSCommClient.cpp:555-579 | the new tables |
| CommClient.Client.AddWildcardActiveQueue | Core/libMOOS/Comms/MOOSCommClient.cpp:581-608 | the new queue is routed to for exactly the names met that its pattern matches |
| CommClient.Client.AddMessageRouteToActiveQueue | Core/libMOOS/Comms/MOOSCommClient.cpp:612-631 | the new tables, or false for a queue that does not exist |
| CommClient.Client.RemoveActiveQueue | Core/libMOOS/Comms/MOOSCommClient.cpp:477-508 | the queue is gone from every table |
| CommClient.Client.AskPatterns | Core/libMOOS/Comms/MOOSCommClient.cpp:817-834 | every matching wildcard queue is added to the name's routes |
| CommClient.Client.DispatchInBoxToActiveThreads | Core/libMOOS/Comms/MOOSCommClient.cpp:778-908 | the loop ends, throws nothing, handles exactly the messages up to the first without an entry, and leaves the inbox in order |
| Serial.MOOSRemoveChars | Core/libMOOS/Utils/MOOSUtilityFunctions.cpp:1107-1119 | all the characters of the second string are gone, the others stay in order |
| Serial.SerialPort.TakeTelegram | Core/libMOOS/Utils/MOOSSerialPort.cpp:319-358 | the front goes to the inbox as text and the rest moves up in place |
| Serial.SerialPort.ExtractAll | Core/libMOOS/Utils/MOOSSerialPort.cpp:306-361 | every complete telegram is taken, newest first in the inbox, and the unterminated tail stays |
| Serial.SerialPort.OnRead | Core/libMOOS/Utils/MOOSSerialPort.cpp:283-374 | one read, with overflow, and the inbox never above its limit |
| Serial.SplitAnywhere | Core/libMOOS/Utils/MOOSSerialPort.cpp:295-361 | cutting a stream in two and carrying the leftover over gives the same telegrams |
| Serial.CutsMakeNoDifference | Core/libMOOS/Utils/MOOSSerialPort.cpp:287-361 | after every read the telegrams are those of the whole stream and the store its tail, if and only if every read fits behind the tail so far |
| Serial.SameStreamSameTelegrams | Core/libMOOS/Utils/MOOSSerialPort.cpp:287-361 | two ways of cutting a stream that fit leave the same telegrams, the same tail and the same inbox |
| Serial.InboxHoldsNewest | Core/libMOOS/Utils/MOOSSerialPort.cpp:354-368 | after any reads the inbox holds the newest thousand of all telegrams extracted, newest first |
| Serial.InboxOfStream | Core/libMOOS/Utils/MOOSSerialPort.cpp:283-374 | when every read fits, those are the newest telegrams of the whole stream |
| Serial.LeftIsTail | Core/libMOOS/Utils/MOOSSerialPort.cpp:340-347 | the leftover is what follows the last terminator |
| Serial.TelegramText | Core/libMOOS/Utils/MOOSSerialPort.cpp:323-338 | a telegram without zero characters is its text without line ends |
| Serial.TelegramSays | Core/libMOOS/Utils/MOOSSerialPort.cpp:323-338 | a line of text with line ends behind it is told as the text, and a zero character hides what follows it |
| Serial.LinesAreTelegrams | Core/libMOOS/Utils/MOOSSerialPort.cpp:306-361 | a stream of terminated lines gives a telegram for each, in order, and leaves what follows the last |
| Serial.OverflowIsFreshStart | Core/libMOOS/Utils/MOOSSerialPort.cpp:283-300 | a read that does not fit is lost with what was stored, and everything after it is read as by a fresh port |
| RwSummary.MOOSChomp | Core/libMOOS/Utils/MOOSUtilityFunctions.cpp:362-379 | for any token, with or without regard to case, what is before its first place and what is after it, or everything if it has none; what is left is shorter |
| RwSummary.MOOSStrFind | Core/libMOOS/Utils/MOOSUtilityFunctions.cpp:392-413 | where a token of any length first stands, with or without regard to case, or that it stands nowhere; an empty token never does |
| RwSummary.SameLetterMeans | Core/libMOOS/Utils/MOOSUtilityFunctions.cpp:381-390 | characters compare regardless of case exactly on the twenty-six letters |
| RwSummary.ListRoundTrip | Core/libMOOS/Comms/MOOSCommClient.cpp:1928-1936 | a list of names reads back if and only if no name has a colon and the last is not empty |
| RwSummary.EntryRoundTrip | Core/libMOOS/Comms/MOOSCommClient.cpp:1907-1936 | a client's entry reads back if and only if its name has no equals sign and its lists can be carried |
| RwSummary.EntriesRoundTrip | Core/libMOOS/Comms/MOOSCommClient.cpp:1905-1942 | a summary reads back as the entries it was printed from if and only if each has a name without comma and equals sign and lists that can be carried and have no comma |
| RwSummary.SummaryRoundTrip | Core/libMOOS/Comms/MOOSCommClient.cpp:1905-1942 | a summary of sendable entries is recorded entry by entry on top of what was known |
| RwSummary.SummaryTellsTheTruth | Core/libMOOS/DB/MOOSDB.cpp:520-565 | a client that parses the summary knows exactly what every listed client subscribes to and has written |
| RwSummary.PrintCollection | Core/libMOOS/DB/MOOSDB.cpp:508-518 | the names with a colon between them |
| RwSummary.PrintedForm | Core/libMOOS/DB/MOOSDB.cpp:520-565 | how two entries are written, with their four separators |
| RwSummary.ListsFollowOrder | Core/libMOOS/DB/MOOSDB.cpp:520-565 | the lists of a client keep the order of the variable map |
| RwSummary.Summarise | Core/libMOOS/DB/MOOSDB.cpp:520-565 | the printed summary of the variables for the clients |
| RwSummary.StatusMonitor.ProcessReadWriteSummary | Core/libMOOS/Comms/MOOSCommClient.cpp:1905-1942 | the parsing loops end and give what the parser gives, on any string |

## Left out

Not modelled, with the reason where it is not plain:

- Sockets, `select`, time-outs, multicast, the audit over UDP, serial drivers, the HTTP server, console output, command lines and files: a socket is a stream that returns as few bytes as it likes, a serial line a sequence of reads.
- IEEE floating point: clocks, periods and skews are real numbers, and a double on the wire is eight bytes nobody looks into. Counters are unbounded. Lengths stay below 2^31, and the byte swap of big-endian machines is not there.
- Memory locks: a region under a lock, an operation of a shared list or a handler of the database is one step. Data races outside the locks, such as a client joining while the server thread walks the thread map or the two lock regions inside one call that adds a wildcard queue or a route, are not seen; a client that joins during a round may or may not get its turn in it.
- Within the handling of one message the clock is read once, and the order in which a loop meets the entries of a map is arbitrary where no order is promised.
- Variables, subscriptions and client threads are values kept in maps, not objects; `m_sClientName` in a subscription is the key it is filed under.
- `DbState.RegisterInfo`, `DbState.State` and `CommServer.ClientThread` carry records (sends, placed, drained, read, taken) that the program does not keep; what is taken off a list is recorded whether or not sending it then failed.
- Parsing the text of a wildcard request: its patterns and period arrive as a field of the message.
- The texts of DB_CLIENTS, DB_QOS, DB_VARSUMMARY and the answers to queries: what the database tells itself and what it answers are inputs of the packet step.
- Write-frequency statistics, the event log and `m_dfWrittenTime`.
- The bytes of the handshake: whether the protocol string was right and what came of the first packet are inputs of it. Runs in which the welcome cannot be sent after the name is recorded, and packets whose bytes do not parse on their way through the server.
- Stopping and collecting threads (`Stop`, `Kill`, the waste disposal) and the single-threaded `ServerLoop` and `TimerLoop` of the base server.
- What happens after reading has strayed: a length field below four makes the program ask for less than no bytes, and a packet shorter than its header or its length makes it read behind what came. The model says exactly when (`Strays`, `strayed`) and stops there. What a string length below zero does beyond failing.
- `Close` of a client and reuse, `RemoveMessageRouteToActiveQueue`, and what queue threads do with what is pushed to them.
- Readers of the serial inbox, and the exchange of requests and replies on a serial port.
- Locales: `toupper` is that of the C locale.
- `SkewFilter.ConditionedSkewFilter.Update`: the base class is a field of the class, and equality with the plain filter is not claimed because it is false.
- `LongestSegment.ExactRuns`: gives the condition under which the index is exact instead of claiming it, because the claim is false in general.
- Equivariance is claimed of the returned skew only; the diagnostics of an empty envelope do not move with the clocks.
- `Appcasting`, `MOOSApp`, tools, Poco parts and test programs: cosmetic, platform-bound or easy.
