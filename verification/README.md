# Verified model of the calibration, media hand-over and viewing logic

Dafny models of the parts of this repository where state, concurrency or arithmetic decide
correctness, and proofs of what they promise. `dafny verify dfyconfig.toml` checks everything.

**The correction transaction** (`Bridge`, `Service`, `ServiceNode`, `WindowSafety`, `OwnerSafety`, `Sections`,
`Bookings`, `Network`, `Protocol`, `Transaction`, `Displays`, `Progress`). A calibration service and a
navigation bridge agree on one active planar correction. The bridge guards it with a compare-and-swap on session
and revision; the service adds a window revision, a saved candidate, a latched candidate whose application is
unknown, a lease for one automatic owner and a worker thread. `Bridge` and `Service` say what every callback and
every section under the service's lock does to the fields; the classes `OdometryBridge` and `CorrectionService`
do it in place and are proved to do exactly that. `Protocol` puts both into one transition system: requests are
delivered at most once or lost, answers may be lost, late or empty, statuses may be late or lost but stay in
order, other writers send the bridge anything, the bridge restarts, and the service is asked anything at any
time. `Transaction` holds the theorems over all runs, `Displays` those on when what is booked or shown is
untrue, and `Progress` that a calibration nobody disturbs is carried through from every state in which it may
start. An *epoch* is a first attempt to apply a candidate together with the retries of that same unknown
application; its *origin* is the bridge revision the attempt started from.

**The geometry the transaction carries** (`Reals`, `Registration`, `Matrices`, `Geometry`, `Projection`,
`TagChain`). Weighted rigid registration in closed form, quaternions and matrices, the tag-to-world chain, and the
two independent implementations of the pose projection. Numbers are exact reals; an angle is its (cosine, sine)
pair, so `atan2` is normalisation and wrapping is the identity; a square root is any function with the defining
property of one.

**The media hand-over** (`UploadQueue`, `QueueRuns`, `MediaStore`, `Receipts`, `MediaArchive`, `GroundDelivery`,
`GroundHost`, `Handover`). An aircraft queue uploads originals, the ground verifies, keeps and acknowledges them,
and the aircraft deletes only afterwards; a delivery decision runs across both sides and survives restarts.
`UploadQueue` and `MediaStore` are machines whose steps are single sections and single writes that survive a
crash, with the classes that perform them; `QueueRuns` and `Receipts` hold the theorems over their runs.
`GroundHost` runs the delivery decisions over the store, and `Handover` the queue together with the ground.

**Two fast forms against simple ones** (`FileTable`, `Thinning`). The incrementally edited file table against a
full redraw, and the frame thinning rules against each other and against "every k-th frame".

**Effects** (`ServiceEffects`, `BridgeEffects`, `RegistrationEffects`, `QueueEffects`, `StoreEffects`,
`DeliveryEffects`). The modules above define step functions, and their theorems speak of them. These modules say
what each step does to the fields it finds and leaves, in terms of the fields alone: which requests are
accepted, which samples are taken, which records a decision reaches, what a failure falls on, and what a figure
of the registration measures.

Things the proofs brought to light:

- A retry of an unknown application that gives up before it begins is displayed as rejected although the latch
  stays: a concrete run (`Displays.FailedRetryKeepsLatch`) and exactly when (`Displays.MisleadsExactlyWhen`).
- A first attempt whose answer comes back empty is booked as rejected even if the bridge applied it: a concrete
  run (`Displays.EmptyAnswerMisleads`) and exactly when such a booking is untrue (`Displays.DeniesExactlyWhen`),
  so that in all other runs it is true (`Displays.RejectionIsTrue`).
- A new keyframe whose application the bridge confirms is not taken into the window when the window, the session
  or the configuration changed meanwhile: the job fails although the bridge holds the correction
  (`ServiceEffects.AppliedTooLate`).
- A crash of the aircraft process between storing a delivery decision and rewriting its records leaves records
  in states the decision forbids, exactly until each is next written (`QueueRuns.ViolatesExactlyWhen`); nothing is
  transferred meanwhile (`QueueRuns.LaunchesUndecided`).
- A stopped session is remembered only in memory until the catalog file is written, and the sessions are stopped
  before that. A crash in between lets an original of the session be ingested after all
  (`GroundHost.StopCanBeForgotten`); a session is stopped for good exactly when its failure has reached the file
  (`GroundHost.StoppedForGoodIff`).
- A payload sent again for an original that the ground keeps under another name than the first free one is
  filed under that other name, outside every record. Together with an ingestion that was cut off, a receipt can
  then be written although the record's file holds something else (`Receipts.ReceiptCanLie`);
  `Receipts.ReceiptTrueIff` gives the condition that decides it before an ingestion begins, and
  `Receipts.EveryReceiptIsTrueIff` the same for whole runs. The aircraft then unlinks an original that the ground
  does not hold (`Handover.OriginalCanBeLost`).
- The guard of 1/100000 slot in both slot rules makes them keep an extra frame exactly from a ratio of 100000 on
  (`Thinning.MatchesFramestepIff`).

## Model

| member | source | states |
|---|---|---|
| Transaction.AtMostOnce | correction_service/correction_service/node.py:1837-1974 | in every run at most one request of an epoch advances the bridge; it asks for the revision its epoch started from and replaces exactly the correction the service last saw |
| Transaction.AtMostOnceWhileLatched | correction_service/correction_service/node.py:980-1057 | while one application stays latched unknown, all its requests, earlier ones included, advance the bridge at most once, whatever other writers, losses, restarts and late statuses do meanwhile |
| Transaction.OutcomesAreTrue | correction_service/correction_service/node.py:1702-1788 | booked as applied implies the bridge really held those values under that job and session; every request of a first attempt booked as rejected was turned down by the bridge or brought an empty answer; a retry is never settled as rejected |
| Displays.DeniesExactlyWhen | correction_service/correction_service/node.py:1930-1973 | over all runs a first attempt comes to be taken for rejected, while some request of it had an effect or still may, if and only if its awaited answer comes back empty before the bridge has turned the awaited request down |
| Displays.RejectionIsTrue | correction_service/correction_service/node.py:1930-1973 | so in every run whose empty answers reach only retries and requests already turned down, a first attempt booked or shown as rejected never had an effect and never will |
| Displays.EmptyAnswerMisleads | correction_service/correction_service/node.py:1957-1973 | a concrete run: the answer comes back empty, and the first attempt is booked as rejected although the bridge applied it and holds the correction |
| Transaction.HeldHappened | correction_service/extnav_patch/extnav_to_vision_pose.py:596-620 | whatever the record of held corrections contains, the bridge held as its active correction at some point of the run |
| Displays.FailedRetryKeepsLatch | correction_service/correction_service/node.py:1209-1226 | after a concrete run from start-up a retry whose wait for odometry failed is shown as rejected while its application stays latched unknown |
| Displays.MisleadsExactlyWhen | correction_service/correction_service/node.py:1061-1224 | over all runs a step brings that about if and only if it is a retry that gives up before it begins: its capture cannot be opened or released, or its wait fails, and no fault drops the latch meanwhile |
| Displays.LatchIsShown | correction_service/correction_service/node.py:1702-1788 | in every reachable state a latch held while no job is under way is shown as unknown, or as rejected only by a retry that sent nothing |
| Transaction.ApplicableMatchesWindow | correction_service/correction_service/node.py:980-1030 | in every reachable state a saved candidate `apply_saved` accepts has exactly the window's keyframes, and a latched unsaved one is the window with one more keyframe, even if the window was invalidated while an application was in flight |
| Transaction.WindowIsRecentAndSound | correction_service/correction_service/node.py:1790-1835 | the window is the last min(N, size) keyframes accepted since it was last emptied, with distinct Tags, one session, configuration and time source, and every pair within the baseline gates |
| Transaction.WindowRevisionDetermines | correction_service/correction_service/node.py:2044-2064 | over any part of a run the window revision never decreases, and if it is the same so is the window |
| Transaction.RetiredForGood | correction_service/correction_service/node.py:587-664 | a source that was released, expired or cancelled never has a write or an acquire accepted again and never holds the lease except while its release is carried out |
| Transaction.OwnerExcludesOthers | correction_service/correction_service/node.py:609-620 | an accepted write comes from the lease holder, or the lease was just found over, nothing runs and another source writes |
| Transaction.OwnerExcludesOthersAlways | correction_service/correction_service/node.py:609-620 | the same in every reachable state |
| Transaction.StopHolds | correction_service/correction_service/node.py:1884-1912 | a job asked to stop, failed or without its lease before its request left sends none for as long as its thread lives, in every run |
| Transaction.StopsSilence | correction_service/correction_service/node.py:565-607 | an accepted stop, an ended lease and an accepted release each put the running job into that condition |
| Protocol.SuccessorKeepsInv | correction_service/correction_service/node.py:474-536 | every step of the combined system keeps the invariant behind these theorems |
| Protocol.AdvanceFacts | correction_service/extnav_patch/extnav_to_vision_pose.py:512-560 | a request that changes the revision met the session, the origin revision and the correction its sender had seen |
| Protocol.AnsweredTruth | correction_service/correction_service/node.py:1930-1973 | an answer of the bridge that the service takes as acknowledgement proves the application; any other answer to a first attempt proves it never happens |
| Protocol.StatusProves | correction_service/correction_service/node.py:1976-1995 | a status that matches a candidate proves that the bridge held it |
| Network.RawIsOrderly | correction_service/extnav_patch/extnav_to_vision_pose.py:393-474 | everything one raw sample makes the bridge publish lies in order between its old and its new state, sessions and revisions included |
| Network.TakeKeeps | correction_service/extnav_patch/extnav_to_vision_pose.py:636-679 | published statuses stay ordered, a status of the current session and revision shows the current correction, and every valid one was really held |
| WindowSafety.HearKeeps | correction_service/correction_service/node.py:474-536 | a status may kill the session of an application in flight but never leaves an acceptable candidate that disagrees with the window |
| WindowSafety.CommittedKeeps | correction_service/correction_service/node.py:1803-1825 | committing a candidate that extends the window keeps every gate and appends one accepted keyframe |
| WindowSafety.SettleAppliedKeeps | correction_service/correction_service/node.py:1721-1746 | booking an application that came back late puts back only candidates that match the window or whose session is dead |
| WindowSafety.FrozenBacked | correction_service/correction_service/node.py:1413-1513 | a frozen candidate is the current window with the new keyframe, cut to size, and passes every gate |
| Sections.ActionsAreModest | correction_service/correction_service/node.py:2044-2053 | no section moves the window except by emptying it or accepting one keyframe, each with a new revision, nor the latch except to the running job's candidate |
| OwnerSafety.ActionKeepsOwner | correction_service/correction_service/node.py:587-664 | every section keeps the lease rules, and nothing ever leaves the set of retired sources |
| OwnerSafety.SendKeepsOwner | correction_service/correction_service/node.py:1884-1912 | a request leaves only when the lease is not over, nothing asked the job to stop and the node is not closing |
| Bookings.ActionBooks | correction_service/correction_service/node.py:1702-1788 | every section keeps the books: a saved candidate bearing the id of an acknowledged finished job is that job's own, and a latch held while no job is under way belongs to the last job |
| Bookings.ConfirmSaves | correction_service/correction_service/node.py:2189-2215 | the late confirmation of an acknowledged application, which rewrites the saved candidate, rewrites it with itself |
| Bookings.ConfirmKeepsInv | correction_service/correction_service/node.py:2189-2215 | that confirmation keeps what holds of window, candidates and bookings |
| ServiceNode.CorrectionService.OnApplySaved | correction_service/correction_service/node.py:946-1086 | in place, keeps every invariant and latch and window as they are, does what the specification says, and works on exactly the window's keyframes when nothing was latched |
| ServiceNode.CorrectionService.OnStart | correction_service/correction_service/node.py:706-838 | in place, keeps every invariant and starts exactly the jobs the specification allows |
| ServiceNode.CorrectionService.OnSetCalibrationOwner | correction_service/correction_service/node.py:622-664 | in place, never grants the lease to a retired source, and grants it for 15 seconds |
| ServiceNode.CorrectionService.OnExtnavStatus | correction_service/correction_service/node.py:474-536 | in place, keeps every invariant at the rank of the session heard, and leaves window and latch alone or drops both |
| ServiceNode.CorrectionService.SendRequest | correction_service/correction_service/node.py:1884-1912 | in place, sends only under a live lease, unstopped and on the window the job began with, and never comes back to sending |
| ServiceNode.CorrectionService.Book | correction_service/correction_service/node.py:1715-1788 | in place, keeps every invariant, holds the latch exactly for an unknown outcome, raises the window revision exactly on change, and for an applied candidate accepts exactly its new keyframe, keeps the window the last `size` of what was accepted and saves it, if everything still agrees, and otherwise leaves the window alone |
| ServiceNode.CorrectionService.PublishStatus | correction_service/correction_service/node.py:2189-2215 | in place, checks the lease, confirms an acknowledged application late, and leaves the saved candidate as it is |
| ServiceNode.CorrectionService.CommitNewWindow | correction_service/correction_service/node.py:1790-1835 | commits exactly when window revision, session and configuration still agree, and otherwise changes nothing |
| ServiceEffects.LeaseChecked | correction_service/correction_service/node.py:587-607 | whatever writes first sees a lease that is over ended: its source retired, the active job told to stop once, and the desk vacated exactly when no thread is alive |
| ServiceEffects.LeaseAsked | correction_service/correction_service/node.py:622-664 | a lease is granted or extended exactly for a named source that is not retired while no other source holds it and it is not on its way out, and for the first time only with nothing under way or unresolved; a release retires its source |
| ServiceEffects.LeaseLasts | correction_service/correction_service/node.py:602-607 | a lease granted at `now` is live at every moment before `now` + 15 s and over from then on |
| ServiceEffects.WriteAdmitted | correction_service/correction_service/node.py:609-675 | a write is admitted exactly from the lease's holder, or from anybody not retired when there is no lease, with a number greater than any before; only the number is recorded |
| ServiceEffects.StartAsked | correction_service/correction_service/node.py:706-838 | exactly which start requests are accepted, and the job each leaves behind |
| ServiceEffects.StopAsked | correction_service/correction_service/node.py:840-869 | a stop reaches exactly the active job it names, and its event only while its request has not left |
| ServiceEffects.ConfigurationAsked | correction_service/correction_service/node.py:871-913 | a changed configuration is accepted only at rest and drops window, saved and latched candidate; an unchanged one changes nothing |
| ServiceEffects.ClearAsked | correction_service/correction_service/node.py:915-944 | the window is cleared exactly at rest, with its saved and latched candidate |
| ServiceEffects.ApplicationAsked | correction_service/correction_service/node.py:946-1057 | exactly which applications are accepted, the latched candidate before the saved one, and how a retry is told from a first attempt |
| ServiceEffects.StatusHeard | correction_service/correction_service/node.py:474-536 | a status drops the window, fails the job and ends the lease exactly when the session was replaced or is openly gone, each by its own test |
| ServiceEffects.FaultReported | correction_service/correction_service/node.py:334-343 | an odometry fault counts exactly while the capture is open |
| ServiceEffects.NodeCloses | correction_service/correction_service/node.py:2534-2550 | closing tells the active job to stop |
| ServiceEffects.CandidateFrozen | correction_service/correction_service/node.py:1413-1470 | a frozen candidate is the newest keyframes that leave room for the new one, with the job's identity and bases and an epoch of its own |
| ServiceEffects.CollectingEnds | correction_service/correction_service/node.py:1061-1208 | collecting without a candidate has failed |
| ServiceEffects.CaptureReleased | correction_service/correction_service/node.py:1209-1226 | a job whose collection or release failed is over, and its application counts as rejected; any other goes on to apply or to save |
| ServiceEffects.FaultBeforeRelease | correction_service/correction_service/node.py:1209-1226 | a fault that comes with the release is reported first |
| ServiceEffects.ChecksBeforeSending | correction_service/correction_service/node.py:1837-1883 | an attempt goes on to service discovery and to sending exactly while the status is the one expected; a retry that sends nothing stays unknown, a first attempt is rejected |
| ServiceEffects.RequestLeaves | correction_service/correction_service/node.py:1884-1930 | a request leaves exactly when nobody asked to stop, the node stays open, the status is the one expected and the window is the job's, and it asks for exactly the candidate |
| ServiceEffects.LateLeaseSilences | correction_service/correction_service/node.py:1884-1895 | a lease found over stops the job before it sends |
| ServiceEffects.AnswerHeard | correction_service/correction_service/node.py:1930-1973 | which answers acknowledge, and when a leased source also waits for the status |
| ServiceEffects.StatusPolled | correction_service/correction_service/node.py:1997-2035 | polling ends exactly with a status that shows the candidate, at the acknowledged revision if there was one, or at the deadline |
| ServiceEffects.AppliedEnters | correction_service/correction_service/node.py:1721-1746 | an applied candidate that was to extend the window enters it if revision, session and configuration still agree under a fresh status: its newest keyframe is accepted, the revision rises by one, what is saved is of that window and of the revision it was applied at, and the job succeeds unless its source is leased and the status has not confirmed it |
| ServiceEffects.AppliedTooLate | correction_service/correction_service/node.py:1721-1735 | if something no longer agrees the window stays and the job fails |
| ServiceEffects.AppliedAgain | correction_service/correction_service/node.py:1736-1746 | an applied candidate that was in the window already is saved anew, with the revision it is now in force at |
| ServiceEffects.OtherwiseBooked | correction_service/correction_service/node.py:1747-1788 | a rejection gives up the latch and restores what was saved, an unknown outcome stays latched, and both leave the window alone |
| ServiceEffects.DryRunSaved | correction_service/correction_service/node.py:1676-1700 | a dry run enters the window exactly when it was not stopped and everything still agrees |
| ServiceEffects.LateConfirmation | correction_service/correction_service/node.py:2189-2215 | an acknowledged application counts as confirmed exactly once a status shows it at the acknowledged revision |
| Progress.UndisturbedJobSucceeds | correction_service/correction_service/node.py:1061-1224 | from every state in which a calibration may start, with any request, keyframe and correction both sides accept, a run of the job alone, its request and one status ends with the bridge holding the correction one revision on, the window having accepted exactly that keyframe, the candidate saved for it, nothing latched and the job over |
| Progress.CalibrationCanStart | correction_service/correction_service/node.py:706-838 | from start-up one odometry sample and one status lead to such a state |
| Bridge.RevisionDetermines | correction_service/extnav_patch/extnav_to_vision_pose.py:393-634 | over every run the revision never decreases and determines the active correction and its job; an active correction belongs to the live session, and a retained sample carries the current validity, revision and session |
| Bridge.RunKeepsInv | correction_service/extnav_patch/extnav_to_vision_pose.py:393-634 | the same from any state that meets the invariant |
| Bridge.CompareAndSwap | correction_service/extnav_patch/extnav_to_vision_pose.py:512-620 | an accepted request that changes the correction met the current session and revision and raises it by one; a refused one changes and publishes nothing |
| Bridge.OdometryBridge.OdomCallback | correction_service/extnav_patch/extnav_to_vision_pose.py:393-474 | the callback, in place, does to the fields and publishes what `BridgeEffects` says of every sample |
| Bridge.OdometryBridge.SetCorrectionCallback | correction_service/extnav_patch/extnav_to_vision_pose.py:512-620 | the service handler, in place, answers and changes state as specified |
| Bridge.OdometryBridge.StatusTimerCallback | correction_service/extnav_patch/extnav_to_vision_pose.py:622-634 | the timer, in place, does what `BridgeEffects.TimerTakes` says |
| BridgeEffects.ResetsFollow | correction_service/extnav_patch/extnav_to_vision_pose.py:491-494 | the reset counter is the revision modulo 256 at every callback boundary |
| BridgeEffects.HeldBack | correction_service/extnav_patch/extnav_to_vision_pose.py:409-414 | a repeated stamp, or an older one without a silence before it, changes nothing and publishes nothing |
| BridgeEffects.Refreshes | correction_service/extnav_patch/extnav_to_vision_pose.py:409-466 | any other sample of an open session keeps session and correction, records its moment and stamp, and leaves an output that names the correction as it stands |
| BridgeEffects.RefreshFails | correction_service/extnav_patch/extnav_to_vision_pose.py:430-466 | when a computation fails the correction falls and is reported, and a sample remains exactly when its transform succeeded |
| BridgeEffects.Opens | correction_service/extnav_patch/extnav_to_vision_pose.py:416-429 | a session is opened exactly on first availability or after a silence longer than the limit, the old correction gone before the new session is shown |
| BridgeEffects.WrongFrames | correction_service/extnav_patch/extnav_to_vision_pose.py:395-402 | a sample in other frames ends session and correction, and is reported unless there is nothing new to say |
| BridgeEffects.RequestTakes | correction_service/extnav_patch/extnav_to_vision_pose.py:512-620 | exactly which requests are refused, repeat what is active, remove it or put a new correction, and what each leaves and publishes |
| BridgeEffects.TimerTakes | correction_service/extnav_patch/extnav_to_vision_pose.py:622-634 | the timer ends a session exactly after a silence, and always publishes what it leaves |
| BridgeEffects.SessionEndsExactlyWhen | correction_service/extnav_patch/extnav_to_vision_pose.py:393-634 | an open session changes if and only if a sample comes in other frames or passes after a silence, or the timer fires after one |
| BridgeEffects.SessionLivesOn | correction_service/extnav_patch/extnav_to_vision_pose.py:393-634 | in every run in which no such event occurs, whatever requests come, the session stays open, and the next sound sample leaves an output under the correction in force |
| Registration.LeastCost | correction_service/correction_service/window.py:205-233 | the closed form is the one rotation and translation with the least weighted squared residual among all of them |
| Registration.BestCost | correction_service/correction_service/window.py:205-233 | that least residual is Sp + Sq - 2 hypot(a, b) |
| Registration.CostDecomposed | correction_service/correction_service/window.py:205-218 | the cost of any motion splits into scatter, alignment and the weighted distance of the centroids |
| Registration.ExactSolution | correction_service/correction_service/window.py:235-260 | observations of one rigid motion give that motion with zero residuals; only the yaw limit can still refuse it |
| Registration.ExactAlignment | correction_service/correction_service/window.py:239-253 | for such observations hypot(a, b) equals the odometry scatter, so the two degeneracy tests are one and refuse only keyframes that are too close together |
| Registration.ExactBaselines | correction_service/correction_service/window.py:181-203 | for such observations the two baselines of every pair agree |
| Registration.Solve | correction_service/correction_service/window.py:160-293 | each refusal exactly when its gate is the first that fails, the first failing pair for baselines, and otherwise the least-squares motion with its residuals |
| Registration.BuildTemporaryWindow | correction_service/correction_service/window.py:296-312 | an extension is refused if and only if its Tag is in the window already or the whole extended window does not register; then the window stays, and otherwise it is the last keyframes |
| Registration.FitsAgree | correction_service/correction_service/window.py:205-293 | two fits of one window agree on whether the quality limits are met |
| RegistrationEffects.WeightIsInverseVariance | correction_service/correction_service/window.py:50-54 | a keyframe weighs the inverse of its variance between sigma 1 mm and 0.25 m, and the bounds outside |
| RegistrationEffects.MoreCertainWeighsMore | correction_service/correction_service/window.py:50-54 | a more certain keyframe never weighs less |
| RegistrationEffects.PairPassesIff | correction_service/correction_service/window.py:212-234 | a pair passes if and only if both baselines are long enough and differ by at most the allowed share of the longer one |
| RegistrationEffects.CoherentIff | correction_service/correction_service/window.py:164-184 | a window is looked at if and only if it has two keyframes, no Tag twice and one session, configuration and time source |
| RegistrationEffects.VerdictIff | correction_service/correction_service/window.py:282-293 | a fit is accepted exactly within its three limits, and a refusal names the first one exceeded |
| RegistrationEffects.FiguresAre | correction_service/correction_service/window.py:235-281 | each residual is the distance it says and the greatest is reported, the squared RMS is their weighted mean square, and the yaw deviation is the inverse root of the least scatter about any point |
| RegistrationEffects.NewestKept | correction_service/correction_service/window.py:308-312 | the window that is kept is the newest part of the extended one |
| RegistrationEffects.SpreadIff | correction_service/correction_service/window.py:252-253 | geometry is degenerate exactly when scatter or alignment is at most 1e-12 |
| Geometry.ChosenComponent | correction_service/correction_service/geometry.py:59-91 | for a unit quaternion the component the chosen branch divides by is not zero |
| Geometry.QuaternionRoundTrip | correction_service/correction_service/geometry.py:42-91 | a unit quaternion turned into a matrix and back gives itself or its negative, in all four branches |
| Geometry.AnyQuaternionRoundTrip | correction_service/correction_service/geometry.py:42-91 | the same for every quaternion the conversion accepts, up to its norm |
| Projection.ProductLaw | correction_service/extnav_patch/extnav_to_vision_pose.py:114-142 | the quaternion product is the product of the rotation matrices |
| Projection.SamePose | correction_service/extnav_patch/extnav_to_vision_pose.py:189-234 | the bridge's quaternions and the service's matrices emit the same pose for every raw sample, correction and lever arm |
| Projection.JumpPredicted | correction_service/correction_service/geometry.py:187-237 | the jump the service predicts is the jump between what the bridge emits before and after |
| Projection.HeadingJumpIsTurnDifference | correction_service/correction_service/geometry.py:223-237 | the predicted heading jump is that of the two corrections alone |
| Projection.JumpIsPlaneDistance | correction_service/correction_service/geometry.py:223-237 | the predicted distance is that between the two places the sample is carried to, in the plane |
| Projection.PoseCarried | correction_service/extnav_patch/extnav_to_vision_pose.py:189-234 | the emitted pose is the raw one turned and moved as the correction says, the lever arm added, and only its height once a correction is active |
| Projection.AxisTurns | correction_service/correction_service/geometry.py:42-57 | a quaternion along an axis turns about it, in the right sense, by twice its half angle |
| TagChain.TagAnchored | correction_service/correction_service/geometry.py:137-179 | the computed transform carries the configured tag as seen exactly onto the surveyed tag, whatever was measured |
| TagChain.PointsAnchored | correction_service/correction_service/geometry.py:121-179 | whatever was measured, every point the detector gives of the tag is carried to its surveyed place, through the odometry frame and from the vehicle's |
| TagChain.TagAxes | correction_service/correction_service/geometry.py:121-134 | the detector's origin lands on the surveyed position, its -Y axis on the surveyed heading, its +X axis to the left of it, its +Z axis upwards |
| TagChain.ReportsPlane | correction_service/correction_service/geometry.py:165-179 | for any sighting, what is reported is where the odometry's origin goes, the heading its X axis takes and how much of its Z axis still points up |
| TagChain.NoiseFreeExists | correction_service/correction_service/geometry.py:137-179 | for every motion, tag and mounting there is a noise-free sighting |
| TagChain.SingleTagRecovery | correction_service/correction_service/geometry.py:137-179 | a sighting in which the motion carries every point the detector gives to its surveyed place returns that motion, with zero tilt |
| TagChain.NoiseFreeRecovery | correction_service/correction_service/window.py:235-260 | keyframes of noise-free sightings, registered together, give the motion each single tag gave, with zero residuals |
| QueueRuns.FinalForGood | video_service/media_transfer.py:141-152 | over every run, stale writers and crashes included, a ready or failed decision never changes |
| QueueRuns.ViolatesExactlyWhen | video_service/media_transfer.py:55-67 | after every step of every run a record disobeys the decision of its session if and only if a crash inside that decision left it behind and nothing has written it since |
| QueueRuns.ObeysUntilCrash | video_service/media_transfer.py:141-166 | until the process first dies inside a decision the database obeys every decision, whatever copies are written |
| QueueRuns.CrashCanBreak | video_service/media_transfer.py:150-160 | a concrete run in which such a crash leaves a record behind, and the next write of it mends it |
| QueueRuns.NeverEnters | video_service/media_transfer.py:55-67 | in every run no step puts a record of a decided session among the queued, retried or uploading; one found there was stranded by a crash |
| QueueRuns.LaunchesUndecided | video_service/media_transfer.py:168-175 | in every run every command of every upload starts while its session is undecided, even after crashes inside decisions |
| QueueRuns.SentWasLaunched | video_service/media_transfer.py:245-286 | every published manifest was published at such a moment, with the size and digest written down before |
| UploadQueue.Queue.SetDelivery | video_service/media_transfer.py:141-166 | the loop over the records, in place, leaves the specified database, whose fields `QueueEffects.DecisionTakes` gives |
| UploadQueue.Queue.EnqueueFile | video_service/media_transfer.py:88-109 | in place, a file of a session that is enqueued again is the record it already has unless that was deleted, and otherwise a new one, stored as the decision allows |
| UploadQueue.Queue.OpenUpload | video_service/media_transfer.py:245-249 | in place, the opening section of an upload stores the attempt as the decision allows |
| UploadQueue.Queue.SizeUpload | video_service/media_transfer.py:250-277 | in place, an absent or changing original ends the attempt, and so does one whose size or modification time is no longer what the first attempt wrote down; otherwise size, time and digest are stored, the digest of the first attempt kept |
| UploadQueue.Queue.LaunchCommand | video_service/media_transfer.py:200-207 | a command starts exactly when the stored record is not stopped; publishing is recorded with the receipt it asks for |
| UploadQueue.Queue.AwaitReceipt | video_service/media_transfer.py:285-286 | in place, the last section makes the record wait for its receipt, as the decision allows |
| UploadQueue.Queue.EndAttempt | video_service/media_transfer.py:352-363 | in place, a failed attempt is retried later or fails its session for good |
| UploadQueue.Queue.ReadAcks | video_service/media_transfer.py:288-317 | cached receipts of waiting records are dropped before the pull, and a waiting record is acknowledged only by its own receipt in what this pull brought |
| UploadQueue.Queue.Cleanup | video_service/media_transfer.py:319-333 | exactly the due originals are unlinked and marked, and nothing else |
| QueueEffects.RecordBegins | video_service/media_transfer.py:104-107 | a new record is untried and unmeasured, held or queued as asked |
| QueueEffects.WriteStores | video_service/media_transfer.py:55-67 | what is stored when a record is written, under every decision of its session |
| QueueEffects.DecisionTakes | video_service/media_transfer.py:141-166 | a decision reaches exactly the media of its session: asking for the original queues every held video at once, a failure halts everything not yet deleted with its reason, a delivery spares every video not yet deleted, waiting changes nothing, and a decided session is never decided again |
| QueueEffects.SectionsStore | video_service/media_transfer.py:245-286 | what opening, measuring and finishing an upload store while its session is undecided, and exactly when an original is at fault |
| QueueEffects.SectionsInOrder | video_service/media_transfer.py:245-286 | one record at a time, measured once and before anything of it is copied or announced, no command after the manifest is published, and no wait before |
| QueueEffects.CommandStarts | video_service/media_transfer.py:200-207 | a command may start exactly while the stored record is not stopped, and publishing asks for a receipt of what was measured |
| QueueEffects.AttemptEnds | video_service/media_transfer.py:352-363 | a failed attempt is retried at the moment given, and one that needs attention halts every medium of its session |
| QueueEffects.PullTakes | video_service/media_transfer.py:288-317 | what a pull makes of every record: exactly a receipt of what was sent acknowledges |
| QueueEffects.CleanupTakes | video_service/media_transfer.py:319-333 | an original goes exactly when it was acknowledged or spared for the time of grace |
| QueueEffects.CrashLeaves | video_service/media_transfer.py:141-166 | a crash forgets the worker's copy, and inside a decision leaves it stored with exactly some records rewritten |
| QueueEffects.StartFinds | video_service/media_transfer.py:50-53 | at start-up an interrupted upload is to be retried and anything else stays |
| QueueEffects.AskedIsSent | video_service/media_transfer.py:141-286 | for every held video whose original is there and unchanged: once the ground asks for it an undisturbed upload publishes it, and the record waits for a receipt of exactly what was sent |
| MediaStore.MediaPath | video_service/media_store.py:156-172 | the name search ends, at the first candidate no other record occupies |
| MediaStore.PathsStayDistinct | video_service/media_store.py:144-198 | in every run, interrupted anywhere and with the photo worker choosing names outside the lock, no two records share a non-empty original or public path |
| Receipts.EveryReceiptIsTrueIff | video_service/media_store.py:235-310 | in every run, after every single write, every receipt is true if and only if every ingestion whose receipt was written had been sound when it began |
| Receipts.ReceiptTrueIff | video_service/media_store.py:264-310 | an ingestion carried through leaves every receipt true if and only if, when it begins, its payload is not in the inbox, or no original is kept, or the kept one has the name the search found or the announced content |
| Receipts.NeverRefused | video_service/media_store.py:305-306 | opening the original before the receipt is written never fails |
| Receipts.ReceiptCanLie | video_service/media_store.py:277-307 | a reachable store in which a receipt for announced content is not backed by its record's file |
| GroundHost.StoppedForGoodIff | video_service/ground_media.py:278-319 | in every run, crashes included, nothing more of a session is ingested or published if and only if its failure has reached the catalog file |
| GroundHost.FailedForGood | video_service/ground_media.py:102-120 | from start-up on, once a failure was decided and the lock is free, that is so |
| GroundHost.StopCanBeForgotten | video_service/media_store.py:213-220 | a concrete run: a session is stopped, the process dies before the catalog is written, and an original of it is ingested after all |
| MediaArchive.Archive.Ingest | video_service/media_store.py:264-310 | in place, an accepted manifest performs exactly the specified writes and a refused one none, and the receipts stay true exactly when it is sound |
| MediaArchive.Archive.Delete | video_service/media_store.py:382-400 | in place, active media stay and anything else loses receipt, files and paths; no receipt becomes untrue |
| MediaArchive.Archive.RegisterProcessed | video_service/media_store.py:174-198 | in place, a finalized recording is published under the first free name, or refused when the record is not its session's |
| MediaArchive.Archive.PublishPhoto | video_service/media_store.py:345-352 | in place, a corrected photo is published unless its session was stopped meanwhile |
| MediaArchive.Archive.Cleanup | video_service/media_store.py:402-420 | records outside their grace go in the order of age, each while the limit was still exceeded and none in between left out, until the rest fits or only active, deleted and recent ones are left |
| MediaArchive.Archive.StopSession | video_service/media_store.py:213-220 | exactly the active records of the stopped session stop being active, and every file stays |
| MediaArchive.TotalWithout | video_service/media_store.py:364-376 | the measured usage is the sum over files, whatever order they are visited in |
| StoreEffects.NamesTried | video_service/media_store.py:156-172 | the wished name is tried first and then the same with -2, -3 and so on before its suffix |
| StoreEffects.NameFound | video_service/media_store.py:156-172 | the name found is the first of these that no other file occupies |
| StoreEffects.InboxTakes | video_service/media_store.py:235-262 | what is sent reaches the inbox or the staging directory and nothing else |
| StoreEffects.IngestionPossible | video_service/media_store.py:264-310 | an ingestion begins with an accepted manifest under the first free name, and writes its receipt exactly when the original can be opened |
| StoreEffects.ManifestAccepted | video_service/media_store.py:264-282 | exactly which manifests are taken up |
| StoreEffects.IngestionTakes | video_service/media_store.py:283-310 | an ingestion carried through files the payload, empties the inbox and leaves a receipt; a photo then waits for its correction and a video for nothing, and a record whose original is kept stays as it is |
| StoreEffects.DeletionTakes | video_service/media_store.py:382-400 | a deletion removes receipt, original, public file and staged files in this order, and exactly inactive media can be deleted |
| StoreEffects.StopBegins | video_service/media_store.py:213-220 | a stop is remembered before any record of the session is touched |
| StoreEffects.StopOver | video_service/media_store.py:213-220 | and is over only once nothing of the session is active |
| StoreEffects.SilenceTakes | video_service/media_store.py:213-220 | a stopped session's active record gives up and nothing else about it changes |
| StoreEffects.RestartTakes | video_service/media_store.py:78-92 | after a restart an interrupted photo waits again and everything else that was active is given up, photos of failed sessions included |
| StoreEffects.RecordMade | video_service/media_store.py:144-154 | a record made on the ground is active from the start and says nothing of an original |
| StoreEffects.RecordWorkedOn | video_service/media_store.py:101-125 | work on a record labels it as in work or done, and nothing is published that was not staged |
| StoreEffects.RecordingPublished | video_service/media_store.py:174-198 | a finalized recording is put under its name with a real media extension, and its record points at it |
| StoreEffects.PhotoTakenUp | video_service/media_store.py:312-326 | the photo worker takes up photos of sessions that are not stopped, one at a time |
| StoreEffects.PhotoNamed | video_service/media_store.py:340-344 | its public name is chosen while it is in work |
| StoreEffects.PhotoFails | video_service/media_store.py:356-359 | a failure ends the work on it |
| StoreEffects.PhotoPublished | video_service/media_store.py:345-352 | a corrected photo is published under its chosen name exactly unless its session was stopped |
| StoreEffects.MayGo | video_service/media_store.py:411-416 | what may go to make room: nothing active or deleted, and no original within 60 seconds of its arrival |
| StoreEffects.EveryByteCounts | video_service/media_store.py:364-376 | every file among originals, public files, inbox and staging counts with its size |
| Handover.UnlinkedWasDelivered | video_service/media_transfer.py:288-333 | in every run of both sides, an original the aircraft unlinked belongs to a session decided ready, or was acknowledged by a pass that itself, after the record had begun to wait, copied its receipt from the ground; the ground then held the verified original if its ingestions until then had been sound |
| Handover.OriginalCanBeLost | video_service/media_transfer.py:288-333 | a concrete run: such a receipt is copied and the original unlinked although the ground does not hold it |
| Handover.JudgedWasDelivered | video_service/media_transfer.py:288-317 | in every run, every receipt that ever acknowledged a record was copied by the very pass that judged it, not taken from the cache of an earlier one, with the same addition on what the ground held |
| GroundDelivery.FailureIsFinal | video_service/ground_media.py:278-319 | from start-up on, a failed delivery stays failed through notices, timeouts, worker completions and restarts, and no worker publishes another video of its session |
| GroundDelivery.FailureAbsorbs | video_service/ground_media.py:255-264 | the same from any state that meets the invariant, and the failure is persisted whenever the lock is free |
| GroundDelivery.MissionFailureInherited | video_service/ground_media.py:205-213 | a notice leaves its delivery failed if its mission failed before, known session or not, and otherwise only if its calibration cannot be frozen |
| GroundDelivery.ReadyEndsExactlyWhen | video_service/ground_media.py:206-211 | a ready delivery turns failed if and only if a notice of its session finds its mission failed elsewhere, restarts included |
| GroundDelivery.GroundMedia.FailDelivery | video_service/ground_media.py:278-319 | in place, fails exactly the matched deliveries that are not ready, closes their sessions and persists |
| GroundDelivery.GroundMedia.ReceiveNotice | video_service/ground_media.py:189-253 | in place, files a notice, inherits a failure or opens, switches and closes sessions as specified |
| GroundDelivery.GroundMedia.ConcludeDelivery | video_service/ground_media.py:508-576 | in place, changes only pending deliveries, and only as the verdict says |
| GroundDelivery.GroundMedia.PublishVideo | video_service/ground_media.py:472-476 | publishes exactly when the delivery has not failed |
| DeliveryEffects.FailureTakes | video_service/ground_media.py:278-319 | a failure falls on exactly the deliveries of its session or mission that are not ready, stops and closes exactly their sessions, touches nothing else and is written to the catalog |
| DeliveryEffects.TombstoneTakes | video_service/ground_media.py:285-293 | a failure that speaks of nothing known leaves a failed tombstone for the mission it names, and without one does nothing |
| DeliveryEffects.NoticeFiled | video_service/ground_media.py:195-204 | a notice files its delivery: its mission when it names one, its landing once |
| DeliveryEffects.FailedNotice | video_service/ground_media.py:189-215 | a notice of a failed delivery or mission fails its delivery with everything it names |
| DeliveryEffects.StaleNotice | video_service/ground_media.py:222-230 | a notice of a closed session, or of one begun before the open one, opens nothing and closes only itself |
| DeliveryEffects.NoticeOpens | video_service/ground_media.py:222-253 | any other notice joins or begins its session, closes the one it replaces, and ends its own when it says so |
| DeliveryEffects.UncalibratedNotice | video_service/ground_media.py:235-241 | a session whose calibration cannot be frozen fails its delivery at once |
| DeliveryEffects.VerdictTakes | video_service/ground_media.py:508-576 | a verdict reaches a delivery exactly once its session has ended and while it is neither ready nor failed |
| DeliveryEffects.WorkerTakes | video_service/ground_media.py:472-476 | a worker publishes unless its session's delivery has failed, and one that gives up fails it |
| DeliveryEffects.SaveTakes | video_service/ground_media.py:255-264 | the catalog holds exactly the ended, ready and failed deliveries and the names of all closed sessions |
| DeliveryEffects.RestartTakes | video_service/ground_media.py:108-118 | a restart keeps exactly what the catalog holds and stops exactly the sessions of failed deliveries |
| FileTable.PrepareRows | video_service/file_manager_app.py:146-170 | reusing cached rows is invisible, every record keeps its place, and no two rows share a key: rows of one identifier are numbered from 0 in their order |
| FileTable.CarriedOut | video_service/file_manager_app.py:456-463 | carrying a valid edit script out from its last piece to its first turns the old row keys into the new ones |
| FileTable.Table.FilterRecords | video_service/file_manager_app.py:437-479 | the visible rows are exactly those that pass, in the order of the inventory and once each, the rendered cache still agrees with the grid, whatever an earlier fill left undone, and the first batch is filled |
| FileTable.Table.Populate | video_service/file_manager_app.py:481-509 | a batch fills pending rows in their order and keeps cache, grid and queue consistent |
| FileTable.Table.FullRedraw | video_service/file_manager_app.py:437-510 | once nothing is pending every cell shows what a full redraw would |
| FileTable.EditStep | video_service/file_manager_app.py:456-463 | each piece of the script keeps the rows in front untouched and the rows behind in agreement with the cache |
| Thinning.RunCpu | video_service/relay_cpu.py:74-118 | the loop encodes exactly the frames of the slot rule among those it takes, and stops only at the end, a limit, the duration or a timestamp that does not advance |
| Thinning.KeepsExactlyWhen | video_service/relay_cpu.py:91-96 | a frame is kept exactly when its slot is later than the slots of all frames before it |
| Thinning.TicksAndSlots | video_service/relay_cpu.py:81-96 | a timestamp lies within half a tick of 90000 times the seconds since the first frame, and a slot is the last one begun by then, looked at 1/100000 slot early |
| Thinning.KeptFramesAreSound | video_service/relay_cpu.py:74-118 | what is encoded is a subsequence with the source's relative times, strictly increasing timestamps and at most one frame per slot, and misses no frame the rule keeps |
| Thinning.CpuMatchesSelect | video_service/ground_relay.py:94-96 | for every timing the slot rule keeps exactly the frames the select filter does |
| Thinning.FrameStepIsRatio | video_service/ground_relay.py:43-49 | a step is given exactly for integer ratios of at least one |
| Thinning.MatchesFramestepIff | video_service/ground_relay.py:88-96 | for exact source times and an integer ratio k the slot rule keeps exactly every k-th frame if and only if k is below 100000 |
| Thinning.NoTimestampError | video_service/relay_cpu.py:82-85 | at exact times and at most 90000 frames a second the timestamp error never occurs |

## Left out

- Floating-point rounding, degree conversion and the `np.allclose` tolerances: numbers are exact and matching is equality.
- Finiteness checks of numbers in requests and samples, and the covariance rotation: every number is a real.
- ROS plumbing, cameras, detection, PnP, the odometry library and the estimator: their results enter as inputs of the steps.
- Journals, audit logs, messages, displayed texts and the fields that only feed them.
- The age and residual gates `aged`, `max_prior_model_residual_m` and the jump limits of `_evaluate_candidate_apply_locked`: a candidate passing them is an input, so the proofs hold whether they pass or not.
- The identifier of a dry run's later application carries a suffix in the code; the model gives both the same serial, since a dry run never sends under its own.
- Odometry faults reported while a failed start takes its subscriptions down again are not modelled.
- ServiceNode.CorrectionService.OnStart: a job is a record stored in a field, not an object shared with the worker thread; each section reads and writes it under the lock.
- ServiceNode.CorrectionService.FreezeCandidate: the registration result is an input; `Registration.BuildTemporaryWindow` is the method that computes it.
- MediaStore.PathsStayDistinct: `register_processed` is given no `.jpg` file, which is what its callers do; only the photo worker publishes that type.
- MediaArchive.Archive.Cleanup: counts originals, public files, payloads and staged files, but not the bytes of the manifests, and one clock reading serves all its grace tests, where the code reads the clock once per record.
- The session cause "frame ids changed" of `_odom_cb`: by `correction_service/extnav_patch/extnav_to_vision_pose.py:395` a message with other frame ids has already returned before it is considered.
- A payload that is being ingested may be sent again but is not replaced by other bytes between its check and its move, and equal contents are those with equal size and SHA-256.
- Receipts of events, which carry no content, and the rule by which the queue picks its next upload.
- GroundDelivery.FailureIsFinal: speaks of the three workers that publish locally; an upload to the public FTP server that had already begun may still finish.
- The records, uploads and timers from which `_finalize_uploaded_videos` draws its verdict, and the error texts of deliveries.
- Qt selection, scrolling and timers; the edit script is any valid one.
- Encoding, colour handling and process supervision around the thinning rules, and public stream retry.
- Configuration loading, start-up and the lease client of the ground controller.
