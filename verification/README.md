# Models and proofs for the car-park station

A Dafny model of the parts of the station software in which a mistake costs money or stops a lane,
with proofs about every tariff, every stay, every byte stream and every run of the models.
`dafny verify dfyconfig.toml` verifies the whole project.

## What is modelled

**The parking-fee engine** (`FeeTariff`, `FeeEngine`, `FeeTheorems`, `FeeMonotone`, `FeeWholeDay`,
`FeeMixed`, `FeeLater`, `FeeFirstFree`, `FeeOnce`, `FeeMinimum`, `FeeMidnight`, `FeeRounding`, `FeeErrors`, `FeeTables`,
`FeeAllowances`, `FeeLimits`). A cursor walks from entry to payment through the charging zones of each day;
zones charge by blocks or per entry and have minima, maxima, grace, allowances and up to three
first-free periods; days have minima, maxima, cut-offs and a 24-hour mode; the day's tables are reloaded
whenever the cursor passes midnight. `FeeTariff` defines one pass of the loop and the whole walk as
functions; `FeeEngine` is the nested loops themselves, proved to compute that walk and to end. The other
modules prove what the walk means: closed forms, bounds on both sides, that a stay splits at midnight, why a
calculation fails, how the result is rounded, that a later payment never costs less under the tariffs of
`FeeMonotone.PlainWeek`, and when it does cost less under others. Money is a real number without rounding errors. Times are
whole local minutes: `Calendar.MinutesSuffice` shows that the engine's comparisons of minutes, hours
and days depend on nothing else, for a time zone of whole minutes. The tariff of every calendar day is an
arbitrary function from day number to day tariff, so the results hold for every calendar of day types.

The engine is modelled for tariffs that satisfy `Fits`: at most eight zones a day, lengths that are not negative, and
no single step that carries the cursor past the end of the next day. The engine advances its day by one per pass,
so a longer step would charge by the zones of the wrong day; `Fits` is the condition under which
the cursor and the loaded day agree.

**The EEP session** (`EepModel`, `EepClient`, `EepInvariants`, `EepTheorems`, `EepRequests`, `EepExchange`,
`EepEnds`, `EepWatchdog`, `EepLink`). The client's five states,
its transition table, the first-in first-out queue of posted callbacks, seven timers, the priority
command queue, sequence numbers, watchdog counting, reconnecting and shutdown. A timer that has expired
may be cancelled too late: `Expire` posts its callback, and cancelling only disarms timers that have not expired. Whether the
client is connected and whether a packet can be built are free inputs of every callback. `EepClient` has
one method for each callback, proved to take exactly the model's step. `EepInvariants` and `EepTheorems`
prove safety of every reachable state, and progress: no reachable state is stuck. `EepRequests` says which request
an answer is awaited for, `EepExchange` and `EepEnds` follow whole exchanges, the first command of a connection,
a lost connection and a closed session, and `EepLink` puts the TCP link under the session and decides which
established connections the session uses.

**The EEP frame** (`FrameChecksum`). The 16-byte header, the body and the additive 32-bit checksum, built
and opened again.

**The antenna's serial link** (`AntennaLink`, `AntennaAttempts`, `AntennaErrors`, `AntennaDevice`, `Crc16`). Byte stuffing,
the six-state receiver, the 16-bit check, what damage does to a frame and the attempts of a command, as functions and as the methods that change the receive
and transmit buffers.

**CRC-32** (`Crc32`), with the theory both checks share in `LinearRegister`: a shift register whose step
is linear, fed bit by bit or byte by byte. The 256-entry table is proved entry by entry to be the
reflected division by 0xEDB88320 of section 8 of RFC 1952.

**Calendar arithmetic** (`Calendar`). Day numbers, their inverse and the weekday, over unbounded years.

**Store and forward** (`StoreForward`). Entry transactions in the central and the local table, as a machine of
single database statements any of which may fail, or report a failure and take effect all the same.

## Where the code differs from what one would expect

- A central insert that fails once the connection stands is not followed by a local one; the caller
  is told, and the transaction is in neither table.
- The local delete looks for IU number and time only. Two offline transactions that share them and
  differ otherwise lose one when the second upload fails; `StoreForward.SafeExactlyWhenKeysTellApart` gives
  the exact condition.
- An upload that takes effect without being reported, or whose local delete fails, is sent again by the next pass, so
  a transaction can be central twice (`StoreForward.TwiceCentral`).
- The local insert does not store the VCC and the upload does not send the entry LPN id, so an uploaded row
  has lost both (`StoreForward.AcceptedIsHeld`).
- When 24-hour days are mixed with other days, blocks already charged count only if the calculation ends
  on a 24-hour day (`FeeMixed.BlocksCount`), so a stay can become cheaper by running on
  (`FeeMixed.LongerCostsLessExactly` says when, `FeeLimits.MixedDaysCanCostLess` gives a case).
- A first period dearer than its zone's maximum is cut down only by a longer stay
  (`FeeFirstFree.FirstFreeFallsExactly` says when, `FeeLimits.FirstFreeCanCostLess` gives a case).
- An allowance in a zone with a maximum and no cut-off can make a longer stay cheaper
  (`FeeAllowances.AllowanceCanCostLess`). So can the site's allowance for running on into a per-entry zone, but only for
  stays on either side of it (`FeeLater.LaterNeverCheaper`, `FeeAllowances.CarryingOnCanCostLess`).
- Dialling that outlives the connect timer goes on, and dialling again does nothing meanwhile. Its connection
  is used if it stands while the session is CONNECTING again; if it stands when the session is back in IDLE with
  no new attempt on its way, or when a failure of the attempt is still to be handled, it is never used, and the
  session goes on trying in vain until the link breaks (`EepLink.UsedExactlyInTime`, `EepLink.TooLateIsNeverUsed`,
  `EepLink.InTimeExactly`).
- A request whose packet cannot be built becomes the request awaited, although an earlier number may still be
  awaited (`EepRequests.LatestIsAwaited`); its send timer stays armed (`EepExchange.NotBuilt`).
- The loop's own exit test on the day can never succeed (`FeeEngine.ExitNeverFires`).
- The antenna's two check bytes are not stuffed, so a frame whose check ends in an unpaired DLE can leave the
  receiver out of step for the next frame of the same read (`AntennaAttempts.NextAfterStrayDle`); the antenna's
  acknowledgement of sequence number 247 is such a frame (`AntennaLink.AckIsUnpaired`). Every attempt
  of a command resets the receiver first, so nothing is carried over to the next attempt
  (`AntennaAttempts.AttemptIsFresh`).
- The frame checksum does not see bytes exchanged between equal places of two words
  (`FrameChecksum.ExchangeIsDetectedExactly`).
- The comment on the watchdog speaks of more than four missed answers; the code asks for a reconnect on the
  fourth, and the model follows the code.
- Asking the CRC-32 object for its value inverts its register in place.

## Model

| member | source | states |
|---|---|---|
| FeeEngine.CalFee | db.cpp:8811-9510 | for every tariff that fits, the engine ends and returns exactly the fee the walk defines: late payment before entry costs nothing, a started minute counts, errors -2, -3 and -4 come out where the tables are malformed, and the result is rounded by the site's mode |
| FeeEngine.RunLoop | db.cpp:8896-9496 | the loop nest computes the walk from any cursor; at every loop head the loaded tables are those of the cursor's own calendar day, and the minutes to payment decrease |
| FeeEngine.RunPass | db.cpp:9034-9472 | one pass through the body does exactly one step of the walk, whichever of its returns, breaks or ends it takes |
| FeeEngine.LoadDay | db.cpp:8901-9033 | the working tables are yesterday's last zone, today's zones and tomorrow's first boundary, or the error for a missing or endless day |
| FeeEngine.FindMaxZone | db.cpp:8912-8923 | the zone count is the first zone that ends where the first one starts |
| FeeEngine.FindZone | db.cpp:9053-9063 | the chosen zone is the one whose interval contains the cursor |
| FeeEngine.TakeFirstFree | db.cpp:9143-9329 | the nested first-free branches advance cursor, fee and once-only flag as the function does, in every combination of cut-off, zone end and stay end |
| FeeEngine.ChargeBlocks | db.cpp:9332-9359 | the block loop ends and charges the blocks of the zone, with allowance and zone maximum |
| FeeEngine.ExitNeverFires | db.cpp:8898-8900 | the cursor's day is never past the payment day at the loop head |
| FeeTariff.ZoneAt | db.cpp:9053-9063 | zone k is in force: times[k] <= pt < times[k+1], from zone 0 of the night before on |
| FeeTariff.HourRun | db.cpp:9332-9359 | inside a zone the cursor moves on, and stops less than one block past the zone |
| FeeTariff.FirstFree | db.cpp:9143-9329 | the free periods move the cursor on, charge one, two or all three additions, and end the calculation exactly when the stay is over |
| FeeTariff.OnePass | db.cpp:8896-9473 | a pass that goes on has moved the cursor forward by at most one calendar day and keeps the day the day of the cursor; a day's fee is carried over only within the day |
| FeeTheorems.DayCapBound | db.cpp:9451-9486 | with a positive maximum on every day and no 24-hour mode, the charge is at most the number of calendar days touched times the largest day maximum, whichever way the loop ends |
| FeeTheorems.CapWalk | db.cpp:9454-9486 | the same from any cursor, by induction over the passes |
| FeeMinimum.NothingOrTheMinimum | db.cpp:9451-9486 | with a positive minimum on every day, no 24-hour mode and no negative amounts, a fee is nothing or at least the smallest day minimum, whatever zones, periods and allowances the stay meets |
| FeeMinimum.DayMinBound | db.cpp:9451-9486 | where every zone charges, a stay without grace costs at least one day minimum for each midnight it passes, and never less than one |
| FeeMinimum.WalkAtLeast | db.cpp:9454-9486 | the same from any cursor, on top of what is charged already |
| FeeTheorems.OneRateClosedForm | db.cpp:8874-9496 | with one hourly rate round the clock, over any number of days, the fee is nothing within grace and otherwise rate times the blocks begun in the stay rounded up to minutes |
| FeeTheorems.OneRateWalk | db.cpp:9332-9472 | the same from any cursor: what is charged already plus what is still due |
| FeeTheorems.HourRunBlocks | db.cpp:9332-9359 | leaving a zone early or late, the blocks charged and the blocks still due add up to the blocks of the whole stay |
| FeeTheorems.BlocksIsCeiling | db.cpp:9332-9359 | the number of blocks is the quotient rounded up, and one for no minute at all |
| FeeTheorems.TimesIsProduct | db.cpp:9349-9349 | repeated addition of the rate is the product |
| FeeTheorems.StayRoundsUp | db.cpp:8874-8889 | the minutes charged are the seconds parked rounded up to minutes, whatever the seconds of entry and payment |
| FeeMidnight.MidnightSplits | db.cpp:9005-9016 | under a tariff whose days and zones are cut off, the fee of a stay is the sum of the fees of its parts before and after any midnight in it, or the first error |
| FeeMidnight.WalkSplits | db.cpp:9361-9472 | the same from any cursor, by induction over the passes |
| FeeMidnight.WalkBefore | db.cpp:9454-9486 | what has been charged before a cursor is only added to the rest |
| FeeTables.TablesOverlap | db.cpp:8925-9016 | the tables of two consecutive days fit together: the last zone of one begins the other, is followed by the rate type found there, and ends where the next zone starts, or at midnight with a day cut-off |
| FeeErrors.ErrorsExplained | db.cpp:8901-9064 | every failed calculation is explained by a day from the one before entry to the one after payment: -2 by no zones, -4 by zones that never come round, -3 by an unknown rate type or a missing block length |
| FeeErrors.FailsAtOnce | db.cpp:8901-8960 | a day of entry, or a neighbour, without zones or never coming round fails every stay that begins on it |
| FeeRounding.PresentedExactly | db.cpp:9501-9505 | the result is the one whole number of cents to which the site's mode rounds the charge, up, down or to nearest with halves away from zero, in dollars; without a mode it is the charge itself |
| FeeLater.LaterNeverCheaper | db.cpp:8874-9507 | for a fixed entry, a later payment never gives a smaller rounded fee, and if it can be charged so can an earlier one, for every tariff of non-negative amounts without 24-hour days whose first-free additions fit under the zone's maximum and whose hourly allowances come with no maximum or with a cut-off that holds; where cut-off zones run on into per-entry zones, for payments on the same side of the site's allowance for that |
| FeeLater.LaterNeverCheaperByBlocks | db.cpp:9018-9051 | the same where every day is charged in 24-hour blocks at one price |
| FeeLater.RoundItMono | db.cpp:8653-8669 | rounding up, down or to nearest, halves away from zero, keeps the order of fees |
| FeeMonotone.WalkMono | db.cpp:8896-9473 | two walks from one point, with different payment times and the longer charged no less: the shorter never ends dearer |
| FeeMonotone.WalkGrows | db.cpp:9440-9486 | no walk ends below what its cursor has been charged already, day minimum and maximum included |
| FeeMonotone.HourRunLevel | db.cpp:9332-9359 | through one zone, allowance and maximum included, two stays leave at the same point, or the shorter has ended, or both are past the zone's end; under the zone's maximum the longer is charged no less |
| FeeMonotone.FirstFreeLevel | db.cpp:9143-9329 | through the first-free periods, the shorter of two stays ends no later and no dearer, or both go through them alike |
| FeeMonotone.OnePassLevel | db.cpp:8896-9473 | one pass of two stays: they stay level, or the shorter ends with a total no greater |
| FeeWholeDay.BlocksFirst | db.cpp:9035-9051 | while blocks are left and the days they begin on are in 24-hour mode, the loop charges every one of them once before it looks at any zone, whatever the later days are |
| FeeWholeDay.RestOfDay | db.cpp:9489-9496 | what remains after the blocks costs at most one more block |
| FeeWholeDay.WholeDayBound | db.cpp:9018-9051 | with B whole blocks the charge lies between B and B + 1 times the whole-day charge, first-free periods and allowances included |
| FeeWholeDay.RepeatIsProduct | db.cpp:9045-9045 | B block charges are B times the charge |
| FeeMixed.BlocksCount | db.cpp:9489-9496 | in any mix of days, the blocks charged before a cursor are added in full if the calculation ends on a day in 24-hour mode, and not at all otherwise |
| FeeMixed.BlocksAreDropped | db.cpp:9026-9031 | followed only by days that are not in 24-hour mode, the blocks charged make no difference |
| FeeMixed.BlocksThenRest | db.cpp:9018-9051 | a stay that begins with any number of 24-hour days costs their blocks if it ends with them; one that runs on, for however long and whatever days follow, costs the rest, with the blocks or without, by the day on which it ends |
| FeeMixed.RunningOnCostsLess | db.cpp:9489-9496 | a stay that runs on past some blocks costs less than these blocks if and only if it ends on a day that is not in 24-hour mode and the rest alone is cheaper than the blocks |
| FeeMixed.LongerCostsLessExactly | db.cpp:9018-9051 | for entry and payment times, of two stays that begin with the same 24-hour days, one that ends with them and one that runs on for however long and over whatever days, the longer costs less if and only if its calculation ends on a day that is not in 24-hour mode and the rest alone is cheaper |
| FeeMixed.LongerCostsLessInOneMode | db.cpp:9018-9051 | when the days after the blocks are all in one mode, that mode decides |
| FeeFirstFree.FirstFreeFallsExactly | db.cpp:9143-9359 | of two stays from one zone, one ending in its first-free periods and one after them in the same zone, the longer costs no less if and only if the additions the shorter has paid, within the day's limits, come to no more than the zone's maximum; with one, two or three periods |
| FeeFirstFree.NeverFallsExactly | db.cpp:9143-9359 | over all entries and payments, however many days apart, a tariff of one zone round the clock with first-free periods never charges a later payment less if and only if the additions of all the periods in use fit under the zone's maximum |
| FeeFirstFree.PeriodsInside | db.cpp:9143-9329 | periods that end inside the zone: the stay ends in them exactly when it is no longer than they are, at the sum of the additions begun |
| FeeFirstFree.PeriodByPeriod | db.cpp:9143-9329 | the nested branches grant up to three periods one after the other, each with its addition, to the end of the stay, the last period in use, or the end of a zone that is cut off or followed by a per-entry zone |
| FeeOnce.GrantedOnce | db.cpp:9143-9359 | with one zone round the clock and periods granted once, over any number of days, a stay costs the additions of the periods it begins, and past them all additions and every block begun after them |
| FeeOnce.GrantedEachDay | db.cpp:9143-9150 | a site that grants the periods in every zone grants them again on the second day: 120 instead of 210 |
| FeeOnce.MarkedExactly | db.cpp:9143-9329 | periods that do not end the stay are marked as granted if and only if they were before, or the site grants them once and they have reached the end of the zone or all three are in use |
| FeeAllowances.AllowanceCanCostLess | db.cpp:9338-9355 | a tariff whose fee falls from 7 to 5 by parking 5 minutes longer, by the allowance of a zone with a maximum and no cut-off |
| FeeAllowances.CarryingOnCanCostLess | db.cpp:9361-9379 | a tariff whose fee falls from 15 to 5 by parking 5 minutes longer, by the allowance for running on into a per-entry zone |
| FeeAllowances.CarryingFallsOnlyAcross | db.cpp:9361-9379 | for every entry and every two payments, that fee falls only from within the 400 minutes of the allowance to beyond them |
| FeeLimits.MixedDaysCanCostLess | db.cpp:9018-9031 | a tariff and a stay whose fee falls from 1000 to 100 by parking one minute longer |
| FeeLimits.FirstFreeCanCostLess | db.cpp:9143-9166 | a tariff and a stay whose fee falls from 500 to 300 by parking an hour longer |
| EepTheorems.NoWedge | eep_client.cpp:3580-3694 | in every reachable state before shutdown, the state has an armed or fired timer of its own or a posted event its table row accepts, and CONNECTED with waiting commands has a queue check or WRITE_COMMAND on its way |
| EepLink.UsedExactlyInTime | eep_client.cpp:4291-4313 | a connection that stands while the session is IDLE or CONNECTING takes it to CONNECTED if and only if the callbacks then waiting, and the events they post, leave it CONNECTING; if not, the connection is missed; whatever else happens meanwhile except a break of the link |
| EepLink.TooLateIsNeverUsed | tcp_client.cpp:71-76 | a connection that does not stand in time is not used at any moment of any run until the link breaks |
| EepLink.InTimeExactly | eep_client.cpp:4514-4541 | in a reachable session: CONNECTING is in time if and only if no expired connect timer, failed dialling or CONNECT_FAIL waits; IDLE without such is in time if and only if a CONNECT or an expired reconnect timer waits, that is, if and only if the reconnect timer is not armed |
| EepLink.ReachableInv | eep_client.cpp:3099-3134 | a session over a link keeps the invariants of every session |
| EepLink.MissedUntilBroken | tcp_client.cpp:71-76 | a connection that the session was told of too late is not used in any run until the link breaks |
| EepLink.LateConnectionIsMissed | eep_client.cpp:4291-4313 | a run with an expired connect timer in which a connection is missed |
| EepLink.ReconnectDialsAgain | eep_client.cpp:4652-4682 | a connected session asked to reconnect closes its link, waits for its timer and dials again |
| EepLink.LaterConnectionIsUsed | eep_client.cpp:4291-4313 | a run with an expired connect timer in which the same dialling is used after the next attempt has begun |
| EepTheorems.ReachableStatesProgress | eep_client.cpp:4276-4434 | from every reachable state with something to do, at most one expiry of a timer of that state and two rounds of the posted callbacks lead to an event its state accepts, even if the network never answers |
| EepTheorems.SingleReconnectToken | eep_client.cpp:4249-4273 | IDLE always has exactly one of: reconnect timer armed, reconnect timer fired, CONNECT posted; every other state has none |
| EepTheorems.AnswersMatchRequests | eep_client.cpp:2914-2953 | over all runs, the awaited number is one behind the counter modulo 65536 and belongs to the latest request built; every accepted answer carries its request's number; no request is answered twice |
| EepTheorems.OnlyLatestIsAnswered | eep_client.cpp:2914-2950 | a received message is accepted only for the latest request, only once and only with its number |
| EepRequests.LatestIsAwaited | eep_client.cpp:3718-3756 | in every reachable state the request awaited is the latest taken from the queue that is no reply, and an awaited number is that of the latest request whose packet could be built |
| EepRequests.AwaitedBelongTogether | eep_client.cpp:3718-3756 | so where the latest request was built, the awaited request and number are its own |
| EepRequests.NumbersCountRequests | eep_client.cpp:3795-3803 | in every reachable state the counter is the number of requests built, modulo 65536 |
| EepRequests.AnswerIsForTheRequest | eep_client.cpp:2914-2953 | once a request has been sent, a message is accepted if and only if it carries its number and its code answers it |
| EepRequests.NothingIsAccepted | eep_client.cpp:2914-2953 | from a state that awaits nothing no run accepts a message before another request is built |
| EepRequests.GivenUpIsNotAnswered | eep_client.cpp:4599-4682 | so a request given up by a timeout or a reconnect is not answered any more |
| EepExchange.AnswersTellRequestsApart | eep_client.cpp:2654-2738 | no message answers two different requests |
| EepExchange.AnswersExactly | eep_client.cpp:2654-2738 | every request is refused by its own name only, acknowledged by its own name only unless it has an answer of its own, and which code that is |
| EepExchange.OthersAreReplied | eep_client.cpp:2971-3038 | a message that answers nothing is acknowledged if it is a notification and refused otherwise, and completes the request in progress if and only if it is its notification |
| EepExchange.StaleIsIgnored | eep_client.cpp:2916-2930 | an answer with another number changes nothing, and a rejected frame is refused if it has a header |
| EepExchange.RequestGoesOut | eep_client.cpp:3718-3756 | three callbacks take a session with a waiting request to its acknowledgement timer, with the whole state in between accounted for |
| EepExchange.AnswerInTime | eep_client.cpp:2914-2968 | an answer in time leaves the session ready with nothing awaited, and an acknowledgement of a request completed by a notification arms the response timer instead |
| EepExchange.RequestAnswered | eep_client.cpp:4543-4650 | a request answered directly or refused, from its dispatch to readiness: the whole resulting state |
| EepExchange.NotificationInTime | eep_client.cpp:2971-3022 | the notification a request waits for completes it and is acknowledged |
| EepExchange.AnswerTooLate | eep_client.cpp:4616-4640 | a request not acknowledged or not completed in time fails once, is awaited no more, and the session is ready; a broken connection is noticed |
| EepExchange.SentTooLate | eep_client.cpp:4580-4610 | the same for a packet not written in time |
| EepExchange.NotBuilt | eep_client.cpp:3743-3751 | a request whose packet cannot be built takes no number and fails once |
| EepExchange.RejectedFails | eep_client.cpp:3674-3679 | a command given without a connection, or reported as failed, fails once and changes nothing else |
| EepExchange.ReplyGoesOut | eep_client.cpp:4566-4610 | an ACK or NAK goes out and leaves request, number and counter as they were |
| EepExchange.LooksAtQueue | eep_client.cpp:4543-4560 | a look at the queue asks to write, to reconnect or for nothing, and is followed by another |
| EepExchange.AlwaysTicking | eep_client.cpp:4435-4520 | in every reachable state with a connection the watchdog and the health check are armed or have just expired |
| EepEnds.StartsWithStart | eep_client.cpp:4524-4541 | the first command of a connection is START_REQ with number 0, ahead of watchdog and health check |
| EepEnds.LossIsNoticed | eep_client.cpp:2841-2857 | a failed read takes the session to IDLE within two rounds of its callbacks, whatever it was doing |
| EepEnds.CloseIsFinal | eep_client.cpp:842-895 | after closing, the callbacks already posted pass without effect, no command fails, and nothing waits or is armed |
| EepEnds.ClosedForEver | eep_client.cpp:842-895 | and nothing is sent or accepted in any run from there |
| EepTheorems.RepliesLeaveTheSession | eep_client.cpp:3718-3756 | sending an ACK or NAK changes neither the counter, nor the awaited number, nor the request awaited |
| EepTheorems.CommandsAreConserved | eep_client.cpp:3658-3773 | over any run the commands given equal, as a multiset, those rejected, waiting, dispatched, failed by a queue clear and discarded at shutdown |
| EepTheorems.ReconnectStartsAfresh | eep_client.cpp:4652-4682 | a reconnect leaves no command waiting, no answer awaited and no session timer armed, and fails every waiting command |
| EepTheorems.MostUrgentFirst | eep_client.h:553-577 | the command sent next has a smaller priority number than every other waiting one, or the same and came earlier |
| EepTheorems.FirstInFirstOut | eep_client.cpp:3580-3643 | callbacks leave the queue in the order in which they were posted, whatever each of them posts |
| EepTheorems.TwoRounds | eep_client.cpp:3580-3656 | a callback the state reacts to is followed within two rounds by an accepted event |
| EepWatchdog.EveryFourthReconnects | eep_client.cpp:4730-4740 | every fourth watchdog request in a row that fails asks for a reconnect once, and no failure does anything else |
| EepWatchdog.MissedBelowLimit | eep_client.cpp:4652-4752 | in every reachable state fewer than four failures are on the count, queue clears and reconnects included |
| EepWatchdog.ReconnectCounts | eep_client.cpp:4652-4752 | a reconnect counts exactly the watchdog requests it fails, waiting or under way, modulo four, and asks for another reconnect for every fourth |
| EepWatchdog.AnswerResets | eep_client.cpp:2066-2080 | the count starts again on an accepted watchdog answer and on no other message |
| EepInvariants.NextInv | eep_client.cpp:3099-3134 | every step of the client, the timers, the network or a closing thread keeps all the invariants |
| EepInvariants.RunInv | eep_client.cpp:89-247 | they hold after every run from initialisation |
| EepInvariants.AcceptedLive | eep_client.cpp:3580-3643 | every accepted event makes the session live, whatever it was before |
| EepInvariants.DeliveredToken | eep_client.cpp:4249-4273 | every callback keeps the count of connection attempts |
| EepInvariants.NumberStepCorrelated | eep_client.cpp:3795-3803 | sending, accepting and leaving alone each keep requests and answers matched, through the wrap of the counter |
| EepInvariants.BookStepConserved | eep_client.cpp:3658-3773 | arrival, departure and clearing each keep the balance of commands and their numbering |
| EepInvariants.ClearedEffect | eep_client.cpp:3758-3773 | the clearing loop fails exactly the waiting commands, and otherwise only posts and counts missed watchdogs |
| EepClient.Client.RunOne | eep_client.cpp:3580-3643 | handling one callback takes exactly the model's step and keeps the invariants |
| EepClient.Client.ProcessEvent | eep_client.cpp:3580-3643 | an event is looked up in the state's row, handled before the state changes, and a queue check is posted on reaching CONNECTED |
| EepClient.Client.EnqueueCommand | eep_client.cpp:3658-3694 | a command is queued and the queue checked when connected, and failed at once otherwise |
| EepClient.Client.PopTop | eep_client.cpp:3718-3728 | the most urgent, then oldest, command leaves the queue and the others stay in order |
| EepClient.Client.PrepareCmd | eep_client.cpp:3886-4247 | a built request takes the counter's number as awaited and moves the counter; a reply does not; a failed build posts a write timeout |
| EepClient.Client.ClearCommandQueue | eep_client.cpp:3758-3773 | the commands fail in order of urgency until none is left |
| EepClient.Client.HandleReceivedData | eep_client.cpp:2841-3048 | failed reads, rejected frames, answers, notifications and unknown messages each change the session as the model says |
| EepClient.Client.BeginReconnect | eep_client.cpp:4652-4682 | timers are cancelled, the awaited answer and the queue dropped and the reconnect timer armed |
| EepClient.Client.HandleCommandErrorOrTimeout | eep_client.cpp:4684-4752 | the fourth missed watchdog in a row resets the count and asks for a reconnect |
| FrameChecksum.CalculateNoPadding | eep_client.cpp:3859-3884 | the word loop and the leftover loop compute the weighted byte sum modulo 2^32, for every length |
| FrameChecksum.IsValid | eep_client.cpp:964-982 | true exactly for frames of at least four bytes whose last four are the little-endian sum of the rest |
| FrameChecksum.Packet.Prepare | eep_client.cpp:3886-4235 | a request is header, payload and checksum, and the receiver's own test accepts it |
| FrameChecksum.SealedIsValid | eep_client.cpp:4231-4235 | every message with its checksum appended passes, lengths not divisible by four included |
| FrameChecksum.ValidIsSealed | eep_client.cpp:964-982 | each message has only one valid trailer |
| FrameChecksum.PreparedOpens | eep_client.cpp:984-1011 | opening a prepared frame gives back its header and as much payload as the header claims; one that claims more than was sent is refused |
| FrameChecksum.OpensExactlyPrepared | eep_client.cpp:2859-2890 | bytes open as a header and a body if and only if they are that header, that body of the claimed length, perhaps more, and their checksum |
| FrameChecksum.RefusedExactly | eep_client.cpp:2859-2890 | bytes are refused for their checksum if and only if they are no sealed message, and for their length if and only if the message sealed is shorter than its header claims |
| FrameChecksum.DamagedIsRefused | eep_client.cpp:2859-2871 | a prepared frame with any one byte changed, in header, payload or checksum, is refused for its checksum |
| FrameChecksum.HeaderPlaces | eep_client.cpp:3818-3850 | the places of the header's fields in the frame, two-byte fields low byte first |
| FrameChecksum.OneByteIsDetected | eep_client.cpp:964-982 | changing any one byte of a valid frame, body or checksum, makes it invalid |
| FrameChecksum.ExchangeIsDetectedExactly | eep_client.cpp:3859-3884 | exchanging two body bytes goes unseen if and only if they are equal or stand at the same place of their words |
| AntennaLink.FrameRoundTrip | antenna.cpp:1004-1121 | from IGNORE, or from RECEIVING with any garbage, a frame returns 0 on every byte but the last and then the payload length plus one, with the payload and ETX in the buffer |
| AntennaLink.TakenExactlyInStep | antenna.cpp:1004-1121 | a frame is taken so if and only if the receiver is in one of those two states as it begins |
| AntennaLink.InStepAfterExactly | antenna.cpp:1012-1060 | a frame leaves every receiver in step, whatever it was doing, if and only if its check does not end in an unpaired DLE |
| AntennaLink.BackInStep | antenna.cpp:1012-1060 | so the frame after such a frame is taken, from any state |
| AntennaErrors.TakenExactlyWithItsCheck | antenna.cpp:1062-1090 | in step, a frame with any two check bytes is taken if and only if they are the check of its payload; otherwise nothing is returned and the receiver is reset |
| AntennaErrors.BurstIsDropped | antenna.cpp:1062-1090 | a frame whose payload is hit by a burst of at most sixteen bits is dropped, wherever the burst lies |
| AntennaErrors.AdjacentBytesAreDropped | antenna.cpp:1062-1090 | so is one whose payload is wrong in at most two adjacent bytes |
| AntennaErrors.DamagedIsDropped | antenna.cpp:1062-1090 | so is every frame with a wrong check, or with a payload of another check |
| AntennaErrors.NoDamagedResponse | antenna.cpp:531-614 | an attempt that reads such a frame in step, and nothing after it, gets no response, however it is cut |
| AntennaErrors.ResponseIsAFrame | antenna.cpp:531-614 | whatever noise, damage and fragments are read, a response is the payload and ETX of a whole frame, with its right check, that stands in what was read |
| AntennaErrors.CommandAnswersWithAFrame | antenna.cpp:488-528 | so is the response of a command, in what one of its attempts has read |
| AntennaErrors.NothingKept | antenna.cpp:1004-1060 | before a response is complete, a receiver that looks for a start holds nothing |
| AntennaLink.AckIsUnpaired | antenna.cpp:668-704 | the response 3281 to sequence number 247 has the check 0x10F7, which ends in an unpaired DLE |
| AntennaLink.NeverInStep | antenna.cpp:1012-1024 | within one read, a receiver that waits for a start byte takes none of any number of frames with such a check |
| AntennaAttempts.AttemptIsFresh | antenna.cpp:488-517 | what an attempt comes to is the same whatever the receiver was doing before it |
| AntennaAttempts.FirstResponseWins | antenna.cpp:488-528 | a command comes to the first of its attempts that gets a response on its own, and without one to the failure of the last |
| AntennaAttempts.FailureTells | antenna.cpp:496-511 | a command without a response reports whether its last request could be sent |
| AntennaAttempts.FailureLeavesNothing | antenna.cpp:596-600 | after a command that fails the receiver is as good as new |
| AntennaAttempts.AnswersExactlyInStep | antenna.cpp:531-614 | after bytes that complete nothing, however cut, an attempt takes a response with its last byte and not before if and only if those bytes leave the receiver in step |
| AntennaAttempts.CleanAttempt | antenna.cpp:493-503 | a response with nothing before it in its attempt is always taken |
| AntennaAttempts.CommandGetsThrough | antenna.cpp:488-528 | so a command gets the response of its first clean attempt if no earlier one got any |
| AntennaAttempts.NextAfterStrayDle | antenna.cpp:1012-1060 | a stray DLE costs an attempt the frame after it, and the frame after that is taken if and only if the check of the first is paired |
| AntennaAttempts.StrayDleLosesRepetitions | antenna.cpp:1012-1060 | an attempt that reads a stray DLE and then any number of frames with an unpaired check gets no response |
| AntennaLink.ChunksDoNotMatter | antenna.cpp:622-643 | cutting the input into read chunks in any way gives the same result |
| AntennaLink.ChunkedFrameIsRead | antenna.cpp:622-643 | a frame cut into any chunks completes the response with its message |
| AntennaDevice.Antenna.ReceiveRxDataByte | antenna.cpp:1092-1121 | one byte changes buffer, count and state exactly as the receiver function says, given room if the byte is stored |
| AntennaDevice.Antenna.ResponseIsComplete | antenna.cpp:622-643 | a chunk is fed byte by byte until a response is complete, given room for the bytes that are stored before that |
| AntennaDevice.Antenna.ReadWithTimeout | antenna.cpp:531-614 | chunks are read until a response is complete, which is returned; otherwise the receiver is reset |
| AntennaDevice.Antenna.SendCommand | antenna.cpp:484-528 | the retry loop comes to what the attempts define, each with the receiver reset before it |
| AntennaDevice.ShortChunkHasRoom | antenna.cpp:622-643 | a chunk no longer than the free space always has room |
| AntennaDevice.ShortReadHasRoom | antenna.cpp:531-614 | so has a read of no more bytes than the free space, in however many chunks |
| AntennaDevice.Antenna.BuildFrame | antenna.cpp:1150-1211 | the transmit buffer holds exactly the frame of the payload if it fits, and the send is refused otherwise |
| AntennaDevice.StuffGrows | antenna.cpp:1160-1190 | stuffing a longer prefix never takes fewer bytes |
| Crc16.Calculate | antenna.cpp:1123-1148 | the double loop is the bit-serial register, with the final inversion |
| Crc16.BurstsAreDetected | antenna.cpp:1123-1148 | every burst of at most sixteen wrong bits changes the check |
| Crc16.AdjacentBytesAreDetected | antenna.cpp:1123-1148 | strings of equal length that differ only within two adjacent bytes never have the same check |
| Crc32.TableIsDivision | crc.cpp:3-37 | every one of the 256 entries is eight steps of the reflected division |
| Crc32.RoundIsDivision | crc.cpp:60-67 | one table lookup and shift is the bit-serial division of one byte |
| Crc32.Crc.Update | crc.cpp:60-67 | the register is the bit-by-bit remainder of everything fed so far |
| Crc32.Crc.Value | crc.cpp:54-58 | the value is the inverted register, which stays inverted |
| Crc32.UpdatesJoin | crc.cpp:60-67 | updating with two pieces is updating with both joined |
| Crc32.BurstsAreDetected | crc.cpp:60-67 | every burst of at most thirty-two wrong bits changes the value |
| LinearRegister.BytesAreBits | crc.cpp:60-67 | feeding bytes is feeding their bits, lowest first |
| LinearRegister.BurstDetected | antenna.cpp:1123-1148 | any linear register whose step is injective detects every burst no longer than itself |
| Calendar.DateRoundTrip | ce_time.cpp:77-93 | the date of a valid date's day number is that date |
| Calendar.NumberRoundTrip | ce_time.cpp:77-93 | the day number of a day number's date is that number, and the date is valid |
| Calendar.NextDayNextNumber | ce_time.cpp:27-38 | the next civil date has the next day number, over month ends and leap years |
| Calendar.MomentRoundTrip | ce_time.cpp:77-101 | date and time of day survive both conversions, on exact numbers |
| Calendar.KnownDays | ce_time.cpp:77-93 | the day number of 1 January 2000 is 2451545 and that of 1 January 1970 is 2440588, both ways |
| Calendar.WeekdayAgrees | ce_time.cpp:504-523 | the weekday by Zeller's rule and the lookup table is the day number modulo 7, plus 1 |
| Calendar.MinutesSuffice | ce_time.cpp:477-502 | the differences in minutes, hours and days depend on local minutes only |
| StoreForward.AcceptedIsHeld | db.cpp:391-645 | in every run, whatever fails, a transaction whose insert reported success is in the central or local table after every later step, with its key and all its details, if keys tell transactions apart; by way of the local table it loses its VCC, and by the upload its entry LPN id |
| StoreForward.CentralIsComplete | db.cpp:391-645 | one that went straight to the central table stays there with all its columns |
| StoreForward.ReportsTell | db.cpp:391-645 | what each report says of the two tables and of the offline count, and that a reported failure may have taken effect |
| StoreForward.SafeExactlyWhenKeysTellApart | db.cpp:7002-7112 | a family of transactions is never lost if and only if those with one IU number and time agree in all their details |
| StoreForward.SharedKeyLoses | db.cpp:6671-6716 | the run that loses one of two transactions with one key |
| StoreForward.DeletedOnlyOnceCentral | db.cpp:6697-6706 | a local row disappears only in a delete that follows a successful central insert of that key, and then, if keys tell transactions apart, a row with its key and details is central |
| StoreForward.ExactlyOnce | db.cpp:6671-6716 | with true reports and working deletes, whatever inserts fail, a key accepted once has exactly one row in the two tables and a key never accepted has none |
| StoreForward.TwiceCentral | db.cpp:6671-6716 | with an unreported upload, or a delete that fails, a transaction accepted once ends up central twice |
| StoreForward.CleanPassMovesEverything | db.cpp:6655-6776 | an upload pass without failures empties the local table into the central one, in order, shared keys or not |
| StoreForward.RunSound | db.cpp:6671-6716 | every row in either table is one of the transactions given, and a row waiting for its delete is central |
| StoreForward.Database.InsertEntry | db.cpp:391-645 | an insert goes to the central table, or to the local one when there is no connection; its report and both tables are as stated |
| StoreForward.Database.MoveRows | db.cpp:6671-6776 | the upload loop takes exactly the steps of its rows, goes on after a failed insert, deletes after a successful one and stops at an unreadable row |
| StoreForward.Database.MoveOffline | db.cpp:6499-6787 | a pass does nothing when the local select fails, and otherwise uploads the rows selected |
| StoreForward.Database.DeleteLocalTrans | db.cpp:7002-7112 | a row is in the local table afterwards if and only if it was before and the statement did not take effect or looks for another key; every other key keeps its number of rows |

## Left out

- FeeEngine.CalFee: tariffs outside `Fits`, in which one step passes the end of the next day, are not modelled, nor is a ninth zone, which the engine would write past its tables.
- FeeEngine.CalFee: the motorcycle-per-day rule is taken as off, since it asks a database whether a fee was paid before.
- FeeLater.LaterNeverCheaper: an hourly allowance in a zone that has a maximum and no cut-off that holds is excluded, because of a falling case that is shown; for a single tariff of this kind no condition is given that decides whether its fee falls. Payments on either side of the allowance for running on are excluded in the same way.
- FeeLater.LaterNeverCheaperByBlocks: weeks that mix 24-hour days with others are excluded; `FeeMixed` decides when the fee falls there past the 24-hour days a stay begins with.
- Calendar.MomentRoundTrip: uses exact numbers; rounding of doubles and the millisecond added by u2j are not modelled.
- AntennaDevice.Antenna.ReceiveRxDataByte: a byte to be stored when the 128-byte buffer is full is excluded by a precondition.
- AntennaDevice.Antenna.SendCommand: whether a request could be sent and what was read before the time was over are given; the contents of a response are not interpreted, and closing the port between attempts is not modelled.
- AntennaLink.FrameRoundTrip: the receiver function has no bound on what it collects; the 128-byte buffer and its precondition are in the device class.
- StoreForward.Database.InsertEntry: the choice of the plate number and the repair of the serial number happen before the insert and are taken as given; a missing VCC column reads back as an empty one.
- StoreForward.Database.MoveOffline: entry transactions only; exit transactions go the same way with a second table of movements.
- EepClient.Client.HandleReceivedData: decoding of message fields is reduced to the code, the sequence number and the first body byte; running out of memory while decoding is not modelled.
- EepLink.UsedExactlyInTime: a connection that stands while the announcement of an earlier, broken one still waits is excluded; so is closing the client.
- EepLink.MissedUntilBroken: the dialler's and the session's callbacks are taken to follow each other without the delay of a post between them.
- EepModel.Start: a client that is closed and initialised again is not modelled.
- Loading and indexing of tariffs, holidays and day types: the day tariff is an arbitrary function of the day.
- The splitting of a stay between two tariff types, the download and load functions of the database, housekeeping and broadcasts.
- Sockets, threads, strands and timer errors other than cancellation; SQL text; logging; files; the serial port.
- Local time and time-zone conversion by the operating system, and instants before 1970.
- The CHU client, DIO events, barcode keys, printing and field formatting: each is simple, or depends on code outside this repository.
