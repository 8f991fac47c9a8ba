# desent: a verified model of the server's stateful core

desent is a self-hosted live-streaming server. It takes one RTMP stream, has FFmpeg encode it into several qualities,
serves the HLS segments from a memory cache over the disk, runs a chat beside the stream, keeps the recorded chat of
past streams, lets an administrator choose what is encoded, and updates its own containers. This project models the
parts of it whose correctness depends on state, order or failure, and proves what they promise over every input and
every run.

Three ways of stating things recur. Code that changes state is a class or a method with the source's loops, proved
against a function or predicate on values. What the code promises over time is proved about those functions, by
lemmas over sequences of events. Where the source runs concurrently, a state machine has one step for each critical
section, channel operation or system call, and the lemmas hold over every interleaving of the steps.

| file | models | main results |
|---|---|---|
| `SegmentCache.dfy`, `CacheCoherence.dfy` | the HLS segment cache: loads split into read, stat and commit, space eviction, purge, and the disk and watcher it follows | a viewer is served something else than the disk holds only while an event for that path is queued or its load is under way; a drained cache is exactly the disk; exactly when a deleted file can come back; eviction is oldest first and minimal |
| `ChatHub.dfy`, `HubCases.dfy`, `HubDelivery.dfy`, `BroadcastSteps.dfy`, `HubSessions.dfy` | the chat hub's event loop over bounded channels | every client gets a gap-free stretch of one total order; no send on a closed channel; a ban disconnects exactly the clients that registered as the user; the viewer count is off by exactly the clients dropped for a full buffer; sessions are the maximal runs of live ticks exactly when no tick that matters failed |
| `UpdateFlow.dfy`, `Updater.dfy` | racing updates and their progress broadcasts under two mutexes | one update at a time, its flag always released, no send on a closed channel, subscribers are told the current progress, and exactly when the last value one is sent is an older one; "failed" ends a run exactly if some call failed |
| `Recreate.dfy` | replacing a container through a daemon any of whose calls may fail, or succeed with the answer lost | success exactly when no call fails; one clean failure leaves the old container or is rolled back; nothing else is touched |
| `ChatHistory.dfy`, `Paging.dfy`, `PageBoundaries.dfy` | chat history pages and the page component that stitches them | loading to the end shows exactly the session's messages for every page size, if and only if times follow ids; and for one page size, if and only if ids tell newer from older at its page boundaries |
| `RateLimiter.dfy`, `Pacing.dfy` | the request limiter and the chat pacing | tight counting bounds over whole runs; the limiter is a sliding window exactly for limit 1; sweeping changes no decision |
| `Text.dfy`, `Quality.dfy` | the presets and the text form of the frame-rate overrides | the round trip holds exactly for tables free of the separators; writing after reading is a normal form |
| `Manager.dfy`, `FFmpegArgs.dfy` | the ingest manager's settings and the encoder's command line | the reported frame rate is the encoded one, from every reachable state |
| `Settings.dfy` | updating, storing and reloading those settings | a restart changes nothing, after any sequence of updates; exactly when a half-written update breaks that, and what repairs it |
| `Emotes.dfy` | drawing emotes in a chat message | lossless; exactly which codes are drawn |

Where the code and its comments disagree the model follows the code. `internal/auth/ratelimit.go:11` speaks of a
sliding window, but the code keeps a fixed window opened by the first request; `RateLimit.SlidingExactlyForLimitOne`
says what is left of the promise. `internal/ingest/quality.go:77` says that only HD qualities are overridden, but
`ApplyFPSOverrides` does not look at the height; `Ingest.EncodedAsReported` rests on the manager's invariant instead.
`internal/hls/cleaner.go:30` means deletion at the end of a stream to stop stale segments from being served;
`CacheCoherence.DeletedStaysGoneUnlessLoading` says exactly when it does not, and `CacheCoherence.PurgeOvertaken` gives
a run in which it does not. `internal/update/updater.go` publishes "restarting" before the helper that restarts the
server exists, so "failed" can still follow it; `Updates.RestartingBeforeFailed` says exactly when.

Times are integers on a clock that does not go back. Results of calls into the database, Docker, GitHub and the host
are parameters, or left to chance where every outcome is to be covered. Go's map iteration order is left to chance
too.

## Model

| member | source | states |
|---|---|---|
| RateLimit.RateLimiter.Allow | internal/auth/ratelimit.go:34-46 | a request is granted when it opens a window or its count is within the limit, and the table changes for that IP alone |
| RateLimit.RateLimiter.Sweep | internal/auth/ratelimit.go:57-64 | a sweep removes exactly the windows that have ended, in whatever order the map is ranged over |
| RateLimit.WindowInvariant | internal/auth/ratelimit.go:34-67 | what is known of one IP after any run: its latest window, how much of it is used, and what an interval reaching the window before can hold |
| RateLimit.IntervalBound | internal/auth/ratelimit.go:34-46 | over every run, an IP is granted at most 2*max(1, limit) - 1 requests in any closed interval as long as the window |
| RateLimit.StraddleAttainsBound | internal/auth/ratelimit.go:34-46 | that bound is attained, for every limit, by requests on both sides of a window's end |
| RateLimit.WindowPersists | internal/auth/ratelimit.go:39-64 | a window outlives every request and sweep up to and including its end |
| RateLimit.PerWindowBound | internal/auth/ratelimit.go:34-46 | every window opened in a run grants at most max(1, limit) requests |
| RateLimit.DeniedOnlyWhenSpent | internal/auth/ratelimit.go:34-46 | over every run, a request is denied only while its IP's window is live and has granted max(1, limit) requests |
| RateLimit.SlidingExactlyForLimitOne | internal/auth/ratelimit.go:11-46 | the sliding window its comment promises is kept if and only if the limit is one |
| RateLimit.SweepsSimulated | internal/auth/ratelimit.go:49-67 | sweeps put anywhere in a run change no decision |
| Pacing.Client.ReadPump | internal/chat/client.go:42-112 | the reading loop broadcasts exactly the accepted chat frames, cut to length, offers a timed-out notice for exactly the due chat frames of a timed-out client, and remembers when it last accepted |
| Pacing.SpacedApart | internal/chat/client.go:73-110 | broadcast messages of one client are at least the interval apart |
| Pacing.RateBound | internal/chat/client.go:73-110 | at most T/R + 1 of them fall in any closed interval of length T |
| Pacing.RejectedLeavesNoTrace | internal/chat/client.go:73-110 | a frame that is rejected or timed out might as well never have been read |
| Pacing.BroadcastUnlessRecent | internal/chat/client.go:73-110 | a chat frame of a client not timed out is broadcast next if no message broadcast before it, nor the one the run started from, is less than one interval older; on a clock that does not go back, only if |
| Pacing.SentConcat | internal/chat/client.go:46-111 | a run of the loop can be cut anywhere, the rest going on from the reference time reached |
| Pacing.FrameFate | internal/chat/client.go:46-110 | what each frame adds: nothing if it does not parse, is no chat, is empty or comes too early; a notice if its client is timed out; otherwise one message, its text up to the length limit |
| Emotes.ExecLeftmost | web/desent-web/apps/web/app/page.tsx:224-227 | one call of the regular expression finds the leftmost match from its lastIndex |
| Emotes.WordCharacters | web/desent-web/apps/web/app/page.tsx:224-224 | the characters of a code are the lower-case and upper-case letters, the digits and the underscore, each listed |
| Emotes.RenderMessageText | web/desent-web/apps/web/app/page.tsx:221-245 | the scan ends, also on matches that name no emote, and pushes the parts of the reference scan; plain text when there is nothing to push |
| Emotes.RenderLosslessly | web/desent-web/apps/web/app/page.tsx:221-245 | for every text and emote list, the parts, images written back as their codes, give the text; every image stands where its code is written and is the first emote with it; the text is returned as it is if and only if it or the list is empty |
| Emotes.ScanLossless | web/desent-web/apps/web/app/page.tsx:225-243 | from any point of the scan, what is still pushed spells out exactly the text not yet out |
| Emotes.PartsWellFormed | web/desent-web/apps/web/app/page.tsx:227-243 | text parts are not empty, images are known emotes, and the keys of images increase |
| Emotes.DrawsScannedKnown | web/desent-web/apps/web/app/page.tsx:227-241 | a code is drawn if and only if the scan meets it as a match and its emote is known |
| Emotes.ScannedUnlessColonTaken | web/desent-web/apps/web/app/page.tsx:224-227 | the scan meets a code if and only if its opening colon did not close an earlier match |
| Emotes.DrawnUnlessColonTaken | web/desent-web/apps/web/app/page.tsx:227-241 | a known emote's code is drawn if and only if its opening colon did not close an earlier match |
| Emotes.WrittenIsDrawn | web/desent-web/apps/web/app/page.tsx:224-239 | wherever a known code is written between colons, whatever comes before and after, it is drawn if and only if the first of those colons did not close an earlier match; always, if no colon comes before |
| Emotes.DrawnIsWritten | web/desent-web/apps/web/app/page.tsx:227-239 | every image stands exactly where the code of its emote is written between colons, and is the first emote of the list with that code |
| Emotes.UndrawnSmile | web/desent-web/apps/web/app/page.tsx:227-244 | ":hi:smile:" with "hi" no emote is left as text, although ":smile:" is in it |
| ChatHistory.Store.SaveMessage | internal/chat/store.go:73-82 | the message is added under the next id, and the table keeps its ids ascending |
| ChatHistory.Store.DeleteMessage | internal/chat/store.go:84-97 | the row with this id is marked deleted, and every other row and column stays; it is reported as not found if and only if no undeleted row had the id |
| ChatHistory.Store.GetMessages | internal/chat/store.go:123-154 | every message returned is the session's, undeleted and before a positive cursor, each once, in order of time and then id; every other message of that kind is no newer than all that are returned, and is missed only if the page is full; and the page is the reference's |
| ChatHistory.ReverseInPlace | internal/chat/store.go:149-152 | the two-index loop reverses the slice in place |
| ChatHistory.SelectedIs | internal/chat/store.go:124-130 | the query selects exactly the wanted rows |
| ChatHistory.PageMeans | internal/chat/store.go:123-154 | the page of the table, said of its rows alone: session, deletion, cursor, order, limit and which messages a full page may miss |
| ChatHistory.NewestFirstSorts | internal/chat/store.go:131-131 | the order of the query is a permutation of the selected rows, sorted by time and then id, both falling |
| ChatHistory.NewestFirstIsReverse | internal/chat/store.go:131-131 | when times follow ids, that order is the table's reversed |
| ChatHistory.PageIsSuffix | internal/chat/store.go:123-154 | then a page is the last of the wanted rows, in table order |
| Paging.VodPage.constructor | web/desent-web/apps/web/app/vods/[sessionId]/page.tsx:33-45 | opening loads the newest page, and offers more only if it was full; a failed request shows nothing and offers no more |
| Paging.VodPage.AskEarlier | web/desent-web/apps/web/app/vods/[sessionId]/page.tsx:48-52 | a load is asked for, before the oldest id shown, if something is shown and no load is under way |
| Paging.VodPage.ReceiveEarlier | web/desent-web/apps/web/app/vods/[sessionId]/page.tsx:52-63 | its answer is prepended, and ends the offer if it is empty or short; a failed request changes nothing shown |
| Paging.Perform | web/desent-web/apps/web/app/vods/[sessionId]/page.tsx:47-64 | a save, a deletion or a load of the runs below is a call of the store's methods and the page's |
| Paging.PageFacts | internal/chat/store.go:123-154 | a page is in order, holds wanted rows only, and misses only older ones, those only when it is full |
| Paging.RunKeepsInv | web/desent-web/apps/web/app/vods/[sessionId]/page.tsx:47-64 | whatever is saved or deleted between the loads, the list shown keeps its order and still awaits what it lacks |
| Paging.LoadedIsComplete | web/desent-web/apps/web/app/vods/[sessionId]/page.tsx:47-64 | once there is no more to load, every message of the opening that is still undeleted is shown, in order and once |
| Paging.LoadedIsExact | web/desent-web/apps/web/app/vods/[sessionId]/page.tsx:47-64 | without deletions it shows exactly the session's undeleted messages of the opening |
| Paging.LoadsTerminate | web/desent-web/apps/web/app/vods/[sessionId]/page.tsx:47-64 | there is no more to load once the pages could have covered the session |
| Paging.PagingExact | web/desent-web/apps/web/app/vods/[sessionId]/page.tsx:33-64 | loading long enough shows the messages whose session it is and that were undeleted at the opening, all of them and no other, in order, for every page size, also while new ones are saved |
| Paging.PagingCompleteExactlyIfChronological | internal/chat/store.go:123-154 | for every table: paging is complete for every page size if and only if the session's undeleted messages were created in the order of their ids |
| PageBoundaries.OlderIsBelow | internal/chat/store.go:124-131 | what a cursor selects is the whole history, in its order, without the ids from the cursor on |
| PageBoundaries.LoadAtCut | web/desent-web/apps/web/app/vods/[sessionId]/page.tsx:51-58 | at a page boundary where ids tell newer from older, a load shows exactly the next messages of the history |
| PageBoundaries.CompleteExactlyIfCleanBoundaries | web/desent-web/apps/web/app/vods/[sessionId]/page.tsx:33-64 | for each page size: loading to the end shows the whole history, each message once and in order, if and only if at every page boundary newer messages have larger ids than the cursor and older ones smaller |
| SegmentCaching.SegmentCache.Get | internal/hls/cache.go:92-100 | a hit is the entry stored under the path, a miss means there is none |
| SegmentCaching.PathsByEnding | internal/hls/cache.go:116-118 | segments are exactly the paths that end in ".ts", cached files those and the ones that end in ".m3u8", and no path is both |
| SegmentCaching.SegmentCache.HandleEvent | internal/hls/cache.go:102-126 | a new directory is watched; a path ending in ".ts" or ".m3u8" is loaded on creation and writing, if it is there at both reads, and evicted on removal and renaming; any other path is ignored; size stays exact |
| SegmentCaching.SegmentCache.LoadFile | internal/hls/cache.go:128-153 | a file there at both the read and the stat is stored with the data of one and the time of the other; size counts an overwritten entry once; no entry that does not end in ".ts" is dropped for it, itself included |
| SegmentCaching.SegmentCache.Evict | internal/hls/cache.go:155-163 | exactly this entry goes, and its bytes with it |
| SegmentCaching.SegmentCache.EvictIfNeeded | internal/hls/cache.go:167-196 | only paths ending in ".ts" go, none that is newer than one kept, the last removal was needed, and it stops only within budget or with none of them left; without a budget, or within it, nothing goes |
| SegmentCaching.SegmentCache.Purge | internal/hls/cache.go:199-205 | no entries and size zero |
| SegmentCaching.SortedByAge | internal/hls/cache.go:178-186 | the candidates are exactly the segments, each once, by age |
| SegmentCaching.BytesWithout | internal/hls/cache.go:155-163 | removing an entry takes exactly its bytes off the sum |
| SegmentCaching.EvictedInOrder | internal/hls/cache.go:188-195 | removing in order of age until it fits is oldest first and minimal |
| SegmentCaching.EvictionPossible | internal/hls/cache.go:167-196 | for every table and budget there is an eviction that is oldest first, minimal and sufficient |
| CacheCoherence.StepKeepsInv | internal/hls/cache.go:102-163 | every step keeps this: an entry or load that differs from the disk has an event coming, and the last event of a path tells whether it is on disk |
| CacheCoherence.InvAlways | internal/hls/cache.go:102-219 | so does every run from an empty cache, start-up loads included |
| CacheCoherence.ServeHLS | internal/hls/handler.go:59-80 | the lookup answers from the cache, or else with the file's data and time if both its stat and its opening find it; on a disk at rest that is what the other results call served |
| CacheCoherence.StaleOnlyWhileAnnounced | internal/hls/handler.go:59-80 | in every reachable state, a viewer is served something else than the disk's file only while an event for the path is queued or its load is under way |
| CacheCoherence.DrainedIsCoherent | internal/hls/handler.go:59-80 | with no event queued and no load under way, every path is served exactly as the disk would |
| CacheCoherence.UndisturbedLoadIsRight | internal/hls/cache.go:128-153 | a load without an event pending for its path leaves that path right |
| CacheCoherence.QuietDiskIsCaughtUp | internal/hls/cache.go:75-79 | a disk left alone is caught up with: the loop takes at most four steps for each event queued and three more, and with nothing left to do serves every path as the disk holds it |
| CacheCoherence.HandleNext | internal/hls/cache.go:75-153 | the cache's own handling of a file's event at the head of the queue, on a disk that does not change meanwhile, is a run of the machine's loop steps |
| CacheCoherence.QuietDiskIsCached | internal/hls/cache.go:102-153 | on a disk left alone, a playlist whose event is queued or whose load is under way is in the cache as on disk once the loop has drained, whatever the budget; without a budget, so is a segment |
| CacheCoherence.LoopNeverStuck | internal/hls/cache.go:75-79 | while an event is queued or a load is under way, the loop has a next step |
| CacheCoherence.ServedOnlyFromLoad | internal/hls/cleaner.go:29-69 | once a file is neither on disk nor cached, all that can be served under its path, until a file is put there again, is what a load past its stat is about to store |
| CacheCoherence.DeletedStaysGoneUnlessLoading | internal/hls/cleaner.go:29-69 | a deleted and purged file may be served again, with no file put there, if and only if a load of it is past its stat and what that load stores is no segment or fits the budget |
| CacheCoherence.PurgeOvertaken | internal/hls/cleaner.go:29-69 | a run from the start reaches such a load, so that a deleted file is served after the purge |
| ChatHub.Hub.TrySend | internal/chat/hub.go:140-145 | a send needs an open channel and goes through if and only if its buffer has room |
| ChatHub.Hub.Close | internal/chat/hub.go:116-116 | closing needs an open channel, so none is closed twice |
| ChatHub.Hub.SendToAll | internal/chat/hub.go:223-241 | every client with room gets the message; exactly those without are dropped and their channels closed |
| ChatHub.Hub.OnRegister | internal/chat/hub.go:107-111 | the client is in, known as it registered, counted, and everyone is told |
| ChatHub.Hub.OnUnregister | internal/chat/hub.go:113-120 | a connected client is out and uncounted, and everyone else is told; otherwise nothing happens |
| ChatHub.Hub.OnKick | internal/chat/hub.go:122-130 | exactly the user's clients are disconnected and uncounted |
| ChatHub.Hub.OnBroadcast | internal/chat/hub.go:132-146 | chat is filed under the current session, then sent to all |
| ChatHub.Hub.OnDelete | internal/chat/hub.go:148-165 | everyone is told which message was deleted |
| ChatHub.Hub.CheckLiveStatus | internal/chat/hub.go:173-212 | the session opens and closes with the sampled signal, as far as the store allows |
| ChatHub.Hub.CloseAllClients | internal/chat/hub.go:243-248 | every channel is closed once and no client is left |
| HubCases.FanOutOffers | internal/chat/hub.go:223-241 | a client with fewer than 256 items waiting stays and gets the message last, any other leaves with its channel closed, and nothing else changes |
| HubCases.RegisterMeans | internal/chat/hub.go:107-111 | a registration said of the clients and channels alone: in, known under its user and name, counted, and "joined" sent to all |
| HubCases.UnregisterMeans | internal/chat/hub.go:113-120 | the connected client is out, closed and uncounted, and the others get "left" with its name; a client gone before changes nothing |
| HubCases.KickMeans | internal/chat/hub.go:122-130 | of the connected clients exactly those of the user leave, closed and uncounted one by one; every other client and channel stays as it is |
| HubCases.BroadcastMeans | internal/chat/hub.go:132-146 | everyone is offered the message; it is saved, under the session there is, if it is chat, there is one and the store takes it |
| HubCases.DeleteMeans | internal/chat/hub.go:148-165 | everyone is offered the notice with the number of the deleted message |
| HubCases.TickMeans | internal/chat/hub.go:173-212 | exactly what a tick does for each turn of the signal and each answer of the store; any other tick only notes the signal |
| HubCases.ShutdownMeans | internal/chat/hub.go:243-248 | everyone leaves, closed, with what waited for it |
| HubCases.ClientStepsMean | internal/chat/client.go:91-128 | a writer takes what has waited longest; a notice is added last if fewer than 256 items wait, and otherwise nothing happens |
| HubDelivery.CaseAccounted | internal/chat/hub.go:101-169 | for each case of the loop: those who stay get exactly what it broadcasts, those who leave were dismissed by it or had a full buffer, and the viewer count falls by the dismissed alone |
| HubDelivery.StepKeepsInv | internal/chat/hub.go:101-169 | each step, a client's own included, keeps the channels, the count and the delivery in order |
| HubDelivery.RunKeepsInv | internal/chat/hub.go:97-171 | and so does every run |
| HubDelivery.GapFreeDelivery | internal/chat/hub.go:97-171 | for any client and every run, what it has taken or still has waiting, notices aside, is the contiguous stretch of the one broadcast log from its registration to now or to its end |
| HubDelivery.ViewersCounted | internal/chat/hub.go:107-164 | over every run: a channel is open exactly while its client is connected; the viewer count is the clients plus those dropped for a full buffer, so it is exact if and only if there were none |
| HubDelivery.KickDisconnectsTheUser | internal/chat/hub.go:107-130 | over every run: a kick of a user disconnects exactly the clients that registered as that user, and every other connected client stays |
| HubDelivery.LeftUnderItsName | internal/chat/hub.go:107-120 | over every run: a client that leaves is announced under the name it registered with |
| HubDelivery.NewHub | internal/chat/hub.go:65-79 | a new hub is the state the runs start from |
| BroadcastSteps.BroadcastAsOneStep | internal/chat/hub.go:233-240 | with each send of a broadcast a step of its own, in any order and with the clients' own steps between them, the state reached is that of the broadcast as one step, after the own steps that precede the send to their client and before the others |
| HubSessions.SessionsFollowExactly | internal/chat/hub.go:173-212 | whatever fails, sessions are one for one and in order the maximal runs of live ticks, with only the one under way open and current, if and only if no tick that starts a run failed to create its session and no tick that ends a session failed to close it |
| HubSessions.MessagesFollowExactly | internal/chat/hub.go:214-221 | in a run that loses no session, exactly the chat messages of live runs are filed, each under its run's session, if and only if no save of one failed |
| HubSessions.SessionsFollowSignal | internal/chat/hub.go:173-221 | with a store that does not fail, sessions are one for one and in order the maximal runs of live ticks, only the one under way is open, and each chat message is filed under the session it was processed in |
| HubSessions.SessionAlwaysSound | internal/chat/hub.go:173-212 | whatever fails, a current session means the signal was live, and it is the last row and open |
| HubSessions.FailedCreateLosesTheRun | internal/chat/hub.go:181-188 | a session that could not be created is not tried again until the signal goes down, and its chat is not saved |
| UpdateFlow.ExclusiveAlways | internal/update/updater.go:231-256 | every step keeps the flag up exactly while one thread owns the update |
| UpdateFlow.OneUpdateAtATime | internal/update/updater.go:231-256 | over every interleaving of any number of calls, the flag is up if and only if there is an owner, and there are never two |
| UpdateFlow.InvAlways | internal/update/updater.go:90-129 | over every interleaving, broadcasts are of the current progress, to subscribers only, and no subscriber is left out |
| UpdateFlow.NoSendOnClosed | internal/update/updater.go:90-129 | over every interleaving, no step sends on a subscriber's channel that has been closed |
| UpdateFlow.SubscribersInformed | internal/update/updater.go:90-129 | with no broadcast half done, a subscriber whose buffer was never full has been sent the current progress; the last value it was sent is an older one if and only if a newer one was on the channel already when that was sent, and then it is the one its own Subscribe read |
| UpdateFlow.SnapshotCanBeOvertaken | internal/update/updater.go:90-105 | a concrete interleaving leaves a subscriber with the older value last |
| Updates.Updater.Subscribe | internal/update/updater.go:90-105 | a new channel is registered and holds the current progress; a run of the machine's steps |
| Updates.Updater.Unsubscribe | internal/update/updater.go:107-113 | the channel is removed before it is closed; a run of the machine's steps |
| Updates.Updater.SendToAll | internal/update/updater.go:120-128 | every subscriber is offered the progress once and nobody else; a run of the machine's steps |
| Updates.Updater.Broadcast | internal/update/updater.go:115-129 | the progress is stored and offered to every subscriber; a run of the machine's steps |
| Updates.DeliveredMeans | internal/update/updater.go:120-128 | a subscriber with fewer than sixteen values waiting gets the value last, any other misses it, and a channel of no subscriber is left alone |
| Updates.Updater.RunApply | internal/update/updater.go:251-402 | on every way out the flag is down, and the run has published exactly the phases of the reference, ending with "restarting" if every call went well and with "failed" otherwise |
| Updates.PhasesGoForward | internal/update/updater.go:251-402 | "failed" is published at the end if and only if some call failed, and nowhere else; before that the phases never go back |
| Updates.PhasesInTurn | internal/update/updater.go:251-402 | which phases can come after each, named one by one |
| Updates.PhasesOfPulls | internal/update/updater.go:273-329 | every report of a pull is published as "downloading"; "applying" comes right after the reports of both pulls, and only if both succeeded; "restarting" only after the web container was recreated |
| Updates.RestartingBeforeFailed | internal/update/updater.go:328-402 | "restarting" and "failed" are both published if and only if everything up to the web container went well and one of the helper's calls failed |
| Updates.Updater.Apply | internal/update/updater.go:231-249 | an update is started if and only if none was under way and the socket is there; a failed check gives the flag back |
| Updates.Joined | internal/update/updater.go:115-129 | runs of the machine's steps compose, so the methods above are runs of it |
| Recreate.TakeDown | internal/update/updater.go:427-445 | inspect, stop and remove succeed exactly when no call fails; otherwise the container is as it was, up to being stopped, or gone with the answer lost |
| Recreate.CreateOrRollBack | internal/update/updater.go:478-508 | one container of that name at most is added, from the request or its old image; a single failure without effect is always rolled back |
| Recreate.RollBack | internal/update/updater.go:481-490 | "rolled back" means a running container with the old image and the same settings; "rollback start failed" that it was created; "rollback failed" that none with the old image runs |
| Recreate.RecreateContainer | internal/update/updater.go:426-511 | under any pattern of failures: success if and only if no call failed, and then one running container of that name has the new image and every copied setting; "rolled back" the same with the old image; every other container is untouched |
| Recreate.KeptMeans | internal/update/updater.go:448-477 | the settings kept, one by one: the configuration, the binds, ports, restart policy and network mode, and every network with its aliases |
| Recreate.CopyAliases | internal/update/updater.go:466-475 | every network is kept, with its aliases |
| Text.SplitJoin | internal/ingest/quality.go:97-103 | splitting gives back what was joined, for parts free of the separator |
| Text.JoinSplit | internal/ingest/quality.go:97-103 | joining gives back what was split, always |
| Text.AtoiItoa | internal/ingest/quality.go:94-108 | reading a printed integer gives it back, within 64 bits, and fails outside |
| Text.WrittenInDecimal | internal/ingest/quality.go:94-94 | integers are written in decimal, the most significant digit first, after a minus sign if negative |
| Text.AtoiSigned | internal/ingest/quality.go:107-107 | a number is read with either sign before it |
| Text.AtoiRejects | internal/ingest/quality.go:107-110 | a text without a digit, or with anything but digits after its sign, is not a number |
| Qualities.QualityByName | internal/ingest/quality.go:47-54 | the first preset of that name, and none only if no preset has it |
| Qualities.FilterQualities | internal/ingest/quality.go:121-133 | the presets named, by the loop over the table |
| Qualities.FilteredMembers | internal/ingest/quality.go:119-133 | exactly the presets named, unknown names skipped |
| Qualities.FilteredInOrder | internal/ingest/quality.go:119-133 | in the order of the table, each once |
| Qualities.FilteredAgain | internal/ingest/quality.go:121-133 | filtering by the names of a filtered list gives the list back |
| Qualities.ApplyFPSOverrides | internal/ingest/quality.go:78-87 | each quality keeps everything but its frame rate, which is the override if there is an accepted one |
| Qualities.DefaultFPSOverrides | internal/ingest/quality.go:66-74 | the frame rates of the HD presets |
| Qualities.DefaultsAre | internal/ingest/quality.go:66-74 | they are for exactly the presets at least 720 lines high, each at its preset's rate |
| Qualities.SerializeFPSOverrides | internal/ingest/quality.go:90-98 | the entries of the listed names, in table order, joined |
| Qualities.EntriesAre | internal/ingest/quality.go:90-98 | the k-th entry written is the k-th listed name that has an override, a colon and the number |
| Qualities.TwoEntries | internal/ingest/quality.go:90-98 | two entries are written with a comma between them |
| Qualities.ParseFPSOverrides | internal/ingest/quality.go:101-117 | the well-formed parts for listed names, later ones over earlier ones |
| Qualities.SettingMeans | internal/ingest/quality.go:103-115 | a part sets a name if and only if the text after its first colon reads as 30 or 60 and the name is listed |
| Qualities.LastSettingWins | internal/ingest/quality.go:101-117 | the last part that sets a name decides, whatever comes before or after |
| Qualities.UnsetIsAbsent | internal/ingest/quality.go:101-117 | a name no part sets is not there |
| Qualities.ParsedIsSound | internal/ingest/quality.go:101-117 | whatever is read names a listed quality and is 30 or 60 |
| Qualities.ParseSerialize | internal/ingest/quality.go:89-117 | reading what was written gives the map back, restricted to listed names with values 30 or 60, for every table free of the separators |
| Qualities.RoundTripExactlyForCleanTables | internal/ingest/quality.go:89-117 | the round trip holds for all maps if and only if no listed name holds a comma or a colon |
| Qualities.NormalForm | internal/ingest/quality.go:89-117 | for every text, junk and duplicates included, writing after reading keeps its meaning and is idempotent |
| Qualities.NormalFormDecides | internal/ingest/quality.go:89-117 | two texts mean the same if and only if their normal forms are equal |
| FFmpegArgs.BuildFFmpegArgs | internal/ingest/ffmpeg.go:8-72 | the loops build the command line of the reference, options in the same order with the same values; the recording, if asked for, is a copied second output after the HLS one |
| FFmpegArgs.InputOptions | internal/ingest/ffmpeg.go:9-20 | the command line begins with the listening input, one video and one audio map for each quality, and the codec settings with the preset |
| FFmpegArgs.OutputOptions | internal/ingest/ffmpeg.go:36-57 | it goes on, after six options for each quality, with the audio settings, one audio rate each, the stream map and the HLS options, and ends there |
| FFmpegArgs.InputOnce | internal/ingest/ffmpeg.go:9-12 | there is one input, the stream's address, before the HLS output path |
| FFmpegArgs.PresetOnce | internal/ingest/ffmpeg.go:20-20 | the preset is given once, and is the one asked for |
| FFmpegArgs.SlotsDiffer | internal/ingest/ffmpeg.go:23-33 | no two per-variant options are the same, within a variant or across variants |
| FFmpegArgs.VariantEncodedAt | internal/ingest/ffmpeg.go:23-33 | variant i is told "scale=", its quality's width, ":", its height, ",fps=" and its frame rate, its video rates, and twice the frame rate as its group of pictures, each exactly once among the options before the HLS output path |
| FFmpegArgs.AudioEncodedAt | internal/ingest/ffmpeg.go:36-39 | variant i has its quality's audio rate, said once among those options |
| FFmpegArgs.StreamMapOnce | internal/ingest/ffmpeg.go:41-46 | there is one stream map among those options |
| FFmpegArgs.StreamsReadBack | internal/ingest/ffmpeg.go:41-46 | read back, the stream map is one entry per quality in order, video i with audio i under the name of quality i |
| Ingest.Manager.constructor | internal/ingest/manager.go:40-47 | a new manager has the default qualities, the HD frame rates and the preset "auto" |
| Ingest.Manager.SetQualities | internal/ingest/manager.go:163-171 | the list becomes the presets named, and stays as it is if none is |
| Ingest.Manager.SetFPSOverrides | internal/ingest/manager.go:122-133 | exactly the HD names with accepted frame rates are merged in |
| Ingest.Manager.ResolvedPreset | internal/ingest/manager.go:50-62 | "auto" stands for medium from 8 cores on, fast from 4, veryfast from 2 and ultrafast below; any other preset for itself |
| Ingest.Manager.FPSOverrides | internal/ingest/manager.go:136-144 | the copy holds what the manager's map holds |
| Ingest.Manager.QualityFPS | internal/ingest/manager.go:148-160 | the frame rates reported for the enabled qualities |
| Ingest.Manager.EnabledQualities | internal/ingest/manager.go:174-182 | the names of the enabled qualities, in their order |
| Ingest.Manager.EncoderArgs | internal/ingest/manager.go:235-258 | the command line is the one for the enabled qualities under the overrides, and the resolved preset |
| Ingest.ServerTableWellFormed | internal/ingest/quality.go:34-44 | the server's own table of presets meets everything the lemmas ask of a table |
| Qualities.ServerTableRegular | internal/ingest/quality.go:34-41 | each of the server's presets is named after its height, is as wide as 16:9 and even numbers allow, has 1.07 times its rate as peak rate and twice its rate as buffer, and they fall in size and rates |
| Ingest.ServerStartsWith | internal/ingest/manager.go:40-47 | on the server's table a new manager has the four presets from 1080p to 360p, 60 frames for the four HD presets, and "auto" |
| Ingest.DefaultsCoverHD | internal/ingest/quality.go:66-74 | the default overrides are for exactly the HD names, and accepted |
| Ingest.ReachedIsSound | internal/ingest/manager.go:96-171 | whatever the setters are called with, in every reachable state at least one quality is enabled, in table order, and the overrides are for exactly the HD names with 30 or 60 |
| Ingest.EncodedAsReported | internal/ingest/manager.go:146-160 | in every such state the reported frame rate of an enabled quality is the one it is encoded at; an SD quality keeps its preset one |
| Ingest.CommandLineAsReported | internal/ingest/ffmpeg.go:23-33 | the options built from any reachable state scale variant i to its size and end its filter with the reported frame rate, written out, and set its group of pictures to twice that, each exactly once before the HLS output path |
| Ingest.StreamMapAsReported | internal/ingest/ffmpeg.go:41-46 | its stream map names variant i as the quality that rate is reported for |
| Settings.Boot | cmd/server/main.go:171-188 | the start-up block gives a manager the settings the stored table stands for, and the defaults where it has none |
| Settings.BootedFresh | cmd/server/main.go:171-188 | with nothing stored the server starts with a new manager's settings |
| Settings.BootedMeans | cmd/server/main.go:171-188 | what each stored key does, by its name, and when it does nothing: a list without a known preset, rates of other names or values, a preset that is not known |
| Settings.AdminStore.UpdateSettings | internal/admin/store.go:45-56 | keys are written one by one in any order; on a failure some of the others may have been written, and on success all |
| Settings.UpdateQualities | internal/admin/handler.go:232-298 | a request is refused if and only if it names no known quality, a preset that is not known, or a rate that is not 30 or 60 or not for an HD name, and then nothing changes; a failing store leaves the live settings alone; otherwise what was asked for and nothing else is live, and exactly the request's keys are stored, rates merged with all live ones |
| Settings.QualitiesComeBack | cmd/server/main.go:173-177 | a stored list of qualities comes back as the same list |
| Settings.RatesComeBack | cmd/server/main.go:178-182 | stored rates come back as they were, partial updates included |
| Settings.BootedAfterWrite | internal/admin/handler.go:264-288 | what a restart would give after any part of an update was written |
| Settings.CoherentAfterSuccess | internal/admin/handler.go:264-298 | after a successful update a restart would change nothing if and only if it would have changed nothing in what the request did not name; so agreement is kept, and a request with a preset and any rate restores it from any store |
| Settings.CoherentAfterFailure | internal/admin/handler.go:284-289 | after a failed update that is so if and only if every key that was written says what is live anyway |
| Settings.RunIsSound | cmd/server/main.go:171-188 | whatever the store holds and however updates fail, the live settings are sound and the preset valid |
| Settings.SettledIsCoherent | internal/admin/handler.go:232-298 | along every run, a restart would change nothing while no update was interrupted, or once a restart or a full update came after it |
| Settings.CoherentSinceStart | internal/admin/handler.go:232-298 | in particular, on any store and after any history, if no update was interrupted since the server last started |
| Settings.InterruptedUpdateParts | internal/admin/store.go:45-56 | one interrupted update is enough to make the two differ |

## Left out

- HTTP routing, JSON, CORS, tokens, passwords, uploads and the other administration operations: wrappers and one-statement operations.
- SQLite, fsnotify, Docker, GitHub and FFmpeg themselves: tables, an event queue, a fallible daemon, outcomes and an argument list stand for them.
- The watcher's queue does not overflow, each event carries one operation, and files put into a new sub-directory before it is watched, reads of half-written files and changes of a file's time alone are not modelled; a file's move is a rename and a create event.
- The cleaner's walks over directories (internal/hls/cleaner.go): each file removed is one deletion step of `CacheCoherence`, and which files are due is left open.
- CacheCoherence.StaleOnlyWhileAnnounced: takes the stat and the opening of a file served from disk together; `CacheCoherence.ServeHLS` has them apart.
- HubDelivery.GapFreeDelivery: is about one client at a time, which may be any client; the log is common to all.
- ChatHub.Hub.CheckLiveStatus: the recording's path and the thumbnail stored when a session ends, a session's category and tags, and the times in its row are not modelled; none of them is read by the hub.
- ChatHub.Hub.TrySend: the reader's notice of a timeout also writes to the channel, from another goroutine, and may meet a closed one; the claim of never sending on a closed channel is about the hub.
- Updates.Updater.RunApply: the texts and percentages of the progress, and the making of the helper container, are not modelled; each call is an outcome.
- Updates.Updater.Broadcast: is run on its own there; its interleavings with others are the steps of `UpdateFlow`.
- Recreate.RecreateContainer: Docker's own attachment to a default network, its automatic removal of stopped containers and other users of the daemon are not modelled; the new container is created without automatic removal, as the code does.
- Settings.UpdateQualities: the two reasons for a rejected frame rate are one status, because which is met first depends on the order of a map; the answer's body and the restart of a live encoder are not modelled, nor are concurrent requests or other writers of the three keys.
- Settings.Boot: starts from the table that was read; a table that cannot be read leaves the defaults, as an empty one does.
- Ingest.Manager.EncoderArgs: the stream key, the process, its restart loop and the time in the recording's path are not modelled; the path and the number of cores are parameters.
- FFmpegArgs.BuildFFmpegArgs: the arguments before the output path are pairs of an option and its value.
- FFmpegArgs.VariantEncodedAt: does not speak of the arguments after the HLS output path, which are another output's.
- Paging.VodPage.AskEarlier: that the button is shown only for a stream without a recording is not modelled.
- Pacing.Client.ReadPump: a frame arrives with its time and whether its sender is timed out; lengths count characters, and a frame cut in the middle of a multi-byte character is not modelled.
- Emotes.RenderMessageText: an image part is its key and its emote; its markup is not modelled.
- The handler's own check of a page limit (internal/chat/handler.go:105-110): the component's limit of 200 passes it.
- Tickers, timeouts and signals: steps that may come at any time.
- Integers are unbounded, except where `Atoi` refuses what does not fit in 64 bits.
