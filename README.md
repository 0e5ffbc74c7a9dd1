# ferri federation core in Dafny

A model of the core of ferri, a small ActivityPub server written in Rust, with proofs about it. The model covers:

- the request builder that signs outgoing GET and POST requests, following draft-cavage-http-signatures (section 2.3). The POST `Digest` follows section 4.3.2 of RFC 3230, and the `Date` uses the IMF-fixdate of section 7.1.1.1 of RFC 7231;
- the insert-or-ignore store that the `new_*` functions write and the `get` functions read;
- the federation inbox handlers for Follow, Create, Announce, Delete and Like;
- the outbox envelopes for Accept, Create and Follow;
- the bounded request queue and its worker;
- the conversions between store, ActivityStreams and client shapes;
- the home timeline;
- the server endpoints that sit on top of the core: the mounted inbox, OAuth authorization codes (section 4.1 of RFC 6749), Bearer-token sign-in (section 2.1 of RFC 6750), WebFinger and host-meta (section 4.4 of RFC 7033), app registration and remote-account fingering.

The model is sequential and deterministic. The network, the clock, fresh ids, random tokens, JSON and the cryptographic primitives are inputs:

- **Network and JSON.** Fetched documents are functions from URL to `Option` of a parsed value.
- **Clock.** Each handler call reads one instant.
- **Ids and tokens.** `Oracle.Ids` hands out identifiers in turn.
- **Cryptography.** SHA-256, base64 and RSA signing are the uninterpreted functions of `Http.Primitives`.

A table is the sequence of its rows in insertion order. Each table has its unique keys:

- `INSERT` fails on a clash.
- `INSERT … ON CONFLICT DO NOTHING` keeps the table unchanged on a clash.
- `fetch_one` returns the first matching row.

The Rust code ends a request with `unwrap` or `expect`. The model writes that outcome out explicitly, as `None`, `Panic` or `Panicked`, together with whatever had already been written. Nothing is rolled back.

Each imperative operation is a method over a `class`: `Store.Connection`, `Http.RequestBuilder`, `Http.HttpClient`, `ApPost.Post`, `Queue.Channel` and `Oracle.Ids`. Each method is proved to have exactly the effect of a specification function, and the properties are proved as lemmas about those functions.

The model follows the code as written, including where it departs from what the rest of the code base or the ActivityPub design expects:

- A handler that panics ends the worker task. It does not move on to the next message: later sends on that queue panic (`Worker.Run`, `Queue.Channel.DropReceiver`).
- `new_follow` writes the follower into both the `follower_id` and `followed_id` columns (`ferri-main/src/types/make.rs:55-63`).
- The server inbox's Accept is signed with a key id built from the followed user's *username*, not its id (`ferri-server/src/endpoints/inbox.rs:118-122`).
- The server's `create_user` stores `username = name@host` for local and remote Persons alike.
- In the home timeline, the account URL of a reblogged status is built from the *booster's* user id (`ferri-server/src/endpoints/api/timeline.rs:90-92`).
- The Status envelope always goes to one fixed inbox, whoever the followers are.
- The outbox delivers through `post_activity`, which signs before it sets the body: every Accept, Create and Follow it posts carries a `Digest` and a signature over the empty body, while its payload is the activity (`FedOutbox.Send`, `Http.PostActivityAsWritten`). The corrected delivery, `Http.PostActivity`, is proved separately. Every arm unwraps `post_activity`, so a POST the remote does not answer (a failed `send` or `text`) is a panic that ends the worker (`FedOutbox.Delivered`).
- The inbox's Announce arm gives the boost a `boosted_post` that is the id freshly drawn for the boosted note, even when the note's URI was already stored under another id (`FedInbox.BoostWrites`). The corrected writes, `FedInbox.BoostWritesCorrected`, are proved separately.
- The home timeline's query has no `ORDER BY`: the model lists the followed users' posts first and the boosted posts after them, each group in table order.


## Model

| member | source | states |
|---|---|---|
| Oracle.Ids.constructor | ferri-main/src/lib.rs:16-18 | a generator starts at its source's first value |
| Oracle.Ids.Fresh | ferri-main/src/lib.rs:16-18 | each `new_id` call hands out the next value of the source and moves on by exactly one |
| Queue.Channel.constructor | ferri-main/src/federation/request_queue.rs:37-40 | `RequestQueue::new`: an empty channel, nothing sent, both ends alive, capacity 1024 |
| Queue.Channel.Send | ferri-main/src/federation/request_queue.rs:31-33 | `send` panics when the worker is gone, waits when 1024 messages are queued, and otherwise appends the message at the back; the channel invariant (taken then waiting is what was sent) is kept |
| Queue.Channel.Take | ferri-main/src/federation/request_queue.rs:51 | `recv` hands out the front message and removes exactly it; nothing else changes |
| Queue.Channel.DropReceiver | ferri-main/src/federation/request_queue.rs:46-68 | a worker task that ends drops its receiver: later sends panic, the queue is left as it was |
| Queue.Channel.DropSenders | ferri-main/src/federation/request_queue.rs:51 | once every handle is dropped the senders are gone; the queue is left as it was |
| Worker.Drain | ferri-main/src/federation/request_queue.rs:51-65 | messages are handled in queue order until one does not end normally; the count never exceeds the queue, a normal end means every message was handled, and otherwise at least the one that stopped it |
| Worker.DrainFirst | ferri-main/src/federation/request_queue.rs:51-65 | a run either stops at its first message, with that message's world and outcome, or continues from the world it leaves |
| Worker.DrainAdvance | ferri-main/src/federation/request_queue.rs:51-65 | handling one more message either keeps the run resumable from the new world or ends the whole run right there |
| Worker.Dispatch | ferri-main/src/federation/request_queue.rs:54-64 | `Heartbeat` only logs, `Inbound` runs the inbox handler, `Outbound` runs the outbox handler; the new store, generator, wire and outbound queue are exactly what `Step` gives |
| Worker.TakeOne | ferri-main/src/federation/request_queue.rs:51-64 | taking the front message and dispatching it leaves exactly the world `Step` gives for it, and removes exactly that message from the queue |
| Worker.TakeAll | ferri-main/src/federation/request_queue.rs:51-65 | the loop leaves exactly the world `Drain` gives; the messages taken are the first `handled` ones, in order, and the rest stay queued |
| Worker.Run | ferri-main/src/federation/request_queue.rs:42-71 | `spawn`'s task: drains its queue; it ends (`Drained`) only when every sender is gone, waits (`Idle`) otherwise, and a panic ends it and drops its receiver |
| Worker.DrainAppend | ferri-main/src/federation/request_queue.rs:51-65 | queue order: a run over `a + b` that gets through `a` is the run over `a` then the run over `b` from where it left off |
| Worker.DrainStops | ferri-main/src/federation/request_queue.rs:51-65 | a run that stops inside `a` never looks at the messages after it |
| Worker.HeartbeatOnlyLogs | ferri-main/src/federation/request_queue.rs:55-57 | dropping a heartbeat from the queue changes nothing but the number of messages handled |
| Worker.StepKeepsValid | ferri-main/src/federation/request_queue.rs:54-64 | one message, of any kind, keeps every unique key of the store unique |
| Worker.DrainKeepsValid | ferri-main/src/federation/request_queue.rs:51-65 | no run of the worker breaks the uniqueness of the store's keys |
| Worker.StepGrows | ferri-main/src/federation/request_queue.rs:54-64 | one message appends at most one Accept to the outbound queue, never past its capacity, and only appends to the wire |
| Worker.InboundGrows | ferri-main/src/federation/request_queue.rs:58-60 | an inbound request adds its Accept to the outbound queue only when it ends normally |
| Worker.DrainGrows | ferri-main/src/federation/request_queue.rs:51-65 | a run appends at most one outbound Accept per message it handles, never fills the outbound queue past 1024, and only appends to the wire |
| FedOutbox.Send | ferri-main/src/federation/http.rs:82-109 | a POST succeeds exactly when the inbox is a URL with a host and the remote answers the request with a readable body (a failed `send` or `text` is `Err(LoadFailure)`); whatever the answer, it adds to the wire exactly the request `post_activity` builds as written: the body as payload, with the Digest and signature of the empty body |
| FedOutbox.Handle | ferri-main/src/federation/outbox.rs:36-137 | each request leaves the store, the id generator, the finish flag and the wire exactly as `OutboxEffect` says for its arm, each post being built as `post_activity` builds it (signed over the empty body) |
| FedOutbox.SendAccept | ferri-main/src/federation/outbox.rs:41-60 | the Accept arm draws no id and writes nothing; it posts the Accept envelope to the person's inbox, signed over the empty body |
| FedOutbox.SendStatus | ferri-main/src/federation/outbox.rs:61-100 | the Status arm draws one id and posts the status envelope built under it, signed over the empty body; the store is untouched |
| FedOutbox.SendFollow | ferri-main/src/federation/outbox.rs:101-135 | the Follow arm stores the follow under the first id drawn and, only if that succeeds, posts the Follow envelope under the second id, signed over the empty body |
| FedOutbox.StoreFollow | ferri-main/src/federation/outbox.rs:102-113 | draws one id and runs `new_follow` for the follow under it; the store and the result are exactly those of `new_follow` |
| FedOutbox.PostFollow | ferri-main/src/federation/outbox.rs:115-132 | draws one id and posts the Follow envelope under it to the followed actor's inbox, signed with the follower's key over the empty body |
| FedOutbox.StatusInboxParses | ferri-main/src/federation/outbox.rs:94-97 | the fixed status inbox always parses to the URL with host `fedi.amy.mov` and path `/users/9zkygethkdw60001/inbox`, so its `unwrap` never panics |
| FedOutbox.StatusUrlWellFormed | ferri-main/src/federation/outbox.rs:95 | the status inbox is an `https` URL with a host, an absolute path and no port, query or fragment |
| FedOutbox.AcceptAnswersFollow | ferri-main/src/federation/inbox.rs:60-70 | the Accept the inbox builds for a follow goes out naming that follow as its object and the followed user's actor as its actor, under the id the inbox drew, in the ActivityStreams context |
| FedOutbox.AcceptPosts | ferri-main/src/federation/outbox.rs:41-60 | the Accept arm leaves the state alone; it posts exactly when the person's inbox is a URL with a host, and finishes exactly when that post is answered (the unwrapped `post_activity` panics otherwise); it posts once, to that URL, the Accept envelope as payload with the Digest of the empty body and the POST signature over the empty body made with the given key; that Digest matches the payload exactly when the empty body and the envelope digest alike |
| FedOutbox.StatusNoteFacts | ferri-main/src/federation/outbox.rs:67-92 | a status is a Create by the author's actor of a Note attributed to that actor, whose id is the post's URI and names author and post again, with the post's content, no attachments, and a time that reads back as the post's creation time |
| FedOutbox.StatusToFollowers | ferri-main/src/federation/outbox.rs:86-87 | a status is addressed to the followers collection the author's Person advertises, with the public collection in copy |
| FedOutbox.StatusPosts | ferri-main/src/federation/outbox.rs:61-100 | the Status arm keeps the tables, draws one id, and posts exactly once to the fixed status inbox the status envelope, signed with the given key; it finishes exactly when the status server answers that post (a failed delivery panics at the `unwrap`); the Digest and signature are those of the empty body, so the Digest matches exactly when the empty body and the envelope digest alike |
| FedOutbox.StatusIgnoresStore | ferri-main/src/federation/outbox.rs:61-100 | what a status posts does not depend on the store: no follower list is read |
| FedOutbox.FollowPersists | ferri-main/src/federation/outbox.rs:101-113 | with the follow id already stored the arm panics before posting and changes no table; otherwise it appends the follow row (with the follower in both columns), posts exactly when the followed inbox is a URL with a host, and finishes exactly when that post is answered (a failed delivery panics at the `unwrap`); nothing is posted unless the row is stored |
| FedOutbox.FollowStoredPosts | ferri-main/src/federation/outbox.rs:111-132 | once the follow row is stored, the arm's posts are exactly the as-written delivery of the Follow envelope under the second id |
| FedOutbox.FollowPosts | ferri-main/src/federation/outbox.rs:115-132 | once the row is stored and the inbox parses, the arm posts once, to the followed actor's inbox, the Follow envelope with the Digest and signature of the empty body under the follower's key; the Digest matches exactly when the empty body and the envelope digest alike |
| FedOutbox.FollowEnvelopeFacts | ferri-main/src/federation/outbox.rs:117-127 | the Follow envelope names the follower's actor as actor and the followed actor as object, and its id differs from the follow row's whenever two draws differ |
| FedOutbox.OutboxKeepsValid | ferri-main/src/federation/outbox.rs:36-137 | no outbound request breaks the uniqueness of the store's keys |
| Store.EmptyTables | ferri-main/src/types/make.rs:1-123 | the empty store keeps every unique key unique |
| Store.Insert | ferri-main/src/types/make.rs:55-66 | a plain `INSERT` fails (constraint error) exactly when the row clashes with a stored row on one of the table's unique keys |
| Store.InsertOrIgnore | ferri-main/src/types/make.rs:34-46 | `ON CONFLICT(target) DO NOTHING`: a row whose conflict target is already stored leaves the table unchanged and succeeds |
| Store.Find | ferri-main/src/types/get.rs:54 | the row found has the key and comes before every other row with that key, as `fetch_one` reads the first one; there is none exactly when no row has the key |
| Store.OneKey | ferri-main/src/types/make.rs:55-66 | a table with one unique key clashes exactly on that key |
| Store.TwoKeys | ferri-main/src/types/make.rs:4-25 | a table with two unique keys clashes exactly when either is taken |
| Store.InsertAppends | ferri-main/src/types/make.rs:55-66 | a successful insert keeps every stored row and appends exactly the new one |
| Store.InsertKeepsUnique | ferri-main/src/types/make.rs:55-66 | a successful insert keeps every unique key unique |
| Store.InsertOrIgnoreKeepsUnique | ferri-main/src/types/make.rs:34-46 | insert-or-ignore keeps every unique key unique and never alters a stored row |
| Store.InsertOrIgnoreStores | ferri-main/src/types/make.rs:34-46 | after a successful insert-or-ignore some row carries the new row's conflict target |
| Store.InsertOrIgnoreIdempotent | ferri-main/src/types/make.rs:34-46 | running the same insert-or-ignore twice has the effect of running it once |
| Store.InsertTwiceFails | ferri-main/src/types/make.rs:55-66 | the same plain insert run twice fails the second time |
| Store.FindUnique | ferri-main/src/types/get.rs:54 | over a unique key, `fetch_one` returns the one row carrying it |
| Store.FindAppend | ferri-main/src/types/get.rs:54 | appending rows never changes which row `fetch_one` returns for a key already stored |
| Store.AppendResolves | ferri-main/src/types/make.rs:99-113 | appending a post whose boost reference is stored keeps every stored boost resolvable |
| Store.Connection.constructor | ferri-main/src/types/make.rs:1-2 | a connection over a given store holds exactly that store |
| Make.AttachmentRowsOf | ferri-main/src/types/make.rs:75-86 | one attachment row per attachment, in order, each carrying all of its columns |
| Make.NewActorEffect | ferri-main/src/types/make.rs:30-49 | `new_actor` never fails and returns its argument; afterwards the actor id is stored, nothing outside the actor table changes, an actor id already stored leaves the store unchanged, and a new one appends exactly the row of the actor's id, inbox and outbox |
| Make.NewUserEffect | ferri-main/src/types/make.rs:4-28 | `new_user` fails exactly when the actor is new but the user id is taken; an actor that already has a user leaves the store as it was, yet the argument is returned; otherwise only the user table grows and the actor then has a user, the appended row holding every column of the user, `created_at` as RFC 3339 text |
| Make.NewFollowEffect | ferri-main/src/types/make.rs:51-69 | `new_follow` fails exactly when the follow id is taken, leaving the store unchanged; otherwise it appends exactly one follow row |
| Make.NewAttachmentEffect | ferri-main/src/types/make.rs:71-92 | `new_attachment` fails exactly when the attachment id is taken; otherwise it appends exactly that attachment's row |
| Make.NewPostEffect | ferri-main/src/types/make.rs:94-123 | `new_post` returns its argument on success, touches only the post and attachment tables and only appends to them |
| Make.AttachRowsGrows | ferri-main/src/types/make.rs:118-120 | the attachment loop only appends rows |
| Make.TakenAppendRows | ferri-main/src/types/make.rs:118-120 | after appending attachments an id is taken exactly when it was before or is one of theirs |
| Make.IdsFreshSnoc | ferri-main/src/types/make.rs:118-120 | a list of attachments is fresh exactly when its prefix is fresh and its last id is neither stored nor in the prefix |
| Make.AttachRowsAll | ferri-main/src/types/make.rs:118-120 | when every attachment goes in, the loop appends their rows in order |
| Make.AttachRowsOk | ferri-main/src/types/make.rs:118-120 | the loop inserts every attachment exactly when their ids are pairwise distinct and none is stored |
| Make.AttachRowsStops | ferri-main/src/types/make.rs:118-120 | a loop that fails has stopped at the first attachment whose id is taken, keeping the rows of the ones before it |
| Make.StopCarries | ferri-main/src/types/make.rs:118-120 | a failure of the prefix is the failure of the whole loop |
| Make.StopAtLast | ferri-main/src/types/make.rs:118-120 | a failure at the last attachment stops the loop there, with all earlier rows kept |
| Make.AttachRowsStays | ferri-main/src/types/make.rs:118-120 | the `?` after a failing attachment ends the loop in the state it failed in |
| Make.NewPostIgnoredStillAttaches | ferri-main/src/types/make.rs:101-120 | a post whose URI is already stored is not written again, yet its attachments are, and the call succeeds |
| Make.NewPostOutcome | ferri-main/src/types/make.rs:94-123 | `new_post` succeeds exactly when the post insert-or-ignore does and every attachment id is fresh, and then the attachment rows are appended in order |
| Make.NewPostStoresBoost | ferri-main/src/types/make.rs:99-113 | a new post is appended as one row whose `boosted_post_id` is the boosted post's id, or NULL for an original post |
| Make.NewPostRows | ferri-main/src/types/make.rs:101-116 | `new_post` adds at most its own row, none when the URI is already stored, and once it succeeds the URI is stored |
| Make.NewFollowLosesFollowed | ferri-main/src/types/make.rs:60-62 | the stored follow holds the follower in both the follower and the followed column |
| Make.NewActorKeepsValid | ferri-main/src/types/make.rs:30-49 | `new_actor` keeps every unique key unique |
| Make.NewUserKeepsValid | ferri-main/src/types/make.rs:4-28 | `new_user` keeps every unique key unique |
| Make.NewFollowKeepsValid | ferri-main/src/types/make.rs:51-69 | `new_follow` keeps every unique key unique |
| Make.NewAttachmentKeepsValid | ferri-main/src/types/make.rs:71-92 | `new_attachment` keeps every unique key unique |
| Make.AttachRowsKeepsUnique | ferri-main/src/types/make.rs:118-120 | the attachment loop keeps the attachment ids unique |
| Make.NewPostKeepsValid | ferri-main/src/types/make.rs:94-123 | `new_post` keeps every unique key unique |
| Make.NewEffectsIdempotent | ferri-main/src/types/make.rs:4-123 | the same actor, user, or post without attachments written twice is stored once |
| Make.NewActor | ferri-main/src/types/make.rs:30-49 | the statement leaves the store and returns the result `NewActorEffect` gives |
| Make.NewUser | ferri-main/src/types/make.rs:4-28 | the statement leaves the store and returns the result `NewUserEffect` gives |
| Make.NewFollow | ferri-main/src/types/make.rs:51-69 | the statement leaves the store and returns the result `NewFollowEffect` gives |
| Make.NewAttachment | ferri-main/src/types/make.rs:71-92 | the statement leaves the store and returns the result `NewAttachmentEffect` gives |
| Make.NewPost | ferri-main/src/types/make.rs:94-123 | the post statement and the attachment loop leave the store and return the result `NewPostEffect` gives, including the rows kept when an attachment fails |
| Get.ParseTs | ferri-main/src/types/get.rs:8-26 | `parse_ts` reads a timestamp exactly when the naive SQLite form or RFC 3339 applies, the naive form taking precedence and read as UTC |
| Get.ParseTsRfc3339 | ferri-main/src/types/get.rs:8-26 | a time the store writes with `to_rfc3339` reads back as the same instant |
| Get.ParseTsSqlite | ferri-main/src/types/get.rs:72-87 | what `datetime(created_at)` yields reads back as the instant truncated to the second |
| Get.UserOf | ferri-main/src/types/get.rs:89-113 | a joined user record fails on a NULL in a required column, panics (`no db corruption`) when `created_at` does not parse, and otherwise is the user with the row's id, actor, names and creation time, the given last post time and the key id `https://ferri.amy.mov/users/<id>#main-key` |
| Get.UserRecord | ferri-main/src/types/get.rs:34-56 | the record read is a stored user row of the query that joins a stored actor; there is none exactly when no selected user has its actor stored |
| Get.UserWhere | ferri-main/src/types/get.rs:28-114 | a user read is built from a stored row that the query selects |
| Get.UsersCarryKeyId | ferri-main/src/types/get.rs:28-287 | `user_by_id`, `user_by_username` and `user_by_actor_uri` return a user with the id, username or actor URI asked for, whose key id is built from its own id |
| Get.UserByIdMissing | ferri-main/src/types/get.rs:54-56 | with no user row for the id, `user_by_id` fails with a fetch error |
| Get.Latest | ferri-main/src/types/get.rs:70-80 | `ORDER BY … DESC LIMIT 1`: no time exactly for no posts, else one of them no earlier than any other |
| Get.PostTimes | ferri-main/src/types/get.rs:72-83 | `datetime(created_at)` gives times to the second |
| Get.PostTimesNone | ferri-main/src/types/get.rs:70-87 | a user has no last post time exactly when none of their posts has a readable creation time |
| Get.LastPostAtIsNewest | ferri-main/src/types/get.rs:70-87 | a user with a readable post has a last post time, and it is no earlier than that post |
| Get.PostTimesHas | ferri-main/src/types/get.rs:72-83 | every readable post time of the user, truncated to the second, is among the candidates |
| Get.AttachmentsOf | ferri-main/src/types/get.rs:289-315 | `attachments_for_post` never fails; it panics exactly when some attachment of the post has a NULL media type, and otherwise returns only that post's attachments, each with a media type |
| Get.Join | ferri-main/src/types/get.rs:329-331 | the inner join keeps only posts whose user and actor are stored, each joined to its own user and that user's actor |
| Get.PostOf | ferri-main/src/types/get.rs:338-375 | a joined record becomes the post with the row's id, URI and content, its attachments, its user's key id, no boosted post and no last post time |
| Get.Load | ferri-main/src/types/get.rs:338-375 | a loaded post keeps the row's id and has no boosted post; a read never fails, only panics |
| Get.Collect | ferri-main/src/types/get.rs:338-376 | a `for` loop of `unwrap`s either panics or yields its results |
| Get.Kept | ferri-main/src/types/get.rs:494-496 | the rows kept are rows of the input that the filter selects, in order |
| Get.CollectOutcome | ferri-main/src/types/get.rs:338-376 | the loop succeeds exactly when every item reads, and yields the kept items' results in input order |
| Get.CollectStays | ferri-main/src/types/get.rs:338-376 | once one item panics the whole loop panics |
| Get.CollectNext | ferri-main/src/types/get.rs:338-376 | one more item that reads pushes its result (when kept) onto what the loop had so far |
| Get.KeptAll | ferri-main/src/types/get.rs:338-376 | when every item is kept the loop keeps them all |
| Get.PostsOf | ferri-main/src/types/get.rs:322-333 | the query selects exactly the stored posts of that user |
| Get.PostsForUserId | ferri-main/src/types/get.rs:317-379 | the loop over the user's joined posts yields exactly what reading them one by one gives, stopping at the first panic |
| Get.PostsForUserShape | ferri-main/src/types/get.rs:338-375 | every post `posts_for_user_id` yields is by that user, with that user's key id, no boosted post and no last post time |
| Get.BoostTargets | ferri-main/src/types/get.rs:455-457 | the recursive step only reaches stored posts |
| Get.BoostStep | ferri-main/src/types/get.rs:455-457 | the recursive step only reaches stored posts |
| Get.BoostIdsClosed | ferri-main/src/types/get.rs:442-458 | the boost rows of `WITH RECURSIVE` are closed under the recursive step |
| Get.BoostIdsLeast | ferri-main/src/types/get.rs:442-458 | and they are the least such set: any set closed under the step holds them all |
| Get.BoostTargetsMono | ferri-main/src/types/get.rs:455-457 | reaching from more posts reaches at least as many |
| Get.Selected | ferri-main/src/types/get.rs:463-466 | the result set holds exactly the stored posts whose id the recursion reached |
| Get.Tag | ferri-main/src/types/get.rs:446-455 | every row of a part of the union carries that part's `is_boost_source` flag |
| Get.Entry | ferri-main/src/types/get.rs:475-492 | one row of the assembly: the post with its own id; it carries a boosted post exactly when the row boosts one, taken from the same result set, carrying no boost itself; a boost absent from the result set is the `find(…).unwrap()` panic |
| Get.AssembleEntry | ferri-main/src/types/get.rs:476-492 | the body of the loop for one row computes exactly `Entry` |
| Get.Assemble | ferri-main/src/types/get.rs:474-499 | the loop over the result set yields exactly the entries of the rows not flagged as boost sources, stopping at the first panic |
| Get.HomeTimeline | ferri-main/src/types/get.rs:381-500 | `home_timeline` is the assembly of the recursive query's rows |
| Get.EmitsInOrder | ferri-main/src/types/get.rs:494-496 | only rows not flagged as boost sources are emitted, in the order of the result set |
| Get.TimelineOnlyFollowed | ferri-main/src/types/get.rs:446-453 | every emitted post is a stored post of a user the actor follows |
| Get.PanicsOnMissingBoost | ferri-main/src/types/get.rs:489 | a row, flagged or not, that boosts a post missing from the result set makes the whole read panic |
| Get.BoostsNestOnce | ferri-main/src/types/get.rs:483-491 | an emitted boost carries its boosted post from the same result set, and that post carries no boost of its own |
| Convert.ActorToAp | ferri-main/src/types/convert.rs:7-17 | a store actor becomes the ActivityStreams actor with the standard context and the same id, inbox and outbox |
| Convert.ActorToDb | ferri-main/src/types/convert.rs:20-28 | an ActivityStreams actor becomes the store actor with the same id, inbox and outbox |
| Convert.ActorRoundTrip | ferri-main/src/types/convert.rs:7-28 | store to ActivityStreams and back is the identity |
| Convert.ActorRoundTripAp | ferri-main/src/types/convert.rs:7-28 | ActivityStreams to store and back is the identity exactly when the actor carried the standard context |
| Convert.AccountOf | ferri-main/src/types/convert.rs:30-61 | a user becomes the client account with its id, username, acct, display name and URL, never locked nor a bot, no counters, the shared picture, and a last status time exactly when the user has posted |
| Convert.AccountTimesParse | ferri-main/src/types/convert.rs:41-55 | the account's creation and last status times read back as the user's own instants |
| Convert.UserUri | ferri-main/src/types/convert.rs:68 | a local user's URL is `https://ferri.amy.mov/users/` followed by the user id, which stripping that base gives back |
| Convert.UserUriInjective | ferri-main/src/types/convert.rs:67 | distinct user ids give distinct profile URLs |
| Convert.PersonOf | ferri-main/src/types/convert.rs:63-84 | a user becomes the Person with the standard context, id, following, followers, inbox and outbox built from the user id, preferred username the display name, name the username, summary `ferri <username>` and the key `<id>#main-key` owned by the user URL |
| Convert.UserUriHost | ferri-main/src/types/convert.rs:68 | a user URL is on `ferri.amy.mov` when the id keeps to path characters |
| Convert.PersonOfIsLocal | ferri-main/src/types/convert.rs:63-84 | the Person served for a local user is classified as local, known by its display name |
| Activity.ToRaw | ferri-main/src/ap/activity.rs:17-24 | `to_raw` names Follow, Accept and Create by their ActivityStreams type and only `Unknown` as `FIXME` |
| Activity.ToRawInjective | ferri-main/src/ap/activity.rs:17-24 | distinct activity types get distinct names |
| Activity.Default | ferri-main/src/ap/activity.rs:37-47 | the default activity has an empty id, type `Unknown`, the default object, empty `to` and `cc`, and is published at the current time |
| Activity.Save | ferri-main/src/ap/activity.rs:60-76 | `save` appends exactly the row (id, type name, target actor id) when the id is not stored, and otherwise the insert fails and the store is left as it was |
| Activity.SaveRowOfDefault | ferri-main/src/ap/activity.rs:37-47 | a default activity saved stores an empty id and the type `FIXME` |
| Activity.RawOf | ferri-main/src/ap/activity.rs:108-115 | the wire form carries the ActivityStreams context, the activity's id, type name and object, and the owner's actor id as actor |
| Activity.RawOfPublished | ferri-main/src/ap/activity.rs:114 | the wire form's `published` reads back as the activity's instant |
| Activity.Post | ferri-main/src/ap/activity.rs:105-136 | `post` panics at `into_url` exactly when the target inbox is not a URL; otherwise it sends one POST to that inbox carrying the JSON of the wire form, signed by the activity's key, whose Digest matches its body, and it runs to its end exactly when the remote answers that POST (the unwrapped `send` and `text` panic otherwise) |
| ApPost.UriOf | ferri-main/src/ap/post.rs:43-49 | a post URI starts with `https://ferri.amy.mov/users/` |
| ApPost.UriOfParts | ferri-main/src/ap/post.rs:43-49 | a post URI is `users/<user>/posts/<post>`, from which the user and post ids are read back |
| ApPost.UriOfInjective | ferri-main/src/ap/post.rs:43-49 | distinct (user, post) pairs get distinct URIs |
| ApPost.Post.FromParts | ferri-main/src/ap/post.rs:20-29 | `from_parts` holds the given id, content, author and time with no recipients |
| ApPost.Post.Uri | ferri-main/src/ap/post.rs:43-49 | the post's URI is built from its author's id and its own |
| ApPost.Post.To | ferri-main/src/ap/post.rs:74-77 | `to` appends one recipient to `to` and changes nothing else |
| ApPost.Post.Cc | ferri-main/src/ap/post.rs:79-82 | `cc` appends one recipient to `cc` and changes nothing else |
| ApPost.Post.ToAp | ferri-main/src/ap/post.rs:84-94 | `to_ap` is the Note with the ActivityStreams context, the post's URI as id, its content and recipients, and a time that reads back as the post's instant |
| ApPost.Post.Save | ferri-main/src/ap/post.rs:51-72 | `save` appends the post row exactly when neither its id nor its URI is stored, and otherwise leaves the store as it was |
| ApUser.UserFrom | ferri-main/src/ap/user.rs:58-81 | a user read is a stored user row the query selects, joined to its stored actor; there is none exactly when no such row has its actor stored |
| ApUser.LookupsMatch | ferri-main/src/ap/user.rs:58-137 | `from_id`, `from_username` and `from_actor_id` return a user with the id, username or actor id asked for |
| ApUser.FromActorIdFinds | ferri-main/src/ap/user.rs:111-137 | a stored user whose actor is stored is found by its actor id |
| ApUser.Uri | ferri-main/src/ap/user.rs:54-56 | a user's URI is `https://ferri.amy.mov/users/` followed by the user's id, which stripping that base gives back |
| ApUser.UriInjective | ferri-main/src/ap/user.rs:54-56 | users with distinct ids have distinct URIs |
| ApTypes.RemoteInfoOf | ferri-main/src/types/ap.rs:196-213 | `remote_info` panics exactly when the id has no host; the person is remote exactly when the host is not `ferri.amy.mov`; the acct starts with the preferred username and the web URL with `https://ferri.amy.mov/` |
| ApTypes.RemoteAcctSplits | ferri-main/src/types/ap.rs:200-201 | a remote acct is `<preferred_username>@<host>` and splits back into the two |
| ApTypes.LocalAcctBare | ferri-main/src/types/ap.rs:202-203 | a local acct is the preferred username alone, without `@` |
| ApTypes.WebUrlNamesAcct | ferri-main/src/types/ap.rs:206 | the web URL is `https://ferri.amy.mov/` followed by the acct, in both cases |
| ApTypes.RemoteInfoDependsOnHost | ferri-main/src/types/ap.rs:197-204 | classification depends only on the host and the preferred username, never on scheme, port, path or `name` |
| ApTypes.LocalInAnyCase | ferri-main/src/types/ap.rs:197-204 | a Person whose id is `https://` on `ferri.amy.mov`, with scheme and host written in any letter case, is local, with its preferred username as acct |
| DbTypes.KeyIdFor | ferri-main/src/federation/inbox.rs:24-26 | a key id starts with `https://ferri.amy.mov/users/` |
| DbTypes.KeyIdForRecovers | ferri-main/src/types/get.rs:109-112 | the key id is `https://ferri.amy.mov/users/<id>#main-key`, from which the id is read back |
| DbTypes.KeyIdForInjective | ferri-main/src/federation/inbox.rs:24-26 | distinct users get distinct key ids |
| Http.DigestValue | ferri-main/src/ap/http.rs:128-133 | the digest is `SHA-256=` followed by the base64 of the SHA-256 of the body |
| Http.SignGetReadsBack | ferri-main/src/ap/http.rs:85-116 | the GET signature carries the IMF-fixdate of the current time; its signing string splits into exactly `(request-target): get <path>`, `host: <host>`, `date: <date>`; its Signature header parses back to the key id, `rsa-sha256`, the list `(request-target) host date` and the base64 of the RSA signature of that string |
| Http.SignPostReadsBack | ferri-main/src/ap/http.rs:118-159 | the POST signature carries the date and `SHA-256=` plus the base64 of the body's SHA-256; its signing string splits into the three GET lines with `post` followed by `digest: <digest>`; its Signature header parses back to the key id, `rsa-sha256`, the list `(request-target) host date digest` and the signature of that string |
| Http.Lookup | ferri-main/src/ap/http.rs:69-79 | the value belongs to a header of that name that comes before every other header of that name; none exactly when no header has the name |
| Http.LookupFinds | ferri-main/src/ap/http.rs:69-79 | every header present is found by its name |
| Http.RequestBuilder.constructor | ferri-main/src/ap/http.rs:175-191 | a new builder holds the verb and URL, an empty body and no headers |
| Http.RequestBuilder.Json | ferri-main/src/ap/http.rs:46-51 | `json` sets the body and the payload to the serialised value and changes nothing else |
| Http.RequestBuilder.Activity | ferri-main/src/ap/http.rs:53-58 | `activity` appends the `Content-Type` and `Accept` headers `application/activity+json` and changes nothing else |
| Http.RequestBuilder.Sign | ferri-main/src/ap/http.rs:65-83 | `sign` panics exactly when the URL has no host; otherwise it appends Date and Signature on GET, and Date, Digest and Signature on POST, computed over the body as it stands, and changes nothing else |
| Http.IntoUrl | ferri-main/src/ap/http.rs:178-187 | a URL the client accepts has a host |
| Http.HttpClient.constructor | ferri-main/src/ap/http.rs:169-173 | a new client has sent nothing |
| Http.HttpClient.Open | ferri-main/src/ap/http.rs:175-191 | `get` and `post` panic on a target that is not a URL; otherwise they start a builder for it with an empty body and no headers |
| Http.HttpClient.Send | ferri-main/src/ap/http.rs:60-63 | `send` appends exactly the built request to what the client has sent |
| Http.GetSigningStringLines | ferri-main/src/ap/http.rs:100-103 | the GET signing string is exactly the three lines `(request-target): get <path>`, `host: <host>`, `date: <date>` |
| Http.PostSigningStringLines | ferri-main/src/ap/http.rs:142-145 | the POST signing string is exactly those lines followed by `digest: <digest>` |
| Http.GetHeaderList | ferri-main/src/ap/http.rs:107 | the GET header list names `(request-target)`, `host` and `date` |
| Http.PostHeaderList | ferri-main/src/ap/http.rs:149 | the POST header list ends in `digest` |
| Http.ParseParamOf | ferri-main/src/ap/http.rs:106-110 | a header parameter parses back to its name and value |
| Http.ParseParamsOf | ferri-main/src/ap/http.rs:106-110 | a list of parameters parses back to the headers it came from |
| Http.ParseSignatureHeaderOf | ferri-main/src/ap/http.rs:106-152 | a Signature header parses back to its key id, header list and signature |
| Http.SignedHeaderNames | ferri-main/src/ap/http.rs:65-83 | `sign` adds only Date and Signature on GET, and Date, Digest and Signature on POST, the Digest being that of the body |
| Http.SignaturesIgnoreQuery | ferri-main/src/ap/http.rs:88-123 | the signature covers only the host and `url.path()`: URLs differing only in their query are signed alike |
| Http.PostActivityAsWritten | ferri-main/src/federation/http.rs:82-109 | `post_activity` as written signs before `json`: the POST it sends carries a Digest over the empty body but the activity as payload; it panics exactly when the inbox is not a URL, and returns `Ok` exactly when the POST went out and the remote answered it with a readable body |
| Http.PostActivityDigestMismatch | ferri-main/src/federation/http.rs:89-91 | that request's Digest matches its payload only when the digest of the empty body equals that of the activity |
| Http.PostActivityDigestMismatchExample | ferri-main/src/federation/http.rs:89-91 | a digest function that tells the empty body from `{}` makes the as-written request fail its digest check |
| Http.PostActivity | ferri-main/src/federation/http.rs:82-109 | `post_activity` with `json` before `sign`: one POST to the inbox carrying the activity, whose Digest matches the payload; it panics exactly when the inbox is not a URL, and returns `Ok` exactly when the remote answered the POST |
| Http.Deliver | ferri-main/src/federation/http.rs:82-109 | one request exactly when the inbox is a URL: a POST to it carrying the body |
| Http.DeliverSigned | ferri-main/src/federation/http.rs:82-109 | a delivered request's Digest matches its body and its Signature is that of the POST form over the inbox's host and path |
| Http.PostHeadersFound | ferri-main/src/ap/http.rs:76-79 | the Digest and Signature that `sign` adds are found by name |
| Http.PreambleSkipped | ferri-main/src/ap/http.rs:53-58 | the headers `activity` adds do not hide any signed header |
| Http.SignedGet | ferri-main/src/federation/http.rs:32-46 | the GET of `get_person` and `get_note`: signed before `activity`, so the request carries Date and Signature then the ActivityPub headers and no body; it panics exactly when the target is not a URL |
| Fetch.PersonAt | ferri-main/src/federation/http.rs:74-76 | a target that is not a URL yields no Person |
| Fetch.NoteAt | ferri-main/src/federation/http.rs:78-80 | a target that is not a URL yields no Note |
| Fetch.GetOf | ferri-main/src/federation/http.rs:40-46 | one request exactly when the target is a URL: a GET to it with no body |
| Fetch.GetOfSigned | ferri-main/src/federation/http.rs:40-46 | that GET carries the signature of the GET form over the target's host and path |
| Fetch.GetPerson | ferri-main/src/federation/http.rs:74-76 | `get_person` sends the signed GET and yields exactly the Person the remote serves there, or none |
| Fetch.GetNote | ferri-main/src/federation/http.rs:78-80 | `get_note` sends the signed GET and yields exactly the Note the remote serves there, or none |
| Time.Pad | ferri-main/src/ap/http.rs:98 | a zero-padded field has exactly its width and only digits |
| Time.DigitsValuePad | ferri-main/src/ap/http.rs:98 | a zero-padded field reads back as its value |
| Time.ParseRfc3339 | ferri-main/src/types/get.rs:16-17 | an RFC 3339 time read and converted to UTC is a valid date and time |
| Time.ParseSqlite | ferri-main/src/types/get.rs:11-14 | a naive SQLite time read as UTC is valid and whole to the second |
| Time.Shift | ferri-main/src/types/get.rs:16-17 | moving a time by an offset keeps it valid and keeps seconds and fractions |
| Time.ShiftBack | ferri-main/src/types/get.rs:16-17 | converting to UTC and back by the same offset is the identity |
| Time.PrevNextDay | ferri-main/src/types/get.rs:16-17 | the day before the day after is the same day |
| Time.NextPrevDay | ferri-main/src/types/get.rs:16-17 | the day after the day before is the same day |
| Time.ParseRfc3339Of | ferri-main/src/types/make.rs:5 | `to_rfc3339` reads back as the same instant |
| Time.ParseSqliteOf | ferri-main/src/types/get.rs:72 | what `datetime()` writes reads back as the instant truncated to the second |
| Time.ParseSqliteRejectsRfc3339 | ferri-main/src/types/get.rs:11-18 | an RFC 3339 string is not read by the naive form, so `parse_ts` falls through to RFC 3339 |
| Time.Weekday | ferri-main/src/ap/http.rs:98 | the weekday of a valid date is one of seven |
| Time.WeekdayExamples | ferri-main/src/ap/http.rs:98 | `%a` gives Wed for 2025-01-01, Sat for 2000-01-01 and Thu for 2024-02-29 |
| Time.ImfFixdateOneLine | ferri-main/src/ap/http.rs:98 | an IMF-fixdate holds no line break, so the `date` line of a signing string stays one line |
| Text.StripPrefix | ferri-server/src/endpoints/well_known.rs:27 | `strip_prefix` succeeds exactly when the prefix is there, and leaves the rest |
| Text.SplitOnce | ferri-server/src/endpoints/well_known.rs:28 | `split_once` succeeds exactly when the separator occurs, splitting at its first occurrence |
| Text.Split | ferri-main/src/ap/http.rs:100-103 | the pieces of a split contain no separator |
| Text.JoinSplit | ferri-main/src/ap/http.rs:100-103 | joining the pieces of a split gives back the string |
| Text.SplitJoin | ferri-main/src/ap/http.rs:100-103 | splitting pieces without separators joined by it gives back the pieces |
| Text.Trim | ferri-server/src/lib.rs:56-59 | `trim` removes exactly the leading and trailing whitespace |
| Text.TrimTrimmed | ferri-server/src/lib.rs:56-59 | a string without outer whitespace is its own trim |
| Text.TrimSpaceFirst | ferri-server/src/lib.rs:56-59 | a leading space does not change the trim |
| Url.Parse | ferri-main/src/types/ap.rs:197 | a parsed URL has a valid scheme (a letter, then letters, digits, `+`, `-`, `.`) read in lower case; a port, when kept, is at most 65535; a special scheme has a non-empty host, written in lower case, and no port equal to the scheme's default |
| Url.Host | ferri-main/src/types/ap.rs:197-198 | a string has a host exactly when it parses as a URL with one |
| Url.ParseRender | ferri-main/src/types/ap.rs:197 | a well-formed URL renders to a string that parses back to it |
| Url.HostRender | ferri-main/src/types/ap.rs:197-198 | the host of a rendered URL is its host |
| Url.HostOfHttps | ferri-main/src/types/ap.rs:197-198 | the host of `https://<host><path>` is `<host>` in lower case |
| Url.LowerKeeps | ferri-main/src/types/ap.rs:197-198 | a host already in lower case is kept as it is |
| Url.SchemeCaseIgnored | ferri-main/src/types/ap.rs:197 | a URL reads exactly as it does with its scheme in lower case |
| Url.HostOfHttpsAnyCase | ferri-main/src/types/ap.rs:197-198 | the host of `https://<host><path>`, whatever the case of the scheme, is `<host>` in lower case |
| Url.SlashesOptional | ferri-main/src/types/ap.rs:197 | `http:` and `https:` read their authority with or without the `//` |
| Url.BadPortFails | ferri-main/src/types/ap.rs:197 | a port that is not decimal digits, or whose value exceeds 65535, makes the URL fail to parse, so `unwrap` panics |
| FedInbox.KeyIdOfStored | ferri-main/src/federation/inbox.rs:24-26 | `key_id` of a stored user is the key id the user read carries |
| FedInbox.Fetches | ferri-main/src/federation/inbox.rs:38-40 | at most one GET per URL fetched |
| FedInbox.FetchesOne | ferri-main/src/federation/inbox.rs:40 | fetching one URL sends its GET |
| FedInbox.FetchesCons | ferri-main/src/federation/inbox.rs:166-181 | fetching in sequence sends the GETs in that order |
| FedInbox.ByActorUriMatches | ferri-main/src/federation/inbox.rs:103 | `user_by_actor_uri` returns a user of that actor |
| FedInbox.AuthorFrame | ferri-main/src/federation/inbox.rs:93-130 | storing a fetched author writes only the actor and user tables, only appends, draws at most one id, and leaves the actor stored and, when it succeeds, a user for that actor |
| FedInbox.AuthorKeepsPosts | ferri-main/src/federation/inbox.rs:93-130 | storing an author leaves the post table alone |
| FedInbox.StoreAuthor | ferri-main/src/federation/inbox.rs:93-130 | `new_actor`, then `user_by_actor_uri` or a fresh user built from the Person, then `new_user`: the store, the generator and the user are exactly those `AuthorEffect` gives |
| FedInbox.AttachmentsFor | ferri-main/src/federation/inbox.rs:132-144 | one attachment per attachment of the note |
| FedInbox.MapAttachments | ferri-main/src/federation/inbox.rs:132-144 | the attachment `map` draws one fresh id per attachment, in order, and yields exactly `AttachmentsFor` |
| FedInbox.StoreFollow | ferri-main/src/federation/inbox.rs:42-70 | the Follow arm's writes leave exactly the store, generator and queued message `FollowWrites` gives |
| FedInbox.HandleFollow | ferri-main/src/federation/inbox.rs:36-77 | the Follow arm fetches the follower with the followed user's key and leaves exactly the state, outcome and message `FollowEffect` gives |
| FedInbox.StoreNote | ferri-main/src/federation/inbox.rs:146-158 | building and storing the post leaves exactly what `NoteWrites` gives |
| FedInbox.Stamp | ferri-main/src/federation/inbox.rs:87-89 | the timestamp reads exactly when it is RFC 3339 |
| FedInbox.StoreCreate | ferri-main/src/federation/inbox.rs:85-158 | the Create arm's writes leave exactly what `CreateWrites` gives |
| FedInbox.HandleCreate | ferri-main/src/federation/inbox.rs:78-159 | the Create arm fetches the author with the user's key, leaves exactly what `CreateEffect` gives and queues nothing |
| FedInbox.SavePost | ferri-main/src/federation/inbox.rs:330 | `new_post` of the base note leaves exactly what `PostWrites` gives |
| FedInbox.StoreBase | ferri-main/src/federation/inbox.rs:267-330 | the booster's actor, user and base note writes leave exactly what `BaseWrites` gives |
| FedInbox.StoreBoostNote | ferri-main/src/federation/inbox.rs:191-265 | the boosted note's author and post writes leave exactly what `BoostNote` gives |
| FedInbox.StoreNoteAfterAuthor | ferri-main/src/federation/inbox.rs:234-265 | the boosted post built after its author leaves exactly what `NoteAfterAuthor` gives |
| FedInbox.StoredAs | ferri-main/src/federation/inbox.rs:191-265 | the boosted post as stored keeps its URI and, once that URI is stored, has a stored id |
| FedInbox.StoreBoost | ferri-main/src/federation/inbox.rs:191-330 | the Boost arm's writes, with the base note's `boosted_post` being the id drawn for the boosted note as the code writes it, leave exactly what `BoostWrites` gives |
| FedInbox.BoostGets | ferri-main/src/federation/inbox.rs:166-181 | the Boost arm fetches the booster first, then at most the note and its author |
| FedInbox.BoostFetched | ferri-main/src/federation/inbox.rs:166-183 | the Boost arm goes on only with the booster, the note, a note author that is attributed and fetched, and both classified |
| FedInbox.FetchBoost | ferri-main/src/federation/inbox.rs:166-183 | the Boost arm's fetches send exactly its GETs in order and yield exactly `BoostFetched` |
| FedInbox.HandleBoost | ferri-main/src/federation/inbox.rs:163-331 | the Boost arm leaves exactly what `BoostEffect` gives, queues nothing, and sends its GETs with the target's key |
| FedInbox.OutcomeOf | ferri-main/src/federation/inbox.rs:76 | an arm that panics ends in a panic; the queue send blocks only on a full outbound queue; an arm with nothing to queue ends normally |
| FedInbox.FollowAndSend | ferri-main/src/federation/inbox.rs:36-77 | the Follow arm, then `outbound.send`: the store, generator and wire are `FollowEffect`'s, the Accept is appended exactly when the arm ends normally with one, and the channel invariant is kept |
| FedInbox.Handle | ferri-main/src/federation/inbox.rs:28-333 | `handle_inbox_request`: each arm leaves exactly what `InboxEffect` gives; Delete and Like change nothing; the outbound queue grows only by the arm's message when it ends normally |
| FedInbox.CreateArm | ferri-main/src/federation/inbox.rs:78-159 | the Create arm as dispatched queues nothing |
| FedInbox.BoostArm | ferri-main/src/federation/inbox.rs:163-331 | the Boost arm as dispatched queues nothing |
| FedInbox.FollowStores | ferri-main/src/federation/inbox.rs:42-76 | the Follow arm stores the follower's actor; it queues an Accept exactly when the fresh `/activities/` follow id is not stored, and then it has appended one follow row holding the follower in both columns, drawn two ids, and its Accept carries the second id, the incoming activity as object, the followed actor, the followed user's key and the follower as target |
| FedInbox.OnlyFollowQueues | ferri-main/src/federation/inbox.rs:32-332 | only a Follow queues anything, and what it queues is an outbound Accept |
| FedInbox.AuthorKeepsValid | ferri-main/src/federation/inbox.rs:93-130 | storing an author keeps every unique key unique |
| FedInbox.CreateStores | ferri-main/src/federation/inbox.rs:78-159 | a Create whose timestamp does not parse draws its id and panics with nothing written; a Create that ends normally has the author's actor, user and the note's URI stored, and a new URI gets one post row with the drawn id, the note's content and no boost |
| FedInbox.NoteKeepsValid | ferri-main/src/federation/inbox.rs:146-158 | storing a note keeps every unique key unique |
| FedInbox.BaseKeepsValid | ferri-main/src/federation/inbox.rs:267-330 | storing a base note keeps every unique key unique |
| FedInbox.HandlersKeepValid | ferri-main/src/federation/inbox.rs:28-333 | no arm breaks the uniqueness of the store's keys |
| FedInbox.FollowEffectKeepsValid | ferri-main/src/federation/inbox.rs:36-77 | the Follow arm keeps every unique key unique |
| FedInbox.CreateEffectKeepsValid | ferri-main/src/federation/inbox.rs:78-159 | the Create arm keeps every unique key unique |
| FedInbox.BoostEffectKeepsValid | ferri-main/src/federation/inbox.rs:163-331 | the Boost arm keeps every unique key unique |
| FedInbox.FollowKeepsValid | ferri-main/src/federation/inbox.rs:42-70 | the Follow writes keep every unique key unique |
| FedInbox.CreateKeepsValid | ferri-main/src/federation/inbox.rs:85-158 | the Create writes keep every unique key unique |
| FedInbox.BoostNoteKeepsValid | ferri-main/src/federation/inbox.rs:191-265 | the boosted note's writes keep every unique key unique |
| FedInbox.BoostKeepsValid | ferri-main/src/federation/inbox.rs:191-330 | the Boost writes as the code makes them keep every unique key unique |
| FedInbox.NoteRows | ferri-main/src/federation/inbox.rs:146-158 | a stored note keeps its drawn id and URI, adds at most its own row with no boost, none when the URI is stored, and its URI is stored once it succeeds |
| FedInbox.BaseRows | ferri-main/src/federation/inbox.rs:267-330 | the base note adds at most one row, and that row refers to the boosted post by the id given |
| FedInbox.BaseAfterRows | ferri-main/src/federation/inbox.rs:305-330 | after the booster is stored the base note adds at most one row referring to the boosted post |
| FedInbox.BasePostRows | ferri-main/src/federation/inbox.rs:326-330 | `new_post` of the base note adds at most its own row, whose `boosted_post_id` is the boosted post's id |
| FedInbox.BaseAdded | ferri-main/src/federation/inbox.rs:314-330 | a base note whose fresh URI is not stored is written |
| FedInbox.BoostNoteRows | ferri-main/src/federation/inbox.rs:191-265 | the boosted note adds at most one row without a boost, none when its URI is stored, and a boosted post carrying a drawn id and the note's URI, whose URI is then stored |
| FedInbox.NoteAfterAuthorRows | ferri-main/src/federation/inbox.rs:234-265 | after its author, the boosted note adds at most one plain row; the post it yields has the next drawn id and the note's URI, which is then stored |
| FedInbox.BoostHalves | ferri-main/src/federation/inbox.rs:191-330 | a Boost is the boosted note's writes followed by the base note's, the base note referring to the id drawn for the boosted note (as written) or to the boosted post as stored (corrected) |
| FedInbox.ResolveChain | ferri-main/src/federation/inbox.rs:265-330 | a plain row then a row referring to a stored post keep every boost resolvable |
| FedInbox.DangleChain | ferri-main/src/federation/inbox.rs:265-330 | a row referring to an id nowhere stored leaves a dangling boost |
| FedInbox.BoostResolves | ferri-main/src/federation/inbox.rs:191-330 | with the corrected writes, whose base note refers to the boosted post as stored, every stored boost refers to a stored post after a Boost |
| FedInbox.BoostDangles | ferri-main/src/federation/inbox.rs:253-330 | as written, a Boost of a note whose URI is already stored succeeds yet leaves a base note referring to a post id that is not stored |
| ServerInbox.PersonAt | ferri-server/src/endpoints/inbox.rs:93-101 | a target that is not a URL yields no Person |
| ServerInbox.NoteAt | ferri-server/src/endpoints/inbox.rs:152-161 | a target that is not a URL yields no Note |
| ServerInbox.FetchOf | ferri-server/src/endpoints/inbox.rs:93-101 | one GET exactly when the target is a URL, with no body; an unsigned fetch carries only the ActivityPub headers |
| ServerInbox.FetchSigned | ferri-server/src/endpoints/inbox.rs:152-161 | a signed fetch carries the signature of the GET form over the target's host and path |
| ServerInbox.Fetch | ferri-server/src/endpoints/inbox.rs:93-101 | a fetch panics exactly when the target is not a URL, and sends exactly `FetchOf` |
| ServerInbox.CreateActor | ferri-server/src/endpoints/inbox.rs:21-39 | `create_actor` is insert-or-ignore on the actor id: a new actor appends one row with the Person's inbox and outbox, a stored one leaves the store as it was, and only the actor table changes |
| ServerInbox.CreateUser | ferri-server/src/endpoints/inbox.rs:41-66 | `create_user` panics with no id drawn when the actor URI has no host; otherwise it draws one id; an actor already with a user leaves the store as it was; else it succeeds exactly when the drawn id is free and appends the user `<name>@<host>` with the preferred username as display name |
| ServerInbox.CreateFollow | ferri-server/src/endpoints/inbox.rs:68-85 | `create_follow` is insert-or-ignore on the activity id, storing follower = actor and followed = object |
| ServerInbox.BoostInserts | ferri-server/src/endpoints/inbox.rs:210-227 | the two boost inserts only append to the post table |
| ServerInbox.BoostStore | ferri-server/src/endpoints/inbox.rs:201-227 | the boost writes after the users are stored only append to the post table |
| ServerInbox.BoostWrites | ferri-server/src/endpoints/inbox.rs:189-227 | the boost writes send nothing |
| ServerInbox.BoostTail | ferri-server/src/endpoints/inbox.rs:201-227 | the boost writes after the lookups send nothing |
| ServerInbox.RouteOf | ferri-server/src/endpoints/inbox.rs:290-315 | the type string routes `Delete`, `Follow`, `Create`, `Like` and `Announce` to their handlers and anything else to the unknown arm |
| ServerInbox.CreateActorStep | ferri-server/src/endpoints/inbox.rs:21-39 | the statement leaves exactly the store `CreateActor` gives |
| ServerInbox.CreateUserStep | ferri-server/src/endpoints/inbox.rs:41-66 | the statement leaves exactly the store, generator and outcome `CreateUser` gives |
| ServerInbox.RegisterStep | ferri-server/src/endpoints/inbox.rs:103-104 | `create_actor` then `create_user` leave exactly what `Register` gives |
| ServerInbox.FollowWritesStep | ferri-server/src/endpoints/inbox.rs:103-128 | the Follow handler's writes and post leave exactly what `FollowWrites` gives |
| ServerInbox.FollowAcceptStep | ferri-server/src/endpoints/inbox.rs:107-128 | the lookups, Accept save and post leave exactly what `FollowAccept` gives |
| ServerInbox.SendAcceptStep | ferri-server/src/endpoints/inbox.rs:111-128 | building, saving and posting the Accept leaves exactly what `SendAccept` gives |
| ServerInbox.HandleFollow | ferri-server/src/endpoints/inbox.rs:87-129 | `handle_follow_activity` leaves exactly the store, generator, wire and outcome `FollowEffect` gives |
| ServerInbox.HandleCreate | ferri-server/src/endpoints/inbox.rs:231-280 | `handle_create_activity` leaves exactly what `CreateEffect` gives |
| ServerInbox.CreateStoreStep | ferri-server/src/endpoints/inbox.rs:249-279 | the Create handler's writes leave exactly what `CreateStore` gives |
| ServerInbox.BoostTailStep | ferri-server/src/endpoints/inbox.rs:201-227 | the lookups and the two inserts leave exactly what `BoostTail` gives |
| ServerInbox.BoostWritesStep | ferri-server/src/endpoints/inbox.rs:189-227 | the four registrations and the inserts leave exactly what `BoostWrites` gives |
| ServerInbox.BoostPeopleStep | ferri-server/src/endpoints/inbox.rs:164-227 | fetching the two people and writing leaves exactly what `BoostPeople` gives |
| ServerInbox.HandleBoost | ferri-server/src/endpoints/inbox.rs:145-229 | `handle_boost_activity` leaves exactly what `BoostEffect` gives |
| ServerInbox.Inbox | ferri-server/src/endpoints/inbox.rs:282-319 | `inbox` leaves exactly the store, generator, wire and outcome `InboxEffect` gives |
| ServerInbox.RegisterKeepsValid | ferri-server/src/endpoints/inbox.rs:103-104 | registering an actor and user keeps every unique key unique and touches only those tables |
| ServerInbox.BoostInsertsRows | ferri-server/src/endpoints/inbox.rs:210-227 | the two inserts succeed together appending the reblog row (the note's URI, by its author) and the base row (by the booster, boosting it); a known note URI makes the first fail with nothing written; they keep every key unique |
| ServerInbox.BoostUnfold | ferri-server/src/endpoints/inbox.rs:145-227 | a boost either stops before its inserts with no post written, or reaches them after storing only people |
| ServerInbox.BoostEarly | ferri-server/src/endpoints/inbox.rs:152-185 | a missing note, attribution, author or booster panics with nothing written |
| ServerInbox.BoostLate | ferri-server/src/endpoints/inbox.rs:152-185 | with everything fetched, the boost is its writes |
| ServerInbox.BoostWritesUnfold | ferri-server/src/endpoints/inbox.rs:189-202 | the writes either stop before the inserts or reach them with both users found |
| ServerInbox.BoostTailInserts | ferri-server/src/endpoints/inbox.rs:201-227 | the inserts use two fresh ids, the author's and the booster's user ids and the current time |
| ServerInbox.BoostStoresPair | ferri-server/src/endpoints/inbox.rs:210-227 | a boost that ends normally has fetched the note and appended the reblog and base rows for it |
| ServerInbox.BoostKeepsResolved | ferri-server/src/endpoints/inbox.rs:221-227 | the base row refers to the reblog row just written: every stored boost stays resolvable |
| ServerInbox.BoostInsertsResolve | ferri-server/src/endpoints/inbox.rs:210-227 | the two inserts keep every stored boost resolvable |
| ServerInbox.BoostRedeliveryPanics | ferri-server/src/endpoints/inbox.rs:210-216 | a boost of a note whose URI is stored panics on the first insert, leaving the posts as they were |
| ServerInbox.AcceptForFacts | ferri-server/src/endpoints/inbox.rs:111-127 | the Accept answers the Follow's id, is by the followed actor, has a fresh `/activities/` id, is saved as (id, `Accept`, follower actor), goes to the follower, and is signed with a key id built from the followed user's username, not its id |
| ServerInbox.FollowUnfold | ferri-server/src/endpoints/inbox.rs:87-129 | the Follow handler either stops early, keeping posts, or registers and stores the follow, finds both users, draws the Accept id, saves it and posts it after the GET, finishing exactly when the follower's server answers that POST |
| ServerInbox.FollowWritesUnfold | ferri-server/src/endpoints/inbox.rs:103-128 | after the GET, the writes register, store the follow, find both users and send the Accept |
| ServerInbox.RegisterFollow | ferri-server/src/endpoints/inbox.rs:103-105 | registering draws one id and leaves posts and activities alone; the follow is stored unless its id was |
| ServerInbox.FollowAcceptUnfold | ferri-server/src/endpoints/inbox.rs:107-128 | the two lookups either fail or lead to sending the Accept |
| ServerInbox.FollowRecords | ferri-server/src/endpoints/inbox.rs:87-129 | a Follow that ends normally draws two ids, leaves posts alone, has the follow stored and appends the one Accept row |
| ServerInbox.FollowPostsAccept | ferri-server/src/endpoints/inbox.rs:87-129 | a Follow that ends normally sends exactly the unsigned GET of the follower then one POST of the Accept to the follower's inbox, whose Digest matches |
| ServerInbox.FollowFinishedAccept | ferri-server/src/endpoints/inbox.rs:93-128 | a Follow that ends normally fetched the follower, registered it and sent the Accept |
| ServerInbox.FollowAcceptPosts | ferri-server/src/endpoints/inbox.rs:107-128 | a finished Accept step posted exactly one request, to the follower's inbox, carrying the Accept with a matching Digest, and the follower's server answered it |
| ServerInbox.CreateStoresPost | ferri-server/src/endpoints/inbox.rs:231-280 | a Create that ends normally is of a Note, draws two ids and appends one post row with the activity id as URI, the note's content, the local time and no boost, by the stored user of the actor |
| ServerInbox.CreateKnownUriPanics | ferri-server/src/endpoints/inbox.rs:266-279 | a Create whose URI is stored panics on the insert, leaving the posts as they were |
| ServerInbox.CreateKeepsValid | ferri-server/src/endpoints/inbox.rs:231-280 | a Create keeps every unique key unique |
| ServerInbox.CreateKeepsResolved | ferri-server/src/endpoints/inbox.rs:266-279 | a Create keeps every stored boost resolvable |
| ServerInbox.FollowKeepsValid | ferri-server/src/endpoints/inbox.rs:87-129 | a Follow keeps every unique key unique and the posts as they were |
| ServerInbox.BoostKeepsValid | ferri-server/src/endpoints/inbox.rs:145-229 | a Boost keeps every unique key unique |
| ServerInbox.InboxDispatch | ferri-server/src/endpoints/inbox.rs:282-319 | a body that does not parse panics with nothing done; Delete and Like change nothing and panic only when their body does not parse; an unknown type is logged and changes nothing; Follow, Create and Announce run their handlers on the parsed body |
| ServerInbox.InboxKeepsInvariants | ferri-server/src/endpoints/inbox.rs:282-319 | every request to the inbox keeps every unique key unique and every stored boost resolvable |
| Timeline.RecordsOf | ferri-server/src/endpoints/api/timeline.rs:75-80 | each part of the union yields rows of stored posts, with that part's flag, joined to their users |
| Timeline.Entry | ferri-server/src/endpoints/api/timeline.rs:89-136 | one record never fails; it panics exactly when it boosts a post missing from the result set |
| Timeline.HomeEntry | ferri-server/src/endpoints/api/timeline.rs:89-181 | the loop body for one record computes exactly `Entry` |
| Timeline.Assemble | ferri-server/src/endpoints/api/timeline.rs:88-184 | the loop over the result set yields exactly the entries of the records not flagged as boost sources, stopping at the first panic |
| Timeline.Home | ferri-server/src/endpoints/api/timeline.rs:36-185 | `home` is the assembly of the recursive query's rows for the hard-coded actor |
| Timeline.HomeInOrder | ferri-server/src/endpoints/api/timeline.rs:138-181 | only records not flagged as boost sources are emitted, in order, each with the record's id, its URI as both `uri` and `url`, its user as account id, the username as both acct and username, and the user's web URL |
| Timeline.EntryFields | ferri-server/src/endpoints/api/timeline.rs:140-180 | an emitted status carries the record's id, URI, user and username, and the user's web URL |
| Timeline.HomeReblogs | ferri-server/src/endpoints/api/timeline.rs:90-136 | an emitted status carries a reblog exactly when its record boosts a post; the reblog is the first record of that id in the result set, with its URI, content and user, no reblog of its own, and an account URL built from the booster's user id |
| Timeline.HomePanicsOnMissingBoost | ferri-server/src/endpoints/api/timeline.rs:93 | a record, flagged or not, boosting a post absent from the result set makes `home` panic |
| Timeline.HomePanicsOnDanglingBoost | ferri-server/src/endpoints/api/timeline.rs:70-93 | a stored boost whose `boosted_post` is not a stored post, as the Announce arm leaves behind, makes `home` panic once the recursion reaches it |
| Timeline.HomeOnlyFollowed | ferri-server/src/endpoints/api/timeline.rs:62-69 | every emitted status is a stored post of a user the hard-coded actor follows |
| Timeline.RowSource | ferri-server/src/endpoints/api/timeline.rs:58-80 | every row of the result set is a stored post the recursion reached |
| Timeline.HomeBoostTargetsReached | ferri-server/src/endpoints/api/timeline.rs:70-73 | the post a row boosts is itself reached by the recursion |
| OAuth.Authorize | ferri-server/src/endpoints/oauth.rs:78-103 | `authorize` rejects any response type but `code` with `unknown response type <t>`; otherwise the page for the client, redirect URI, scope and the fixed local user, whose scopes are space-free pieces that, joined with single spaces, give back the scope string |
| OAuth.AuthorizeSplitsScopes | ferri-server/src/endpoints/oauth.rs:97 | space-free scopes joined by spaces are split back into exactly those scopes |
| OAuth.AcceptEffect | ferri-server/src/endpoints/oauth.rs:30-76 | `accept` draws one or two tokens and writes only the auth and oauth tables |
| OAuth.Accept | ferri-server/src/endpoints/oauth.rs:30-76 | the two inserts leave exactly the store, token generator and page `AcceptEffect` gives |
| OAuth.AcceptStoresCode | ferri-server/src/endpoints/oauth.rs:37-75 | `accept` answers exactly when the code and the id token are both fresh, having appended the auth row (code, user) and the oauth row (id token, client, 3600, scope, code) and redirected with the code; otherwise no oauth row is written; it keeps the store valid |
| OAuth.Rewrite | ferri-server/src/endpoints/oauth.rs:156-163 | `UPDATE … WHERE access_token = code` rewrites exactly the rows holding the code, in place |
| OAuth.Revoke | ferri-server/src/endpoints/oauth.rs:165-168 | `DELETE … WHERE token = code` removes exactly the rows with that token |
| OAuth.NewToken | ferri-server/src/endpoints/oauth.rs:125-177 | the exchange leaves exactly the store, token generator and answer `NewTokenEffect` gives |
| OAuth.RevokeKeepsUnique | ferri-server/src/endpoints/oauth.rs:165-168 | deleting rows keeps the auth tokens unique |
| OAuth.AuthKeysUnique | ferri-server/src/endpoints/oauth.rs:44-45 | the auth table's only key is its token |
| OAuth.RevokeUnique | ferri-server/src/endpoints/oauth.rs:165-168 | removing rows keeps a unique key unique |
| OAuth.UniqueCons | ferri-server/src/endpoints/oauth.rs:44-45 | a row with a fresh token keeps the tokens unique |
| OAuth.RewriteKeepsUnique | ferri-server/src/endpoints/oauth.rs:156-163 | rewriting access tokens keeps the oauth keys unique |
| OAuth.NewTokenOutcome | ferri-server/src/endpoints/oauth.rs:125-177 | `new_token` answers exactly when some oauth row and some auth row hold the code and the new access token is fresh; the answer is a Bearer token with the row's expiry, scope and id token; afterwards the new token belongs to the code's user, the code is gone from both tables and every oauth row that held it holds the new token; a panic leaves the store as it was |
| OAuth.ExchangeWrites | ferri-server/src/endpoints/oauth.rs:143-168 | insert, update, delete: the new token is stored for the user, the code is gone from both tables, the oauth rows are rewritten in place, and nothing else changes |
| OAuth.AcceptThenExchange | ferri-server/src/endpoints/oauth.rs:30-177 | a code handed out by `accept` is exchanged for a Bearer token with expiry 3600, the accepted scope and the id token, and the new token belongs to the accepting user |
| Auth.BearerToken | ferri-server/src/lib.rs:56-59 | a header starting with `Bearer` yields a token no longer than the rest after the prefix; any other header is the token itself, untrimmed |
| Auth.BearerForms | ferri-server/src/lib.rs:56-59 | `Bearer <t>` and `Bearer<t>` both yield `<t>`, but a header with whitespace before `Bearer` is taken whole |
| Auth.FromRequestOutcomes | ferri-server/src/lib.rs:52-91 | no header, or a token with no auth row, answers `Unauthorized`; a success holds the token taken from the header, an auth row of that token for the user, the user with that id and key id, and the actor and display name of that user's row |
| Auth.StoredTokenSignsIn | ferri-server/src/lib.rs:52-91 | a stored token presented as `Bearer <token>` signs in its user |
| Auth.ExchangedTokenSignsIn | ferri-server/src/endpoints/oauth.rs:141-177 | the access token `new_token` hands out signs its user in |
| WellKnown.HostMetaLrdd | ferri-server/src/endpoints/well_known.rs:7-15 | host-meta's one link carries the `lrdd` template, a `{uri}` template that, filled in with `acct:<a>`, is the WebFinger endpoint queried for that resource |
| WellKnown.ResourceUser | ferri-server/src/endpoints/well_known.rs:27-28 | a resource names a user exactly when it starts with `acct:` and has an `@` after it; the name is the `@`-free text between them |
| WellKnown.ResourceUserNamed | ferri-server/src/endpoints/well_known.rs:27-28 | `acct:<name>@<host>` names `<name>` for an `@`-free name |
| WellKnown.WebfingerShape | ferri-server/src/endpoints/well_known.rs:18-52 | `webfinger` answers exactly when the resource names a user that `user_by_username` reads; the JRD echoes the resource as subject, has that stored user's ActivityPub and web URLs as aliases, and exactly the profile-page link (HTML) and the `self` link (ActivityPub JSON) |
| WellKnown.WebfingerIgnoresHost | ferri-server/src/endpoints/well_known.rs:28 | the host after `@` is never read: any host gives the same answer |
| WellKnown.WebfingerNeedsHost | ferri-server/src/endpoints/well_known.rs:28 | `acct:<name>` without a host panics |
| Apps.NewApp | ferri-server/src/endpoints/api/apps.rs:7-44 | the insert, and on a clash the read-back, leave exactly the store and reply `NewAppEffect` gives, drawing one secret |
| Apps.RegisterOutcome | ferri-server/src/endpoints/api/apps.rs:11-43 | a fresh client is appended and answered with its own scopes; a registered client leaves the store unchanged and is answered with the stored row's scopes; either way name and client id are the client name, the secret is the freshly drawn one, the redirect URIs are the request's, and the store stays valid |
| Apps.ReRegisterReportsSecret | ferri-server/src/endpoints/api/apps.rs:12-34 | registering a client name a second time answers, as its scopes, the secret of the first registration, because the insert binds the scopes into `client_secret` and the secret into `scopes` |
| Apps.ReRegisterReportsSecretExample | ferri-server/src/endpoints/api/apps.rs:12-34 | client `client` with scopes `read`, registered with secret `s1` and then again, is answered the scopes `s1` |
| Apps.ReRegisterKeepsScopes | ferri-server/src/endpoints/api/apps.rs:12-34 | with the columns bound in order, both the first and any later registration answer the requested scopes |
| Apps.FindLast | ferri-server/src/endpoints/api/apps.rs:28-31 | the row appended for a new client id is the one `SELECT … WHERE client_id` finds |
| Custom.ActorLink | ferri-server/src/endpoints/custom.rs:63-67 | the link found is the first one typed `application/activity+json`; none is found exactly when no link has that type |
| Custom.ResolveUser | ferri-server/src/endpoints/custom.rs:48-79 | a resolved Person is the one fetched from the `href` of the first ActivityPub link of the JRD the host answers for `acct:<name>` |
| Custom.FingerAccount | ferri-server/src/endpoints/custom.rs:7-46 | the two inserts leave exactly the store, id source and reply `FingerEffect` gives |
| Custom.FingerNeedsAt | ferri-server/src/endpoints/custom.rs:10 | an account without `@` panics, writing and drawing nothing |
| Custom.FingerStores | ferri-server/src/endpoints/custom.rs:7-46 | a resolved account draws one id and writes only the actor and user tables: the actor row is added unless its id is stored; a user for the actor already stored keeps the table and answers the drawn id's URL; otherwise the user `<name>@<host>` with the Person's preferred username is appended and answered, exactly when the drawn id is fresh |
| Custom.FingerUnresolved | ferri-server/src/endpoints/custom.rs:11 | an unresolved account panics, writing and drawing nothing |
| Custom.FingerKeepsValid | ferri-server/src/endpoints/custom.rs:14-43 | fingering keeps every table key unique |
| Custom.FingerUrlFollowsHostMeta | ferri-server/src/endpoints/custom.rs:50-53 | the URL `resolve_user` queries at ferri's host is the host-meta template filled in with `acct:<name>` |
| Custom.ActorLinkOfOwnHit | ferri-server/src/endpoints/custom.rs:63-67 | in a JRD that ferri answers, the ActivityPub link found is `self`, pointing at the user's ActivityPub URL |
| Custom.FingerOwnServerFails | ferri-server/src/endpoints/custom.rs:48-53 | a host that answers WebFinger as ferri does cannot resolve the host-less `acct:<name>` that `resolve_user` sends |
| Custom.FingerOwnServerWithHost | ferri-server/src/endpoints/custom.rs:48-79 | given `<name>@<host>` as the account name, a host answering as ferri resolves the user stored under `<name>` |

## Left out

- Cryptography: RSA PKCS#1 v1.5 signing, SHA-256 and base64 are uninterpreted function parameters (`Http.Primitives`). The private key file is not modelled.
- Network transport: `send`, response status and body reading are left out. A fetched document is a parameter (`Fetch.Remote`, `Custom.Network`), and a failed fetch is a `None` answer. For a POST, the remote's answer is the parameter `answers` (`FedOutbox.Env`, `ServerInbox.Env`): `false` is a failed `send` or `text`, which `post_activity` turns into `Err(LoadFailure)` and its callers' `unwrap` into a panic. The response status and the answer's text are not modelled.
- JSON: serde serialization and deserialization are parameters. A body that does not decode is a `None` answer.
- Clock: `Utc::now` and `Local::now` are a single parsed instant passed to each handler.
- Fresh ids and tokens: `new_id`, `Uuid::new_v4` and `gen_token` values come from `Oracle.Ids`. The token lengths (15 and 10 characters) are not modelled.
- Configuration: `Config::user_url` and `Config::user_web_url` are not in the revision of the configuration code that is modelled. They are the functions of a `Site.Site` value.
- SQL: the SQLite engine, the schema and the query text are not modelled. Tables are row sequences with their unique keys. A join is the first matching row, and the recursive timeline query is a least fixed point (`Get.BoostIds`).
- Database revisions: the sources come from different revisions. User columns that the older server handlers do not write are optional (`NULL`).
- Concurrency: the tokio runtime, blocking, backpressure, `tokio::spawn` and tracing spans are not modelled. The queue is modelled as a sequential FIFO of capacity 1024, and a send to a full queue answers `Full` instead of blocking (`Queue.Channel.Send`).
- Connections: the per-message database connection of an inbox request is the one shared `Store.Connection`.
- Logging: Delete, Like and Heartbeat only log, so they are modelled as doing nothing.
- Templates: the HTML login and authorize pages are not rendered. `OAuth.Authorize` returns the data the template receives, and `OAuth.Accept` returns the redirect URL.
- ferri-server/src/endpoints/custom.rs `test`: a debugging endpoint with a hard-coded user id, not modelled.
- `followers_for_user` and `following_for_user` of ferri-main/src/types/get.rs: not reached by any modelled handler, not modelled.
- ferri-server/src/endpoints/old_code.rs and ferri-main/src/types_rewrite: not compiled into the server, not modelled.
- Other endpoints with hard-coded answers (statuses, users, search, instance, preferences, admin) and the command-line bootstrap: outside the federation core, not modelled.
- Timeline order: the recursive query in ferri-server/src/endpoints/api/timeline.rs:36-76 has no `ORDER BY`, so SQLite may return its rows in any order. `Timeline.Home` fixes one: the followed users' posts in table order, then the boosted posts in table order.
- Url.Parse: the URL Standard's handling of the following is not modelled: stripping of leading and trailing spaces and control characters, removal of tabs and newlines, `\` read as `/` in special URLs, the `file` scheme's own host rules, forbidden host code points, IDNA mapping of non-ASCII hosts, percent-encoding and percent-decoding, IPv4 and IPv6 hosts, and path normalisation (`.` and `..` segments).
- Url.Parse: a non-special URL written with `//` and an empty host, such as `foo:///x`, is read as having no host, where the URL Standard gives it an empty one.
- Http.SignGetReadsBack: assumes that the base64 function yields only characters of the base64 alphabet; `Http.Primitives` leaves base64 uninterpreted.
- Http.SignPostReadsBack: assumes the same of the base64 of the body's digest and of the signature.
- Leap seconds: chrono's representation of leap seconds is not modelled. Instants are real calendar times (`Time.Instant`).

## Findings

| source | as written | input that shows it | evidently intended | confidence | as-written member | corrected member |
|---|---|---|---|---|---|---|
| ferri-main/src/federation/http.rs:82-109 | `post_activity` calls `.sign()` before `.json()`, so the `Digest` and the signature cover the empty body while the request carries the activity | any activity whose serialization hashes differently from `""`, e.g. `{}` with a SHA-256 that tells the two apart (`Http.PostActivityDigestMismatchExample`) | set the body first and then sign, as `Outbox::post` in ferri-main/src/ap/activity.rs does; the digest then matches the payload | high, not executed | Http.PostActivityAsWritten | Http.PostActivity |
| ferri-main/src/federation/inbox.rs:234-330 | the Announce arm gives the boost a `boosted_post` whose id is the one freshly drawn for the boosted note, even when `new_post` ignored that note because its URI was already stored | an Announce of a note already in the store, with fresh ids from the generator | refer to the id of the stored row that holds the note's URI | medium, not executed | FedInbox.BoostDangles | FedInbox.BoostResolves |
| ferri-server/src/endpoints/api/apps.rs:12-34 | the insert binds `client_name, scopes, secret` to the columns `client_id, client_secret, scopes`, so the stored scopes are the secret | registering client `client` with scopes `read` and secret `s1`, then registering it again: the answer's scopes are `s1` (`Apps.ReRegisterReportsSecretExample`) | bind the scopes into `scopes` and the secret into `client_secret`; a second registration then answers the requested scopes | high, not executed | Apps.ReRegisterReportsSecret | Apps.ReRegisterKeepsScopes |
