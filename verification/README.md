# custos: a verified model

custos keeps the relation "which SSH key may log in to which host as which account" in a
database and replicates it to one daemon per host. The control plane sends each daemon
signed, numbered, full snapshots; the daemon checks signature and number, replaces its
cache, writes it to disk, and answers sshd from it. This project models that replication
from the database tables to the line printed for sshd, and the smaller machines around it:
secret sets, self-update, login lockout, rate limiting, sessions, enrolment, paging and the
access audit.

## How it is built

- `Wire` the signed byte form; `SshKey` key lines; `Register` the acceptance rule for numbered states.
- `Directory`, `Requests`, `Entitlement` the tables, the queries, the ten requests that change access, and
  who is entitled after each.
- `Replication` the whole system as a state machine: handlers interleaved between reading
  and stamping, a network that drops, repeats, reorders and invents envelopes, daemons that
  purge, restart, fail to write and enrol again. `Convergence`, `Schedules`, `Reconnect`,
  `Reachable`, `ReEnrolment` and `Revocation` say exactly when it settles, and on what.
- `ControlPlane`, `Hub`, `DaemonCache`, `AuthKeys` the imperative code of the two programs,
  proved against those state machines; `Machine` puts the real process and file into them.
- `SecretSets`, `SetEffects`, and `SetReplication`, `TornBundles` and `TornHistories` with every statement of a push
  interleaved.
- `Lockout`, and `LoginRaces`, `LoginBound` and `LoginSpree` with overlapping logins.
- `SelfUpdate`, `RateLimit`, `Sessions`, `Enrolment`, `Pagination`, `AccessAudit` the other machines.

Conventions. A signature verifies only over an input the control plane signed. Documents
(JSON), sealing, hashing, archives, base64 and text formats of identifiers and instants are
function parameters with the round trip or injectivity they need written out as a
predicate. A state machine is a total step function and a run a sequence of events, so a
lemma about runs speaks of every run. Rows that the database names by random identifiers are
named by the step that inserts them where only their freshness matters.

## What does not hold, and when it does

- A reconnect does not restore the cache if a handler has read an older view and not stamped
  it yet: it can stamp later and win. `Reconnect.ReconnectRestoresIff` shows the condition is
  exact; `Reachable.LostPushIsRepaired` and `Reachable.HeldBuildSpoils` reach both sides.
- The comment at internal/controlplane/daemon_ws.go:51 says the initial snapshot is sent
  first. The connection is registered before that snapshot is built: it is first exactly if no
  push or disconnect reached the new channel meanwhile, and is never sent if 32 did
  (`Hub.InitialSendIff`, `Hub.InitialSendOvertaken`, `Hub.StaysBlocked`).
- The newest snapshot of a revoked host need not be the empty one: it is exactly if no later
  push found a view to stamp (`Revocation.RevokedIsEmptyIff`, `Revocation.PushRefills`).
- A host's secrets need not be those of any one time: a push reads the rows of the sets and then
  the entries of each, without a transaction, so a set deleted in between arrives empty and one
  changed in between arrives with its new entries under its old version. It cannot happen exactly
  if no set changes its entries after it was bound to the host
  (`TornHistories.AlwaysCurrentIff`), and for a single mutation exactly if that leaves the entries or
  the version of every bound set alone (`TornBundles.AlwaysOnceCurrentIff`, `TornBundles.TornStore`).
  What always holds is `SetReplication.StoreIsEmptyOrMixed`.
- A push of secret sets that is overtaken by a later one can stamp after it and win
  (`SetReplication.StaleBundleWins`).
- A machine enrolled again keeps cache.json, so the snapshots of its new host id are dropped
  until the new counter passes the old number, and exactly until then
  (`ReEnrolment.ReEnrolledConvergesIff`, `ReEnrolment.EnrolledTwiceStaysBehind`).
- The socket path cuts the account at its first newline and the disk path does not; they
  agree on every cache exactly for accounts without one (`AuthKeys.SocketAgreesWithDisk`).
- The signing input is injective for host ids below 65536 bytes, and every longer id
  collides with another (`Wire.LongHostIdCollides`).
- The comment at internal/controlplane/auth.go:177 calls a refresh token one-time. Lookup and
  rotation are separate statements: after one refresh completed, another with its token
  completes exactly when it was looked up before (`Sessions.SecondUseIff`), which happens
  (`Sessions.OverlappingBothComplete`).
- Two hosts can come from one enrolment token in the same way (`Enrolment.SecondHostIff`,
  `Enrolment.OverlappingSharesToken`).
- The staged binary is read twice by an apply run. The installed binary stays trusted exactly
  if no run installs a foreign file put in place between the two reads
  (`SelfUpdate.InstalledIsTrustedIff`, `SelfUpdate.SwapInstallsForeign`).
- Failed logins are counted from the row as it was read. If at most w attempts are under way at
  once, up to (w+5 choose 5) - 1 wrong passwords are compared in a window: 5 for one, 20 for two,
  55 for three. The bound is reached, so five holds exactly for attempts that do not overlap
  (`LoginBound.BoundWithOverlap`, `LoginSpree.BoundIsReached`, `LoginSpree.FiveIffOneAtATime`);
  any number that overlap entirely count as one failure (`LoginRaces.OverlappingAreAllCompared`).
- Six wrong passwords fit in a window closed at both ends; the bound of five is for half-open
  windows (`Lockout.SixthAtTheEndOfTheWindow`).
- Evicting idle rate-limit buckets is unobservable exactly when a bucket refills within the
  stale period, as the control plane's parameters do (`RateLimit.EvictionIsInvisibleIff`).
- A user cursor comes back exactly for a non-empty email without NUL
  (`Pagination.UserCursorRoundTrips`).

## Model

| member | source | states |
|---|---|---|
| Wire.BigEndianRoundTrip | internal/protocol/protocol.go:98-103 | Reading a big-endian field back gives the number written, whenever it fits the width. |
| Wire.FromBigEndianRoundTrip | internal/protocol/protocol.go:98-103 | Every byte string of the width is the encoding of the number it reads as. |
| Wire.SigningInputInjective | internal/protocol/protocol.go:80-106 | Equal signed bytes mean equal kind, host id, number and payload, for all host ids below 65536 bytes and all 64-bit numbers. |
| Wire.SigningLayout | internal/protocol/protocol.go:80-106 | The signed bytes are the tag's text, two length bytes, the host id, eight number bytes, most significant first, and the data, at these offsets. |
| Wire.LongHostIdCollides | internal/protocol/protocol.go:95-106 | Every host id of 65536 bytes or more shares its signed bytes with a different message, so the bound is exact. |
| Wire.Cut | internal/controlplane/pagination.go:139-142 | Splits at the first separator, and fails exactly when there is none. |
| SshKey.Fields | internal/sshkey/sshkey.go:15 | The fields of a line are never empty and hold no white space. |
| SshKey.ParseAuthorizedKey | internal/sshkey/sshkey.go:14-23 | A line that parses gives a key type and a decodable blob that are single words. |
| SshKey.PrintedLineParses | internal/sshkey/sshkey.go:14-23 | A key written as type, space and blob parses back to itself, whatever comment follows. |
| Register.OfferAllIsHighest | internal/daemon/client.go:226-238 | However messages arrive, the register ends at the highest-numbered one that opens, or where it started. |
| Register.Confluence | internal/daemon/client.go:226-238 | Any order, duplication or repetition of the same messages ends in the same state. |
| Register.HighestIsUnique | internal/daemon/client.go:226-238 | The highest state among consistent messages is determined by the messages. |
| Directory.HostAccessKeysIsEntitlement | queries/snapshot.sql:1-14 | The join lists a key exactly when its owner is active and holds an unrevoked direct or group host.access grant on the host. |
| Directory.AccessViewHolds | internal/controlplane/daemon_ws.go:127-143 | Every listed key appears in the host's view under its fingerprint with the host's accounts. |
| Directory.BuildYieldsView | internal/controlplane/daemon_ws.go:127-143 | Whatever order the rows come in, applying a built snapshot gives the host's access view. |
| Directory.ByFingerprintIff | internal/daemon/cache.go:28-46 | Applying a list keeps under each fingerprint exactly the last entry listed with it. |
| Requests.HandleKeepsValid | internal/controlplane/users.go:80-123 | Every request keeps the foreign keys, the unique fingerprints and the form of the keys, and touches no host row. |
| Requests.ChangedHostsArePushed | internal/controlplane/grants.go:155-191 | For every state and request, each host whose key set the request changed is among the hosts it pushes. |
| Entitlement.EntitledMeans | queries/snapshot.sql:1-14 | A key is entitled to a host if and only if its user is active, it is registered, and the user has an unrevoked host.access grant on the host or on a group holding it. |
| Entitlement.CreateGrantEntitles | internal/controlplane/grants.go:22-80 | A new grant entitles, beside those entitled before, exactly the registered keys of its active user to the hosts it covers. |
| Entitlement.RevokeGrantEntitles | queries/grants.sql:6-9 | After a grant is revoked exactly those are entitled who have another grant covering the host. |
| Entitlement.AddResourceEntitles | internal/controlplane/groups.go:329-366 | A host put into a group is reached, beside those entitled before, exactly by the active users with a grant on the group. |
| Entitlement.RemoveResourceEntitles | internal/controlplane/groups.go:368-410 | A host taken out of a group is reached exactly by those with a grant that covers it otherwise. |
| Entitlement.DeleteGroupEntitles | internal/controlplane/groups.go:284-327 | After a group is deleted exactly those are entitled who have a grant not on it that covers the host. |
| Entitlement.StatusEntitles | internal/controlplane/users.go:37-78 | Suspending a user ends exactly their entitlements; activating one restores exactly what their grants give. |
| Entitlement.RemoveUserEntitles | internal/controlplane/users.go:80-123 | Removing a user ends exactly their entitlements. |
| Entitlement.AddKeyEntitles | internal/controlplane/keys.go:25-66 | A new key is entitled exactly if it is well formed, its fingerprint is new and its active user has a covering grant; nobody else's entitlement moves. |
| Entitlement.DeleteKeyEntitles | internal/controlplane/keys.go:82-102 | Deleting a key ends exactly its entitlements, and only for its owner. |
| Entitlement.HandleEntitles | internal/controlplane/grants.go:95-128 | For every state, request, host and key, who is entitled afterwards is exactly what the request means. |
| Entitlement.MayLogInAfter | internal/daemon/authkeys.go:18-66 | After a request a key may log in to an account if and only if the account is the host's and the request leaves the key entitled. |
| Entitlement.CreatedIff | internal/controlplane/perms.go:20-42 | A grant comes to be exactly for a known user and a permission grantable on its target, and is in force. |
| Entitlement.RemovedForGood | internal/controlplane/users.go:80-123 | Activating a removed user gives nothing back: their grants are revoked. |
| Entitlement.DeletedGroupGrantsNothing | internal/controlplane/groups.go:284-327 | Deleting a group revokes every grant on it and empties it. |
| Replication.ServeOk | internal/controlplane/daemon_ws.go:147-163 | Every handler step keeps one stamp per host and number, numbers within the counter, and content that was once the view. |
| Replication.VerifiedIsStamped | internal/daemon/client.go:297-303 | An envelope that verifies for a host is one stamped for exactly that host, number and payload. |
| Replication.DispatchOk | internal/daemon/client.go:224-238 | A delivery of any envelope, genuine or invented, keeps the daemon's invariant whether or not the write succeeds. |
| Replication.StepKeepsInv | internal/daemon/client.go:102-144 | Every step of the system keeps the invariant of server and daemons. |
| Replication.RunKeepsInv | internal/daemon/client.go:102-144 | So does every run, and the server's history only grows. |
| Replication.CacheIsEmptyOrOnceViewed | internal/daemon/client.go:224-238 | In every run a keyed daemon's memory and disk are each empty or exactly the access view of some committed state for the host id they were accepted under, with a number not above that host's counter. |
| Replication.AcceptedIsHigher | internal/daemon/client.go:231-238 | A delivery changes the cache only under a strictly higher number. |
| Replication.NumbersRise | internal/daemon/cache.go:70-88 | Within a process life the number never falls, also not by a purge, and content changes only upward or to empty. |
| Convergence.HeardIsStamped | internal/daemon/client.go:297-303 | Every message a daemon hears is a stamp of the control plane for its host. |
| Convergence.DeliveryConfluence | internal/daemon/client.go:226-238 | Any order, duplication or repetition of the same envelopes leaves the cache at the highest-numbered snapshot among those that verify and the starting state. |
| Convergence.NewestDelivered | internal/daemon/client.go:226-238 | Once the newest envelope is among those delivered, a cache with a lower number, from whatever host id, holds the newest snapshot; any other is unchanged. |
| Convergence.DeliverySyncsIff | internal/daemon/client.go:226-238 | With the newest stamp current, delivering it brings any daemon to the current view if and only if the number it held was lower or it held that view already. |
| Convergence.PushMakesCurrent | internal/controlplane/grants.go:177-191 | An uninterrupted push makes its host's newest stamp current and leaves every other host as it was. |
| Convergence.PushAllMakesCurrent | internal/controlplane/users.go:140-144 | A loop of pushes makes every listed host current and keeps the others. |
| Convergence.RequestKeepsCurrent | internal/controlplane/groups.go:284-410 | A serialized request leaves every current host current. |
| Convergence.RevokeKeepsOthersCurrent | internal/controlplane/hosts.go:257-272 | Revoking a host leaves the other hosts current. |
| Convergence.SerializedRunsStayCurrent | internal/controlplane/grants.go:155-191 | Over every serialized run of requests, connects and revocations, a current host stays current until it is revoked. |
| Convergence.SerializedRunsConverge | internal/controlplane/grants.go:155-191 | A daemon in sync before a serialized run is in sync after it once the newest envelope is delivered, among any others in any order. |
| Convergence.ConnectedStaysCurrent | internal/controlplane/daemon_ws.go:47-56 | A host connected anywhere in a serialized run, and not revoked later in it, ends the run current. |
| Convergence.ConnectedRunsConvergeIff | internal/daemon/client.go:226-238 | From any start and for any daemon, once the host connected in a serialized run and the newest envelope is delivered among any others in any order, the cache is the current access view if and only if the number held before was lower or it was that view already. |
| Convergence.OwnCacheConverges | internal/daemon/cache.go:70-75 | A daemon whose cache came from its own host id converges, except if it purged the newest number itself. |
| Schedules.PerformServed | internal/controlplane/grants.go:177-191 | A transaction is a sequence of handler steps of the interleaved system. |
| Schedules.PerformAllServed | internal/controlplane/grants.go:177-191 | Every serialized run is one schedule of the interleaved handlers. |
| Schedules.ServedIsRun | internal/controlplane/grants.go:177-191 | Handler steps are a run of the whole system. |
| Schedules.SerializedLeavesNoBuild | internal/controlplane/grants.go:182-190 | However many pushes a serialized run made, afterwards no handler holds a build it did not hold before. |
| Reconnect.StampedIsTaken | internal/daemon/client.go:231-238 | A stamped snapshot is refused exactly when its number has been reached already. |
| Reconnect.PushSettles | internal/controlplane/daemon_ws.go:47-56 | A push while no handler holds a stale build settles the host: everything stamped from its number on is the current view. |
| Reconnect.ReconnectRestores | internal/controlplane/daemon_ws.go:47-56 | However many pushes were lost, the snapshot stamped at a reconnect, through any calm run, leaves the daemon holding the current view. |
| Reconnect.StaleBuildSpoilsReconnect | internal/controlplane/grants.go:182-190 | For every handler that has read another view and not stamped it yet, a calm run exists after which the daemon holds that stale view instead. |
| Reconnect.ReconnectRestoresIff | internal/controlplane/grants.go:182-190 | A reconnect restores the view through every calm run if and only if no handler holds a build of another view. |
| Reachable.LostPushesReachable | internal/controlplane/hub.go:51-65 | A machine enrolled and in sync, then any serialized run with all its pushes lost to the machine, is a reachable state in which no build is held and the machine is not ahead, so the next connect repairs it. |
| Reachable.TakenInSync | internal/controlplane/daemon_ws.go:47-56 | From every first state a run brings a machine in sync. |
| Reachable.LostPushIsRepaired | internal/controlplane/daemon_ws.go:47-56 | For every change of the view, a reachable state with the older view stamped and lost, from which the next connect always restores the new one. |
| Reachable.HeldBuildSpoils | internal/controlplane/grants.go:182-190 | For every change of the view, a reachable state with one handler holding the older build, from which the next connect does not. |
| Reachable.SuspensionMovesView | queries/snapshot.sql:1-14 | Suspending the only user of a host changes its view, so such changes exist. |
| Reconnect.OwnCacheIsNotAhead | queries/hosts.sql:24-25 | A machine whose cache came from its own host id never holds a number above that host's counter. |
| ReEnrolment.NothingTakenBelowFloor | internal/daemon/client.go:231-233 | While the counter has not passed the numbers held, no run brings a snapshot of that host into the cache. |
| ReEnrolment.ReEnrolledStaysBehind | internal/daemon/enroll.go:91-103 | After re-enrolment, until the new host's counter passes the old number, the daemon serves what the old id left it or nothing. |
| ReEnrolment.ReEnrolledConvergesIff | internal/daemon/enroll.go:91-103 | After re-enrolment and any run, delivering the current newest snapshot brings the machine in sync if and only if the new counter has passed the number in cache.json at the enrolment, short of a purge of that snapshot. |
| ReEnrolment.EnrolledTwiceStaysBehind | internal/daemon/enroll.go:91-103 | In every database with two hosts, a reachable run leaves a machine enrolled as one and then the other with the access of the first, after the newest snapshot of the second. |
| Revocation.NewestIsLastTouch | internal/controlplane/hosts.go:257-272 | Over every serialized run the newest stamp of a host is what the last transaction that stamped for it put there: nothing for a revocation, else the view then. |
| Revocation.RevokedIsEmptyIff | internal/controlplane/grants.go:177-191 | After a revocation and any serialized run, the newest stamp of the host is empty if and only if the last transaction to stamp for it was a revocation or found an empty view. |
| Revocation.PushRefills | internal/controlplane/grants.go:177-191 | For every host with access, a push after its revocation stamps the full view above the empty snapshot. |
| Revocation.RevocationKeepsView | queries/snapshot.sql:1-14 | The key query does not look at the host's status: revoking takes nothing from the view. |
| Revocation.RevokedIsInactive | internal/controlplane/hosts.go:257-264 | Revoking a host marks it inactive and changes no other host and nobody's entitlement. |
| Hub.Hub.Register | internal/controlplane/hub.go:28-32 | The connection becomes the host's entry. |
| Hub.Hub.Unregister | internal/controlplane/hub.go:36-42 | Removes the entry only if it is still this connection. |
| Hub.Hub.Send | internal/controlplane/hub.go:61-64 | Queues the envelope unless the buffer of 32 is full. |
| Hub.Hub.Push | internal/controlplane/hub.go:54-65 | Offers the envelope to the latest connection, if any. |
| Hub.Hub.Disconnect | internal/controlplane/hub.go:68-80 | Offers a final envelope and cancels the latest connection. |
| Hub.EntryIsLatestStanding | internal/controlplane/hub.go:28-42 | Over every interleaving the entry is connection c exactly when c was the most recent registration and has not unregistered since. |
| Hub.OnlineIffLatestStanding | internal/controlplane/hub.go:44-49 | online holds exactly when the most recent registration still stands. |
| Hub.Hub.Take | internal/controlplane/daemon_ws.go:167-190 | The writer takes the oldest queued envelope. |
| Hub.ChannelsAreFifo | internal/controlplane/hub.go:51-65 | Over every interleaving of pushes and receives a channel holds at most 32 and what was sent and queued is only extended: nothing is dropped later or overtaken. |
| Hub.ChannelHoldsPut | internal/controlplane/hub.go:51-80 | Over every interleaving, what was sent and is queued on a channel is, in order, the envelopes pushed or given to disconnect while it was the host's entry and held fewer than 32. |
| Hub.CancelledIff | internal/controlplane/hub.go:68-80 | A connection is cancelled if and only if a disconnect of a host found it as the most recent standing registration. |
| Hub.Hub.BlockingSend | internal/controlplane/daemon_ws.go:54 | Queues the envelope, or blocks and changes nothing while the buffer is full. |
| Hub.MeanwhileQueued | internal/controlplane/daemon_ws.go:47-56 | Whatever others call after a new channel is registered and before its writer starts, it holds one envelope for each push or disconnect that found it as the host's entry, up to 32. |
| Hub.InitialSendIff | internal/controlplane/daemon_ws.go:47-56 | The initial send blocks if and only if 32 of those reached the channel first; otherwise its envelope goes behind exactly as many as did, and is the first sent if and only if none did. |
| Hub.StaysBlocked | internal/controlplane/daemon_ws.go:54-77 | A blocked initial send stays blocked through every further call, since its own writer has not started. |
| Hub.InitialSendOvertaken | internal/controlplane/daemon_ws.go:51-56 | From the empty hub, one push in between makes the initial snapshot second, and 32 keep it from ever being sent. |
| ControlPlane.ApiServer.BuildSnapshot | internal/controlplane/daemon_ws.go:127-143 | The loop lists exactly the rows of HostAccessKeys, each with the host's accounts. |
| ControlPlane.ApiServer.SnapshotEnvelope | internal/controlplane/daemon_ws.go:147-163 | Takes the host's next number and signs kind, host, number and payload under it. |
| ControlPlane.ApiServer.StampCurrent | internal/controlplane/daemon_ws.go:127-163 | Reading and stamping is one push step of the state machine, and the envelope carries the host's next number. |
| ControlPlane.ApiServer.PushSnapshot | internal/controlplane/grants.go:177-191 | Performs one read-and-stamp step of the state machine and queues exactly that envelope. |
| ControlPlane.ApiServer.PushToHosts | internal/controlplane/users.go:140-144 | Pushes every listed host that exists, once each, and no other. |
| ControlPlane.ApiServer.CommitTables | internal/controlplane/users.go:112-119 | Commits new tables as one step of the state machine. |
| ControlPlane.ApiServer.Begin | internal/controlplane/grants.go:74-77 | Commits the request's tables and pushes nothing yet. |
| ControlPlane.ApiServer.Finish | internal/controlplane/grants.go:155-175 | Pushing the request's hosts after its commit serves the request. |
| ControlPlane.ApiServer.Refuse | internal/controlplane/grants.go:109-117 | A refused request leaves the tables as they are and pushes nobody. |
| ControlPlane.ApiServer.CreateGrant | internal/controlplane/grants.go:22-79 | Serves the request, reading a group's hosts after the commit; an unknown user or a permission that does not fit the target is refused. |
| ControlPlane.ApiServer.RevokeGrant | internal/controlplane/grants.go:95-127 | Serves the request, refusing an unknown or already revoked grant. |
| ControlPlane.ApiServer.AddGroupResource | internal/controlplane/groups.go:329-366 | Serves the request and pushes the added host. |
| ControlPlane.ApiServer.RemoveGroupResource | internal/controlplane/groups.go:368-410 | Serves the request and pushes the removed host. |
| ControlPlane.ApiServer.DeleteGroup | internal/controlplane/groups.go:284-327 | Serves the request, pushing the hosts the group held before. |
| ControlPlane.ApiServer.SuspendUser | internal/controlplane/users.go:37-57 | Serves the request, pushing the user's granted hosts. |
| ControlPlane.ApiServer.ActivateUser | internal/controlplane/users.go:59-76 | Serves the request, pushing the user's granted hosts. |
| ControlPlane.ApiServer.RemoveUser | internal/controlplane/users.go:80-123 | Serves the request, pushing the hosts granted before the grants were revoked. |
| ControlPlane.ApiServer.AddKey | internal/controlplane/keys.go:25-66 | A line that does not parse changes nothing; otherwise the request for the parsed key is served, refusing a fingerprint already taken. |
| ControlPlane.ApiServer.DeleteKey | internal/controlplane/keys.go:82-102 | Serves the request, refusing another user's key. |
| ControlPlane.ApiServer.SendInitial | internal/controlplane/daemon_ws.go:51-56 | After registering, whatever was queued since: performs the connect transaction and sends its envelope on the channel, or blocks. |
| ControlPlane.ApiServer.Connect | internal/controlplane/daemon_ws.go:47-56 | The uninterrupted sequence: the connection becomes the host's entry, the connect transaction is performed, and its envelope is sent on the channel or blocks. |
| ControlPlane.ApiServer.RevokeHost | internal/controlplane/hosts.go:257-272 | Performs the revoke transaction and offers the empty snapshot as the last envelope; an unknown host is reported and changes nothing. |
| ControlPlane.ServedPerforms | internal/controlplane/grants.go:155-191 | While the counters have room, what a handler does is a serialized transaction of Convergence, pushes in any order. |
| ControlPlane.RoomForPushes | queries/hosts.sql:24-25 | While the counters have room every push of a built snapshot succeeds. |
| DaemonCache.WriteIsAtomic | internal/daemon/store.go:130-152 | For every failure and crash point the file is all of the new content or untouched, and no other file but the temporary one differs. |
| DaemonCache.Dir.WriteTemp | internal/daemon/store.go:133-150 | The directory after creating, filling and closing the temporary file, for each point at which that fails or dies. |
| DaemonCache.Dir.AtomicWrite | internal/daemon/store.go:130-152 | The directory and outcome for each failure and crash point. |
| DaemonCache.ReloadRestores | internal/daemon/cache.go:28-46 | For every iteration order of the map, reloading what was persisted gives the same entries. |
| DaemonCache.PersistedLoads | internal/daemon/cache.go:28-46 | A persisted state loads as itself, number and entries. |
| DaemonCache.LoadedIff | internal/daemon/cache.go:28-46 | Loading fails if and only if there is a file that does not decode; else it gives the file's number and last entry per fingerprint, or an empty cache for no file. |
| DaemonCache.Cache.Load | internal/daemon/cache.go:28-46 | Memory becomes what the file holds, empty for a missing file; an unreadable file is reported and changes nothing. |
| DaemonCache.Cache.Filled | internal/daemon/cache.go:79-86 | The fill loop maps each fingerprint to its last entry. |
| DaemonCache.Cache.Listed | internal/daemon/cache.go:109-119 | The listing loop gives every entry of the map, in any order. |
| DaemonCache.Cache.Persist | internal/daemon/cache.go:109-119 | Writes a listing of the whole map under the number held, by an atomic write. |
| DaemonCache.Cache.ApplySnapshot | internal/daemon/cache.go:79-88 | Memory becomes the snapshot under its number, and the directory what the write leaves at each crash point. |
| DaemonCache.Cache.Purge | internal/daemon/cache.go:70-75 | Clears every entry, keeps the number, and writes that out. |
| DaemonCache.Cache.Dispatch | internal/daemon/client.go:224-238 | Memory and directory after an envelope are those of the process model, crash points included. |
| DaemonCache.StepMirrors | internal/daemon/client.go:224-238 | One event of the process is one event of the replication model's daemon, saved exactly when the rename took place. |
| DaemonCache.RunMirrors | internal/daemon/cache.go:28-119 | Over every run of deliveries, purges, failed writes, crashes and restarts, memory is the model daemon's memory and the file loads as its disk. |
| DaemonCache.FileIsNeverPartial | internal/daemon/store.go:130-152 | Over every such run the file loads to exactly a state the memory had at some point of it. |
| AuthKeys.Authorize | internal/daemon/authserver.go:58-69 | The search finds an entry exactly when the fingerprint is cached and the account is in its list. |
| AuthKeys.ReplyToQuery | internal/daemon/authserver.go:30-46 | The daemon answers a query for the account up to its first newline. |
| AuthKeys.ReplyIff | internal/daemon/authserver.go:30-69 | The daemon answers a request with a key if and only if it opens with a line of a fingerprint, a tab and an account, and the key is cached with that account; every other request gets nothing. |
| AuthKeys.SocketAnswersFirstLine | internal/daemon/authkeys.go:31-54 | Over the socket the answer is the disk answer for the account up to its first newline. |
| AuthKeys.SocketAgreesWithDisk | internal/daemon/authkeys.go:18-66 | The two paths agree on every cache if and only if the account holds no newline. |
| AuthKeys.PathsAgreeAfterPersist | internal/daemon/authkeys.go:29-66 | After a persist that succeeded, socket and file answer every account without a newline alike. |
| AuthKeys.QuerySocket | internal/daemon/authkeys.go:31-54 | Returns the first exchange that goes through, trimmed, and fails only if all attempts fail. |
| AuthKeys.AuthorizedKey | internal/daemon/authkeys.go:18-27 | Answers from the daemon's memory if an exchange goes through, else from the file, else an error; a bad key is an error. |
| AuthKeys.ViewAnswersEntitlement | internal/daemon/authkeys.go:56-66 | A view prints a line for a key and account exactly when the state behind it lets the key log in as the account. |
| AuthKeys.PrintedLinesAreEntitled | internal/daemon/authkeys.go:18-66 | In every run one committed state decides every line AuthorizedKey prints over the socket, for the account up to its first newline, and one every line it prints from the file; a cache with no state behind it prints nothing. |
| AuthKeys.PrintedIff | internal/daemon/authkeys.go:18-66 | The decided line is printed if and only if the state lets the key log in as the account, and it parses back to the registered key. |
| AuthKeys.PurgedPrintsNothing | internal/daemon/cache.go:69-75 | In every run after a purge in which nothing is delivered, nobody is let in from memory, nor, if the purge was written, from the file, restarts included, and the number stays. |
| AuthKeys.StartedAnswersFromFile | internal/daemon/cache.go:28-46 | A daemon that starts answers on both paths from its file. |
| Machine.FileIsDaemonsDisk | internal/daemon/cache.go:28-119 | In every run of the whole system in which one machine is its real process and directory, crash points included, the machine's cache.json loads as the disk, and its memory is the memory, of its daemon in a run of the replication model. |
| Machine.MachinePrintsEntitled | internal/daemon/authkeys.go:18-66 | In every such run the file loads, and one committed state each decides every line AuthorizedKey prints over the socket and from that file. |
| SecretSets.MutateKeepsValid | internal/controlplane/secret_sets.go:302-359 | Every mutation keeps bindings to existing rows and unique names. |
| SecretSets.ChangedBundlesArePushed | internal/controlplane/secret_sets.go:234-584 | For every mutation, each host whose bundle changed is among the hosts it pushes. |
| SetEffects.MutateBundles | internal/controlplane/secret_sets.go:234-584 | For every mutation and host, the sets in the bundle afterwards: all others as before, and the one named exactly as renamed, edited, bound, or gone. |
| SetEffects.MutateRows | queries/secret_sets.sql:41-95 | A mutation changes the one field or entry it names and the version of its set, bound or not, and no other set. |
| SetEffects.StoreAfterMutation | internal/daemon/secretstore.go:47-85 | After a serialized run in which the host connected and one more mutation, the delivered store answers exactly the sets the mutation leaves the host, and never one it unbound or deleted. |
| SecretSets.SetHandlers.PushAllSets | internal/controlplane/secret_sets.go:302-310 | Stamps the current bundle for each listed host that exists and has a key. |
| SecretSets.SetHandlers.Change | internal/controlplane/secret_sets.go:424-451 | Commits the mutation, then pushes its hosts. |
| SecretSets.SetHandlers.Connect | internal/controlplane/daemon_ws.go:58-65 | Stamps the host's bundle on connect. |
| SecretSets.NewestStaysCurrent | internal/controlplane/secret_sets.go:671-716 | Over every serialized run the newest bundle stamped for a keyed host stays its current bundle. |
| SecretSets.ConnectedEndsCurrent | internal/controlplane/daemon_ws.go:58-65 | From any start, a keyed host that connects anywhere in a serialized run ends it with its newest bundle current. |
| SecretSets.KeylessGetsNothing | internal/controlplane/secret_sets.go:702-707 | Over every serialized run a host without an encryption key is never sent a bundle. |
| SecretSets.OpenedIsBundle | internal/daemon/secretstore.go:47-70 | However the bundle is listed, the opened store answers each bound name with its set and no other name. |
| SecretSets.SecretStore.Apply | internal/daemon/secretstore.go:47-70 | A bundle that does not open changes neither sets, number nor readiness; one that opens replaces all three. |
| SecretSets.SecretStore.Dispatch | internal/daemon/client.go:239-257 | Drops what does not verify or is not numbered higher, else applies. |
| SecretSets.VerifiedSetsAreStamped | internal/daemon/client.go:307-313 | A verified secret-sets envelope is one stamped for this host, number and payload. |
| SecretSets.StoreHoldsHighestOpened | internal/daemon/client.go:239-257 | Within a process life the store holds exactly the highest-numbered verified bundle that opened, and is ready exactly when there is one. |
| SecretSets.StampCarries | internal/controlplane/secret_sets.go:671-700 | Sealing and stamping the current bundle keeps the signing server's stamps and the stamped bundles in step, for every host. |
| SecretSets.RunIsCarried | internal/controlplane/secret_sets.go:302-310 | Every serialized run of mutations and connects is carried by a run of stamps. |
| SecretSets.NewestSetsDelivered | internal/daemon/client.go:239-257 | Any envelopes in any order with the newest among them leave the store holding the newest bundle. |
| SecretSets.SetsConverge | internal/daemon/secretstore.go:47-85 | After any serialized run in which the host connected, once the newest bundle is delivered the store answers every bound name with its current set and no other name. |
| SetReplication.StepKeepsSetInv | internal/controlplane/secret_sets.go:639-716 | Every step, with others interleaved at each statement of a push, keeps all that is built, stamped and stored for a host made of the rows of one committed state and entries read since; and of one state, if no entry read saw a change since the rows. |
| SetReplication.StoreIsEmptyOrMixed | internal/controlplane/secret_sets.go:639-667 | In every interleaved run, with any network, a store is empty and not ready, or answers with the names, accounts and versions of one committed state, each set with its entries at that state or a later one, none if deleted. |
| SetReplication.StillRunsAreOnceCurrent | internal/controlplane/secret_sets.go:639-667 | If no push reads entries that changed since it read the rows, a store is empty and not ready or answers exactly as the tables of some committed state do for its host. |
| SetReplication.StaleBundleWins | internal/controlplane/secret_sets.go:702-716 | For every two states of a keyed host's bundle a run leaves the second one current and the newest stamp with the first, so currency needs serialized pushes. |
| TornBundles.BundleKeptIff | internal/controlplane/secret_sets.go:234-584 | A mutation leaves a host's bundle as it is if and only if it leaves the rows of its sets and their entries as they are. |
| TornBundles.QuietRunsAreOnceCurrent | internal/controlplane/secret_sets.go:639-667 | If no commit between the reads of a push changed its host's bundle, a store is empty and not ready or answers exactly as the tables of some committed state do. |
| TornBundles.TornStore | internal/controlplane/secret_sets.go:639-667 | For every mutation that changes entries and version of a set bound to a host, or deletes a bound set with entries, a run leaves the host's store answering as no committed state does. |
| TornBundles.AlwaysOnceCurrentIff | internal/controlplane/secret_sets.go:639-716 | Over all runs in which one mutation is committed, a keyed host's store is always empty or once current if and only if the mutation does not tear: it is no deletion of a bound set with entries and no change of a bound set's entries under a new version. |
| TornHistories.AlwaysCurrentIff | internal/controlplane/secret_sets.go:639-716 | Over all runs that commit any given history of tables, of any length, a keyed host's store is always empty or once current if and only if no set changes its entries after it was bound to the host; a name and a version identify the entries they were written with. |
| TornHistories.TornHistory | internal/controlplane/secret_sets.go:639-667 | For every two states of a history between which a set bound at the first changes its entries, a run leaves the store answering as no committed state does. |
| SelfUpdate.Disk.FindBinary | internal/daemon/update.go:121-162 | The loop returns the first archive entry called custosd, if any. |
| SelfUpdate.VerifiedIff | internal/daemon/update.go:82-117 | A stage run ends with a binary if and only if a digest was sent, the download has it, and the binary is the first custosd entry of the archive. |
| SelfUpdate.StageRun | internal/daemon/update.go:49-80 | Wherever a stage run stops, the installed binary is untouched and what is staged is the released binary with its version and digest in staged.json; without a release nothing changes. |
| SelfUpdate.Disk.Stage | internal/daemon/update.go:49-80 | Wherever it dies the files are one of the staging states, metadata first and binary last; it succeeds exactly for an archive of the sent digest that holds custosd. |
| SelfUpdate.Disk.Discard | cmd/daemon/applyupdate.go:135-139 | Wherever it dies, a prefix of removing binary then metadata. |
| SelfUpdate.Disk.ApplyUpdate | cmd/daemon/applyupdate.go:21-62 | Wherever it dies the files are one of the apply states, the staged file being read for the checksum and again for the copy. |
| SelfUpdate.MatchingStagedIsPushed | cmd/daemon/applyupdate.go:21-62 | Staged bytes that agree with staged.json came from an archive matching a pushed digest. |
| SelfUpdate.MetaIsAlwaysTrusted | internal/daemon/update.go:49-80 | Over any ops, corruptions and swaps, staged.json only ever names a binary extracted from a pushed archive. |
| SelfUpdate.TrustKeptIff | cmd/daemon/applyupdate.go:42-62 | One more op keeps the installed binary the first one or a pushed one if and only if it is not an apply run that installs a foreign file put in place of the staged one between its checksum and its copy. |
| SelfUpdate.InstalledIsTrustedIff | cmd/daemon/applyupdate.go:88-98 | At every crash point over any number of upgrades, crashes and corruptions, the installed binary has always been the first one or one extracted from a pushed archive if and only if no op was such a run. |
| SelfUpdate.SwapInstallsForeign | cmd/daemon/applyupdate.go:42-55 | For every upgrade and every foreign file a run installs that file. |
| SelfUpdate.ApplyRun | cmd/daemon/applyupdate.go:21-62 | The installed binary changes only to staged bytes that agree with staged.json, and a completed run leaves nothing staged. |
| SelfUpdate.StageThenApplyInstalls | internal/daemon/update.go:49-80 | An undisturbed stage and apply install exactly the first custosd entry of the archive with the sent digest. |
| Lockout.Row.RecordFailedLogin | internal/controlplane/auth.go:132-143 | The new row after a failure: a fresh streak after a long gap, a lock and a cleared count at the fifth. |
| Lockout.Row.Login | internal/controlplane/auth.go:73-94 | Verdict and new row of one attempt, for locked, hashless, wrong and right. |
| Lockout.StoredCountIsStreak | internal/controlplane/auth.go:132-143 | After every sequence of attempts the stored count is the streak counted from the attempts, and stays in 0..4. |
| Lockout.LockStartsAtFifth | internal/controlplane/auth.go:138-141 | A lock starts exactly when the streak stands at four and the next wrong password comes without a gap. |
| Lockout.LockStartsIff | internal/controlplane/auth.go:132-143 | A lock starts at an attempt if and only if it is the fifth wrong password of a stretch without a success, a lock or a gap over fifteen minutes. |
| Lockout.VerdictIff | internal/controlplane/auth.go:73-94 | In time-ordered attempts one succeeds if and only if the password matches and no lock of the last fifteen minutes holds, counts as wrong if and only if it does not match and none holds, and without a stored hash or under a lock changes nothing. |
| Lockout.AtMostFiveWrongPasswords | internal/controlplane/auth.go:73-94 | In time-ordered attempts, any half-open fifteen-minute window without a success compares at most five wrong passwords. |
| Lockout.SixthAtTheEndOfTheWindow | internal/controlplane/auth.go:82-93 | A sixth is compared exactly fifteen minutes after the first, so the window must be half-open. |
| LoginRaces.OneAtATimeIsSequential | internal/controlplane/auth.go:73-94 | Attempts whose read and write are not interleaved with others are the attempts of the sequential row. |
| LoginRaces.FiveOneAtATime | internal/controlplane/auth.go:132-143 | One at a time, at most five wrong passwords are compared in a half-open window without a success. |
| LoginBound.BoundWithOverlap | internal/controlplane/auth.go:73-143 | In every interleaving of attempts of which at most w are under way at once, fewer than (w+5 choose 5) wrong passwords are compared in a half-open window without a success, from any earlier history. |
| LoginSpree.BoundIsReached | internal/controlplane/auth.go:73-143 | For every w a run with at most w attempts under way compares exactly (w+5 choose 5) - 1 wrong passwords at one instant. |
| LoginSpree.FiveIffOneAtATime | internal/controlplane/auth.go:132-143 | At most five are compared in every such window if and only if at most one attempt is under way at once. |
| LoginRaces.OverlappingAreAllCompared | internal/controlplane/auth.go:132-143 | Any number of wrong passwords that overlap are all compared, count as one failure and start no lock. |
| RateLimit.RateLimiter.Evict | internal/controlplane/ratelimit.go:42-46 | The loop deletes exactly the stale visitors. |
| RateLimit.RateLimiter.LimiterFor | internal/controlplane/ratelimit.go:37-57 | Returns the kept bucket of the address or a full one, after a cleanup if one is due. |
| RateLimit.RateLimiter.Allow | internal/controlplane/ratelimit.go:59-67 | Decision and new state of one request. |
| RateLimit.EvictionIsInvisible | internal/controlplane/ratelimit.go:37-57 | When a bucket refills within the stale period, every time-ordered run over any addresses gets the answers of a limiter that never evicts. |
| RateLimit.EvictionIsInvisibleIff | internal/controlplane/ratelimit.go:13-16 | For every non-negative rate and burst, eviction changes no answer on any run if and only if the stale period refills a bucket. |
| RateLimit.EvictionShows | internal/controlplane/ratelimit.go:42-46 | For a slower rate, two bucketfuls around the stale period are answered differently. |
| RateLimit.SteadyBound | internal/controlplane/ratelimit.go:23-31 | No address passes more often than the burst plus the rate times the time elapsed. |
| RateLimit.PassesIff | internal/controlplane/ratelimit.go:59-67 | A request passes if and only if, counted from every request up to it, fewer of its address have passed than the burst plus the rate times the time elapsed. |
| RateLimit.AuthPassesIff | internal/controlplane/server.go:43 | For the control plane's limiter, evictions included: a request passes if and only if, from every request on, at most nine and one per six seconds of its address have passed. |
| RateLimit.AuthLimiterBound | internal/controlplane/server.go:43 | With one token per six seconds and burst ten, eviction is invisible and the bound holds of the evicting limiter. |
| Sessions.Database.OpenSession | internal/controlplane/auth.go:103-127 | A login opens a session for thirty days with one refresh and one access token. |
| Sessions.Database.FindSession | internal/controlplane/auth.go:179-186 | The lookup succeeds exactly when an unrevoked, unexpired session holds the token. |
| Sessions.Database.RotateToken | internal/controlplane/auth.go:188-217 | Replaces the session's refresh token and mints an access token, without extending the session. |
| Sessions.Database.RevokeSession | internal/controlplane/auth.go:233-239 | Logout revokes the session of an admitted access token. |
| Sessions.Database.RevokeAllUserSessions | queries/sessions.sql:19-20 | Revokes exactly the user's sessions. |
| Sessions.TablesMean | internal/controlplane/auth.go:96-231 | At every point of every run each session, access token and pending refresh is determined by the history of logins, lookups, rotations and revocations. |
| Sessions.StatusMeans | queries/access_tokens.sql:6-14 | A user is blocked exactly when the last status set says so. |
| Sessions.AdmittedIff | internal/controlplane/middleware.go:27-53 | An access token is admitted if and only if it is under fifteen minutes old, its login under thirty days old, its session never revoked since and its user active. |
| Sessions.NeverAdmittedAfterRevocation | internal/controlplane/password_reset.go:112-150 | Once a session is revoked none of its access tokens is admitted again, not even one minted by a refresh under way. |
| Sessions.HonouredIff | internal/controlplane/auth.go:176-186 | A refresh token is honoured if and only if it is the newest of its session, unrevoked and within thirty days of login. |
| Sessions.RefreshIff | internal/controlplane/auth.go:176-218 | A refresh draws tokens for a session if and only if, at its lookup, its token was the session's newest and the session neither revoked nor thirty days old. |
| Sessions.TokensAreUnique | migrations/0001_init.sql:49 | No two sessions hold the same refresh token. |
| Sessions.DoubleUseOverlaps | internal/controlplane/auth.go:176-217 | In every run, two refreshes that accepted one token overlap. |
| Sessions.SecondUseIff | internal/controlplane/auth.go:176-217 | After a refresh completed, another with the same token completes if and only if its lookup succeeded and came before that rotation. |
| Sessions.AcceptedAtMostOnce | internal/controlplane/auth.go:176-217 | In a run of serialized refreshes each refresh token is accepted at most once. |
| Sessions.OverlappingBothComplete | internal/controlplane/auth.go:179-209 | Two overlapping refreshes both complete, and only the later token is the newest. |
| Enrolment.Database.ActiveHostOf | internal/controlplane/enroll.go:77-86 | Finds whether an active host has the machine id. |
| Enrolment.Database.HostWithKey | migrations/0001_init.sql:95 | Finds whether any host, revoked or not, has the identity key. |
| Enrolment.Database.Enroll | internal/controlplane/enroll.go:58-129 | Outcome and new tables of one uninterrupted enrolment, for each way it is refused and for success. |
| Enrolment.Database.RevokeHost | internal/controlplane/hosts.go:257-264 | Marks the host revoked and keeps its row; an unknown host is reported. |
| Enrolment.TablesMean | internal/controlplane/enroll.go:58-129 | At every point of every run each token, host and pending enrolment is determined by the history. |
| Enrolment.HostIsTokens | internal/controlplane/enroll.go:107-118 | Every host carries its token's accounts and is active exactly until it is revoked. |
| Enrolment.RevokedForever | internal/controlplane/hosts.go:257-264 | A revoked host id is never active again. |
| Enrolment.MachineHasOneActiveHost | migrations/0001_init.sql:108-111 | However enrolments interleave, a machine id has at most one active host. |
| Enrolment.KeyHasOneHost | migrations/0001_init.sql:95 | However enrolments interleave, no two hosts, revoked or not, share an identity key. |
| Enrolment.SharedTokenOverlaps | internal/controlplane/enroll.go:66-74 | In every run, two hosts made from one token come from overlapping enrolments. |
| Enrolment.UndisturbedMeans | internal/controlplane/enroll.go:58-129 | The four steps of an enrolment in a row insert its host if and only if its reads and the unique indexes admit it at that one state, and else change nothing. |
| Enrolment.ReachesWrites | internal/controlplane/enroll.go:66-102 | However others interleave, an enrolment reaches its writes if and only if the token was usable at the first read, the machine free at the second and the prior host not active at the third. |
| Enrolment.SecondHostIff | internal/controlplane/enroll.go:66-122 | After a token made a host, another enrolment with it makes one if and only if it read the token before, each of its three reads let it through when it was made, and the unique indexes admit it. |
| Enrolment.TokenMakesOneHost | internal/controlplane/enroll.go:56-129 | In a run of serialized enrolments each token makes at most one host. |
| Enrolment.PassesIff | internal/controlplane/enroll.go:66-102 | At one state the reads let a request through if and only if its token was issued, has not expired and made no host, and no active host has its machine id or is its prior host. |
| Enrolment.InsertsIff | migrations/0001_init.sql:95-111 | The unique indexes admit a request if and only if its token was issued, no host ever had its key, and every host of its machine has been revoked. |
| Enrolment.RevocationFreesMachine | internal/controlplane/enroll.go:77-86 | Revoking the active host of a machine lets the machine enrol again with a usable token and a new key. |
| Enrolment.OverlappingSharesToken | internal/controlplane/enroll.go:66-122 | Two overlapping enrolments on different machines both make a host from one token. |
| Pagination.PageSize | internal/controlplane/pagination.go:40-54 | A blank limit gives 10, a number from 1 to 100 itself, a higher one 100, and anything else is refused. |
| Pagination.UserCursorRoundTrips | internal/controlplane/pagination.go:154-176 | A user cursor decodes to the key it was made from if and only if the email is not empty and holds no NUL. |
| Pagination.LogCursorRoundTrips | internal/controlplane/pagination.go:125-152 | A log cursor always decodes to the key it was made from. |
| Pagination.DecodeUserIff | internal/controlplane/pagination.go:159-176 | A user cursor is accepted if and only if it decodes to a non-empty email, the first NUL and an identifier; only a blank one is the first page. |
| Pagination.DecodeLogIff | internal/controlplane/pagination.go:131-152 | A log cursor is accepted if and only if it decodes to an instant, the first bar and an identifier; only a blank one is the first page. |
| Pagination.ServePage | internal/controlplane/hosts.go:109-130 | Fetching one row more gives the first rows beyond the cursor, and a next cursor exactly when rows remain. |
| Pagination.VisitServesAll | internal/controlplane/hosts.go:109-130 | Following next cursors serves every row exactly once, in order, for every page size. |
| Pagination.VisitEnds | internal/controlplane/pagination.go:19-24 | The visit ends, after at most one page per row left and one more. |
| Pagination.UserCursorsReturn | internal/controlplane/pagination.go:154-176 | All cursors of a user listing come back if and only if no email is empty or holds a NUL. |
| Pagination.LogCursorsReturn | internal/controlplane/pagination.go:125-152 | All cursors of a log listing come back. |
| Pagination.LogVisitServesAll | queries/access_logs.sql:21-38 | The access log of a host is served completely, once and in order, for every accepted limit. |
| AccessAudit.GroupPaths | internal/controlplane/access_audit.go:187-230 | The two loops give each user one entry holding exactly its path rows, in row order. |
| AccessAudit.EntryIsWhole | internal/controlplane/access_audit.go:139-141 | Every entry of a page carries all of its user's paths, each once: no user is split across pages. |
| AccessAudit.PathsMean | queries/permissions.sql:153-178 | A path is direct exactly for an unrevoked host.access grant on the host, and via a group exactly for one on an existing group that holds the host. |
| AccessAudit.ListedIffPath | queries/permissions.sql:125-178 | A user is listed if and only if the user is active and has at least one path. |
| AccessAudit.AuditMatchesSnapshot | queries/permissions.sql:125-151 | Over all pages, for every page size, the fingerprints listed are exactly those of the snapshot of the same state. |
| AccessAudit.ListedAreJustified | queries/permissions.sql:153-178 | Every listed user is listed once and has a path. |

## Left out

- HTTP, JSON, routing, views, email, configuration and command-line flags: plumbing without a deep property.
- Authorisation of the requests (who may call a handler): would add only easy members.
- Daemons without a signing key: they accept unsigned snapshots, so nothing is promised of them.
- Cryptography, hashing, sealing, archives and base64: ideal, as the conventions above say.
- Database failures and ignored query errors: queries succeed and transactions are atomic.
- Delivery of the final empty snapshot on revocation: it depends on the websocket library. The model stamps and queues it.
- The copy of the previous binary kept beside the installed one: best effort, outside the installed-binary guarantee.
- Grant and revoke messages to the daemon: dispatch ignores them.
- The handlers that create users, groups and secret sets, audit rows and the filters of the audit queries: in Convergence such a creation is any commit that leaves the keys of existing hosts alone.
- Directory.BuildYieldsView: reads the host row and the key rows at one state; a host's accounts never change after enrolment.
- Replication.CacheIsEmptyOrOnceViewed: a daemon applies envelopes one at a time, as its read loop does.
- ReEnrolment.ReEnrolledConvergesIff: the new host id differs from the one cache.json came from, as every enrolment inserts a new host row.
- ControlPlane.ApiServer.CreateGrant: the handlers run one at a time; interleaving is the subject of Replication and Reconnect.
- ControlPlane.ApiServer.SendInitial: the secret sets and the upgrade sent after the snapshot are not part of it.
- DaemonCache.Dir.AtomicWrite: a rename is atomic and survives; power loss before the disk has the data is not modelled.
- AuthKeys.AuthorizedKey: the fingerprint computation is a parameter, and all exchanges of one query see one memory.
- Lockout.Row.Login: one clock reading per attempt; overlapping attempts are in LoginRaces.
- LoginRaces.FiveOneAtATime: is for attempts one at a time; LoginBound has every other interleaving.
- SetReplication.StoreIsEmptyOrMixed: the host's key is looked up in the step that reads the rows, as it never changes after enrolment; a control plane without a vault, which sends an empty bundle, is not modelled.
- TornHistories.AlwaysCurrentIff: two commits that give one set the same version, within one tick of the database clock, are left out; TornBundles.AlwaysOnceCurrentIff covers them for a single mutation.
- AccessAudit.ListedAreJustified: speaks of the state the users are read from; their paths are read by a second statement, and EntryIsWhole speaks of the state that one sees.
- RateLimit.RateLimiter.Allow: one clock reading per request, token arithmetic over the reals instead of rounded floats.
- Sessions.Database.OpenSession: client keys and login timestamps are not modelled; a login is one that passed the password check.
- Sessions.Database.RotateToken: tokens are drawn fresh and hashing is injective.
- Enrolment.Database.Enroll: host names, labels and encryption keys are not modelled, and a prior host id that does not parse counts as absent.
- Pagination.VisitServesAll: the rows do not change during the visit, as keyset paging promises nothing more.
