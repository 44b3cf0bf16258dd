# Verification of Revpd

Revpd is a gateway for Remote Desktop that asks for a second factor. This project models what its
security rests on and proves it with Dafny 4.11: `dafny verify dfyconfig.toml` checks everything.

## What is modelled

**Who gets through** (`Access*`, `Store`, `Gateway*`, `Totp`, `SecondFactor`, `SourceKeys`). The database
tables the access decisions use, every statement run against them, and every kind of call that runs them:
relay connections by grant or by token, RDP logins, reviews of unannounced connections, portal logins,
second factors, unlocks, administration and housekeeping. One step of the machine in `AccessMachine` is one
statement, one answer from outside, one look at the clock or a tick of it; a run is *any* sequence of steps, so every
interleaving is covered. A run keeps a history in which each entry names the earlier entries it rests on;
`AccessHistory` says what a well-founded history is, `AccessSteps` proves that every run has one,
`AccessTheorems` derives the guarantees, and `AccessResults` and `AccessEnrolment` state them for every
configuration and every state a run can reach. `Store` has the statements as methods of a class that updates its tables in place.
`Gateway`, `GatewayReview` and `GatewayPortal` have the engine's calls and the portal's requests as the
program writes them, statement by statement, with an arbitrary amount of interference before each; their
contracts say that every execution is a run of the machine. `Engine.troubles` counts what went against a call from
outside: a statement that failed, a lockout, a person who did not agree, a machine that did not wake. Where nothing
did, the contracts say which rows, as the call met them, a refusal is owed to. `RelayGateway` joins the relay to them.

**The audit trail** (`AuditChain`, `AuditLog`, `AuditWriters`). The hash chain, the appending loop, the
verifier, and any number of processes appending at once.

**The RDP login on the wire** (`X224`, `RdpCursor`, `RdpMcs`, `RdpConnect`, `RdpCore`, `RdpResponse`,
`RdpRequest`, `ClientInfo`, `RdpLogin`, `Redirection`, `RedirectionPdu`, `PassedCredentials`, `Utf16`, `Utf8`,
`Sequences`, `BufferedStream`, `Wire`). Parsers and builders, each
proved against a specification of the bytes, and where the gateway writes, against a reader written from
the published standard.

**The relay** (`Relay`): which path a connection takes, byte-exact forwarding, connections per address.

**The RD Gateway tunnel** (`RdgwPacket`, `RdgwTunnel`, and `RdgwClient` for what a client sends), **CBOR** (`Cbor`, `CborStandard`, `CborReader`), **versions**
(`Orders`, `Versions`, `Semver`, `VersionTags`), **notifications** (`RateLimit`, `Notifier`), **lockout** (`Lockout`),
**waking machines** (`Wake`) and **updates** (`Updater`, `UpdaterStage`).

## What is assumed

- A password hash, a token hash and a session hash are ideal: rows hold what was hashed, and comparing
  hashes is comparing secrets. A random token is never drawn twice.
- The audit hash is a parameter. Where a result needs it to be free of collisions and never to give the
  genesis value, that is a hypothesis of the lemma (`AuditChain.Ideal`).
- Which one-time code belongs to which step of a secret is a parameter, as are the hash of a binary, what
  an archive unpacks to, and how an address is reduced to a grant key (`SourceKeys` models that last one).
- A commit over a table that changed since it was read is refused, and a refused or failed commit changes
  nothing. One SQL statement is atomic.
- The clock never goes back. No staging overlaps an installation.
- A notification counts from the moment its delivery starts. A delivery that is itself slow can bring the
  requests of two messages closer together than their starts.

## Where the code and what is said about it differ

Each of these is proved as stated; the model follows the code.

- The audit package promises that deleting a row is noticed. Deleting rows from the end is not: exactly the
  prefixes of a log still verify (`AuditChain.RearrangedIffPrefix`, `AuditChain.DeletionNoticedIff`). The
  last row can be replaced by anybody who can compute the hash (`AuditChain.LastRowEditableIff`).
- Version comparison subtracts machine integers. With negative numeric pre-release identifiers the
  difference can overflow and the order can run in a circle (`Versions.NegativeIdsCanCycle`); the exact
  condition is `Versions.CompareExact`. It departs from Semantic Versioning 2.0.0 for words with
  numbers, where it means to, and for numerals beyond 64 bits; `Semver.FollowsSemverIff`,
  `Semver.NumberedDepartIff` and `Semver.NumeralsDepartIff` say exactly when.
- The CBOR reader takes a simple value in a wide argument, where RFC 8949 has floats: the half float
  F9 00 14 reads as false (`CborStandard.HalfFloatReadsAsFalse`). What it reads is an encoding of the
  standard exactly when a walk over the heads meets no major type 7 with an argument in extra bytes
  (`CborStandard.StandardExactly`).
- The lockout's doubling is a 64-bit shift. It gives the intended wait exactly under
  `Lockout.NoSurprise`, always for a base below 2^47 ns; `Lockout.LargeBaseCanSurprise` is a case where it
  does not, and `Lockout.LargeBaseShortens` a run in which a failure cuts a lock short. A failure shortens
  a lock exactly when the next wait and the time since the last failure fall short of the wait before it
  (`Lockout.FailShortensIff`); that never happens in any run exactly when sixteen comparisons of the
  configuration hold (`Lockout.NeverShortensIff`). Sweeping also forgets failures that have not reached the
  threshold (`Lockout.SweepChangesNoLock`).
- An account with a second factor "must always use it, whatever the setting says". Somebody who registered a
  passkey and nothing else is let in on the password, over RDP and in the portal, where no factor is required
  (`AccessEnrolment.PasskeyAloneIsLetIn`, `AccessEnrolment.EnrolledOverRdp`,
  `AccessEnrolment.EnrolledInPortal`); so the promise holds of all runs exactly where one is required of
  everybody (`AccessEnrolment.FactorIsAlwaysUsedIff`). What counts is what is enrolled when the account is
  read. Backup codes never come without a secret (`AccessEnrolment.CodesAlwaysNeedSecret`), so a count of them
  that fails changes nothing unless an enrolment comes in between.
- A printed backup code that happens to be all digits, such as 22222-22222, is taken for a one-time code over
  RDP, and refused because those have six characters (`SecondFactor.PrintedCodeIsRecognized`,
  `SecondFactor.DigitCodeIsRefusedOverRdp`).
- MCS data PDUs keep 15 bits of their length, redirections 16, gateway data packets fit up to 65526 bytes;
  beyond that the bytes are not read back (`RdpMcs.SendDataComesBackIff`, `Redirection.ReadsIffItFits`,
  `RdgwPacket.DataArrivesIff`). What a Unicode client gets accepted always comes back to it
  (`PassedCredentials.UnicodeAlwaysArrives`). The bytes of any other client become UTF-16 on the way and can
  be too many (`PassedCredentials.LongCredentialsAreLost`); `PassedCredentials.AcceptedArriveIff` says exactly
  when, and `PassedCredentials.OthersArriveWithin` gives a size that is safe.
- The length written into a conference response is the real one up to 44 channels only
  (`RdpResponse.ConnectLengthExactIff`), and a client that joins more than 61 channels runs out of turns
  before its credentials are read (`RdpLogin.SessionLogsInIff`), although up to 1333 can be asked for
  (`RdpRequest.MostChannelsAreAskedFor`, `RdpRequest.TwoBlocksMislead`).
- The gateway packet parser compares 32 bits of the buffer's length. A buffer of 2^32 bytes or more is stuck;
  everything comes out exactly when none grows that far (`RdgwPacket.LaterBytesChangeNothing`,
  `RdgwPacket.ChunkingDoesNotMatter`), which chunks that leave room for one packet guarantee
  (`RdgwPacket.SmallChunksSuffice`).
- The client core block is said to carry the server's selected protocol at offset 128. Two other optional
  fields stand there: what is taken is the protocol exactly when they happen to be its two halves
  (`RdpCore.TakesTheProtocolIff`, with a usual client in `RdpCore.UsualClientMisread`). The program does not
  use the value.

## Model

| member | source | states |
|---|---|---|
| AccessResults.NothingForwardedUnearned | internal/proxy/relay/relay.go:164-275 | in every run, before every dialled connection there is a login, an unlock or an approval for the same account, machine and source key; a login or unlock had the account's password and an accepted factor from its own address unless a passkey opened the session |
| AccessResults.AlwaysCheckedAgain | internal/policy/policy.go:116-155 | whoever is let in on a grant or token was looked up again by that call after the grant was found or the token burned: active first, then still allowed the machine |
| AccessResults.BarredStaysOut | internal/api/api.go:806-815 | an account that was barred is not let in on a grant or token unless the call had read the account before |
| AccessResults.OneTimeSecrets | internal/store/repo.go:110-143 | in every interleaving of portal and RDP logins no redirect token is redeemed twice, no backup code spent twice, and one-time steps strictly increase until the account gets a new secret |
| AccessResults.TokensAreBound | internal/store/redirect.go:41-66 | a token is redeemed only from the source key it was minted for and within a minute, by the redeeming call's clock |
| AccessResults.LoginsLeadWhereMeant | internal/policy/login.go:282-304 | in every run, a token that is minted and an approval that is given are for the only machine the account could reach when the call chose, or the first with the default's name |
| AccessResults.GrantsExpireAsPromised | internal/store/grants.go:97-108 | expires_at is always the maximum of the creation deadline and what its executed consumes asked for |
| AccessResults.LookupsAreInTime | internal/store/grants.go:61-93 | every lookup that finds a grant is within its first life or within the reuse window of an earlier lookup that found the same grant |
| AccessResults.LookupFindsIff | internal/store/grants.go:61-93 | in every reachable state a lookup finds a grant if and only if one of this key is not revoked and its deadline, computed from the history, is ahead |
| AccessResults.RevokedIsFinal | internal/store/grants.go:111-118 | once an account's grants were revoked, no lookup finds one of them again |
| AccessResults.PurgeTakesOnlyExpired | internal/store/grants.go:121-129 | housekeeping removes only grants that expired at least a day ago and leaves every other as it was |
| AccessEnrolment.PasswordAloneOverRdp | internal/policy/login.go:86-103 | in every reachable state, an undisturbed RDP login with the password and no factor gets its token if and only if none is required, the row has no secret, and a machine is meant |
| AccessEnrolment.EnrolledOverRdp | internal/policy/login.go:80-103 | an account that has a factor is let in that way if and only if none is required and it has passkeys alone |
| AccessEnrolment.PasswordAloneInPortal | internal/api/api.go:268-313 | in every reachable state, an undisturbed portal login opens a complete session if and only if none is required and the row has no secret, and a half one if and only if it has one, whether or not the count of codes works |
| AccessEnrolment.EnrolledInPortal | internal/api/api.go:268-313 | an account that has a factor opens a complete session that way if and only if none is required and it has passkeys alone |
| AccessEnrolment.CodesAlwaysNeedSecret | internal/api/setup.go:231-241 | over all runs, an account with backup codes has a secret |
| AccessEnrolment.AloneMeansNoSecret | internal/policy/login.go:86-103 | over all runs, whoever got a token or a complete session on the password alone had no secret and no codes when read, so a factor it had was a passkey |
| AccessEnrolment.PasskeyAloneIsLetIn | internal/api/webauthn.go:115-150 | a run in which an account with a passkey alone is let in on its password |
| AccessEnrolment.FactorIsAlwaysUsedIff | internal/policy/login.go:80-95 | no account that has a factor is ever let in on the password alone, in any run, if and only if a factor is required of everybody |
| AccessResults.TicketLetsIn | internal/policy/login.go:186-216 | a call with a good ticket that is left alone forwards to exactly the machine the ticket is for |
| AccessResults.RedirectedClientGetsIn | internal/policy/login.go:179-217 | a live token presented from its key leads to the machine it was minted for, for the account it was minted for |
| AccessTheorems.ForwardingProvenance | internal/proxy/relay/relay.go:199-265 | the same for any well-founded history |
| AccessTheorems.OriginOf | internal/policy/policy.go:301-322 | every decision, lookup, grant and redemption goes back to an origin for the same account, machine and key |
| AccessTheorems.FactorAuthenticates | internal/policy/login.go:220-279 | every accepted factor followed a matching password of an active account and was met by a code this call burned or spent, a push, or the stated exception |
| AccessTheorems.OriginAuthenticated | internal/api/api.go:331-383 | what stands behind a token or an unlock is such a pair of factors for the same account and address, or a passkey |
| AccessTheorems.LeadsWhereMeant | internal/policy/login.go:282-304 | in any well-founded history a token or an approval is for the machine that was meant when this call chose it |
| AccessTheorems.CheckedAgain | internal/policy/policy.go:134-145 | the order and the content of the re-check, in terms of the tables at those moments |
| AccessTheorems.BarredStays | internal/store/repo.go:179-185 | a barred account stays barred until somebody makes it active |
| AccessTheorems.NeverReadWhileBarred | internal/policy/policy.go:134-138 | meanwhile no call reads it and goes on |
| AccessTheorems.TokenOnce | internal/store/redirect.go:41-51 | a redemption rests on a mint from the same key that had not expired, and no other redemption is of the same token |
| AccessTheorems.CodeOnce | internal/store/backup.go:43-53 | no backup code row is spent twice |
| AccessTheorems.StepsRise | internal/store/repo.go:110-123 | two claims of one account without a new secret between them are for increasing steps |
| AccessTheorems.CounterHolds | internal/store/repo.go:110-123 | the stored counter stays at least as high as any claimed step while the secret stays |
| AccessTheorems.ExpiryIsDeadline | internal/store/grants.go:97-108 | the row's expiry equals the deadline computed from the history |
| AccessTheorems.FoundInTime | internal/store/grants.go:61-76 | gives the earlier lookup whose reuse window a late lookup falls into |
| AccessTheorems.RevokedStays | internal/store/grants.go:111-118 | a revoked grant is marked until its row is gone |
| AccessTheorems.RevokedNeverFound | internal/store/grants.go:61-76 | the query never returns it again |
| AccessSteps.RunKeeps | internal/policy/policy.go:116-236 | every run keeps a history whose every entry is justified by what came before, and the tables are that history replayed |
| AccessSteps.StepKeeps | internal/policy/login.go:35-217 | every single step of every kind of call keeps it |
| AccessTrails.GrantTrail | internal/store/grants.go:44-55 | every grant row has the account, machine and key of the fact that issued it |
| AccessTrails.TokenTrail | internal/store/redirect.go:24-35 | every token row has the account, machine, key and expiry it was minted with |
| AccessTrails.SessionTrail | internal/auth/auth.go:221-243 | every session row has the account and address it was opened with |
| AccessTrails.CodeRowsAgree | internal/store/backup.go:20-38 | a code that was listed and is claimed later is the same code of the same account |
| AccessTrails.GrantNumberOnce | internal/store/grants.go:44-55 | grant numbers are never used twice |
| AccessData.NewestBelow | internal/store/grants.go:69-76 | finds a grant that is not revoked, not expired and of this key, and the newest such |
| AccessData.ChoicesAgree | internal/policy/policy.go:240-261 | the RDP login and the review choose the same machine although they look at the default in a different order |
| AccessData.ChosenIffMeant | internal/policy/login.go:282-304 | a machine is chosen, on either path, if and only if the account may reach it and either no other is reachable or it is the first of those with the configured, non-empty default name; none is chosen otherwise |
| AccessData.FirstNamedIff | internal/policy/login.go:294-300 | the search finds exactly the first machine with that name |
| Store.DB.ActiveGrant | internal/store/grants.go:61-93 | the search over the rows is that query |
| Store.DB.CreateGrant | internal/store/grants.go:44-55 | inserts exactly the new row under the next number, or nothing when a reference is missing |
| Store.DB.ConsumeGrant | internal/store/grants.go:97-108 | marks and extends one live row, never shortening it |
| Store.DB.RevokeGrantsForUser | internal/store/grants.go:111-118 | every grant of the account is revoked and nothing else changes |
| Store.DB.PurgeExpired | internal/store/grants.go:121-129 | exactly the grants and sessions that expired before the limit go |
| Store.DB.CreateRedirectToken | internal/store/redirect.go:24-35 | a new unused row, unless the token or a reference is not good |
| Store.DB.ClaimRedirectToken | internal/store/redirect.go:41-51 | succeeds exactly for an unused, unexpired token of this key, and then marks it |
| Store.DB.ClaimTOTPCounter | internal/store/repo.go:110-123 | succeeds exactly when the step is newer than the stored one, and then stores it |
| Store.DB.ClaimBackupCode | internal/store/backup.go:43-53 | succeeds exactly once per row |
| Store.DB.OpenBackupCodes | internal/store/backup.go:20-38 | lists exactly the open codes of the account |
| Store.DB.SetTOTPSecret | internal/store/repo.go:136-143 | a new secret starts at step zero |
| Store.DB.SetUserStatus | internal/store/repo.go:179-185 | changes one account's status |
| Store.DB.AddPasskey | internal/store/webauthn.go:20-29 | a credential is registered once, whoever it belongs to |
| Store.DB.DeletePasskey | internal/store/webauthn.go:88-95 | takes away a credential of this account only |
| Store.DB.CanReach | internal/store/repo.go:326-342 | only active accounts, administrators everywhere, others where they were given access |
| Store.DB.ListTargetsForUser | internal/store/repo.go:298-323 | exactly the machines the account may reach |
| Gateway.Engine.Authorize | internal/policy/policy.go:116-155 | under any interference, an allow is the machine's decision for a grant that was found, with that grant's machine and number; a refusal means that no grant of the address was live, or that the account, its activity, its access or the machine was missing when read, unless a statement failed |
| Gateway.Engine.AuthorizeToken | internal/policy/login.go:179-217 | under any interference, an allow rests on this call's redemption of this token; a refusal means that the token was unknown, used, expired or for another address, or that the re-check failed, unless a statement failed |
| Gateway.Engine.Authenticate | internal/policy/login.go:35-176 | a token that is handed out was minted by this call for this address and leads to the machine that was meant; none is handed out only if the password does not fit, the offered factor is refused, no machine is meant, or account or machine is gone, unless something outside went against the call |
| Gateway.Engine.CheckSecondFactor | internal/policy/login.go:220-259 | accepted as the machine accepts; refused only if nothing is offered where something is due, no push can be sent, no open code matches or it was lost meanwhile, or no unused step owns the code, unless something outside went against the call |
| Gateway.Engine.ConsumeBackupCode | internal/policy/login.go:261-279 | the first matching open code is claimed, or the login is refused |
| Gateway.Engine.Recheck | internal/policy/policy.go:129-145 | target, account and access are read anew, and the call is closed exactly when one of them is missing or a statement fails |
| RelayGateway.Serve | internal/proxy/relay/relay.go:164-283 | one connection with the engine's calls under any interference: its ending follows in both directions from the options, the token, the bytes behind the packet, the engine's two answers and reachability; the answers are the engine's for this token or this address; a machine is dialled only at the address the decision names, the dial is earned, and the machine gets the front of the client's bytes |
| RelayGateway.Judge | internal/proxy/relay/relay.go:188-247 | which question is asked first, when a review is asked for, and who is refused or sent to the login |
| RelayGateway.Dial | internal/proxy/relay/relay.go:252-262 | a dial that succeeds has an earned entry in the history with this address |
| GatewayReview.Review | internal/policy/policy.go:161-236 | an allow rests on an approval from this address and on a grant issued for it, and names the address of the machine that was chosen; a refusal means that reviews are off, the hint is empty or nobody active answers to it, no machine is meant or it may not be had, unless something outside went against the call |
| GatewayReview.Unlock | internal/policy/policy.go:267-297 | a grant number that is returned is the grant just issued for this session and machine; none means no access, or that the account or the machine is gone, unless a statement failed |
| GatewayReview.ChooseForReview | internal/policy/policy.go:240-261 | the review's choice, which is the machine that is meant by `AccessData.ChosenIffMeant` |
| GatewayPortal.Lookup | internal/auth/auth.go:254-296 | under any interference, a session is accepted only if at some time during the call it had been opened under this token and stage from this address and not ended, its life was not over, and it had not been idle too long, all by its history; refused only if at some time it did not count so, unless a statement failed |
| GatewayPortal.CountsIff | internal/auth/auth.go:276-288 | what is looked at in a session's row says exactly what its history says |
| AccessTrails.SessionTimes | internal/auth/auth.go:221-243 | a session's row ends five minutes after its opening while a factor is owed and the configured time after it otherwise, and was last seen when its history says |
| GatewayPortal.JudgeSession | internal/auth/auth.go:276-291 | expiry, idle time and address, by a clock read after the row |
| GatewayPortal.HandleLogin | internal/api/api.go:246-313 | a session that is opened rests on this call's password; a complete one only where no factor was asked for; none is opened only if the password does not fit, a factor is required that the account does not have, or the account is gone, unless something outside went against the call |
| GatewayPortal.HasBackupCodes | internal/api/api.go:326-329 | says whether the account has an open code; a count that fails says no |
| GatewayPortal.VerifySecondFactor | internal/api/api.go:388-423 | accepted as the machine accepts; refused only for an empty field, a code that matches no open one, or one of no unused step, unless a statement failed |
| GatewayPortal.HandleMFA | internal/api/api.go:331-383 | a promoted session rests on a factor this call accepted for the half session with that token, which counted, from this address; none is opened only if the session did not count, its account is not active or its code is refused, unless something outside went against the call |
| GatewayPortal.HandleUnlock | internal/api/api.go:510-529 | a grant rests on a complete session opened under this token from this address, which counted; none is given only if the session did not count, its account is not active, or the machine is gone or may not be had, unless a statement failed |
| GatewayPortal.HandleUserStatus | internal/api/api.go:787-822 | the status is changed before sessions end and grants are revoked, with anybody in between, and all of it is done unless a statement fails |
| Totp.VerdictExact | internal/mfa/totp.go:50-74 | a code is bad exactly when no step within the skew owns it; otherwise the step tried first of those that do decides between replay and acceptance |
| Totp.Verify | internal/mfa/totp.go:50-74 | the walk over the window computes that verdict |
| Totp.WindowOrder | internal/mfa/totp.go:77-83 | the window holds exactly the offsets within the skew, nearest first, past before future |
| SecondFactor.PrintedCodeIsRecognized | internal/policy/login.go:230-233 | a printed backup code is recognized in the portal always and over RDP exactly when it is not all digits |
| SecondFactor.SixDigitsAreOneTime | internal/api/api.go:388-397 | six digits are a one-time code on both paths |
| SecondFactor.PushIsAskedForIff | internal/policy/login.go:220-229 | an RDP login asks for a push exactly with the word push in any case, and offers nothing exactly by an empty factor |
| SecondFactor.DigitCodeIsRefusedOverRdp | internal/policy/login.go:230-259 | a printed backup code of digits alone is verified as a one-time code over RDP and is the code of no step |
| SecondFactor.TwosAreSuchACode | internal/policy/login.go:230-233 | such a code |
| SourceKeys.SameKeyIff | internal/store/grants.go:28-42 | two addresses share a grant key exactly when they are of the same family and agree on the configured leading bits, of 32 or of 128 |
| SourceKeys.MappedExactly | internal/store/grants.go:28-42 | the IPv6 addresses that count as IPv4 are those under ::ffff:0:0/96, each as the address in its last 32 bits |
| AuditChain.ChainInputInjective | internal/audit/audit.go:293-302 | what is hashed determines the previous hash and every field |
| AuditChain.HeadBindsLog | internal/audit/audit.go:252-302 | two logs that verify and end in the same hash are equal in length and content, under an ideal hash |
| AuditChain.RearrangedIffPrefix | internal/audit/audit.go:252-289 | a rearrangement of a verifying log verifies exactly when it is a prefix |
| AuditChain.DeletionNoticedIff | internal/audit/audit.go:252-289 | a deletion is noticed exactly when it is not from the end |
| AuditChain.EditNoticed | internal/audit/audit.go:252-289 | changing a row that is not the last is noticed |
| AuditChain.LastRowEditableIff | internal/audit/audit.go:252-289 | exactly which changes of the last row verify |
| AuditLog.Log.Append | internal/audit/audit.go:138-163 | the log grows by this entry exactly when the call succeeds, and the watchers hear of it exactly then |
| AuditLog.Log.Verify | internal/audit/audit.go:252-289 | answers whether the chain is valid and where it breaks first |
| AuditLog.OutcomeMeaning | internal/audit/audit.go:179-200 | when eight attempts suffice |
| AuditWriters.EveryRunVerifies | internal/audit/audit.go:179-234 | in every interleaving of any number of processes the log verifies |
| AuditWriters.SuccessMeansRecordedOnce | internal/audit/concurrent_test.go:44-118 | a call that succeeded is in the log once with its content, a failed one is not, watchers heard exactly the successes |
| AuditWriters.FailureNeedsContention | internal/audit/audit.go:179-200 | a call gives up only after eight faults and foreign entries together |
| AuditWriters.NothingIsLost | internal/audit/audit.go:207-234 | what is committed stays where it is |
| X224.ReadRequest | internal/proxy/x224/x224.go:65-111 | reads one request and nothing beyond it, for every segmentation of the client's bytes; nothing stays buffered exactly when nothing was delivered together with the packet's end |
| X224.FramedReads | internal/proxy/x224/x224.go:65-93 | every request framed as the standard has it, of at most 2048 bytes, is read |
| X224.OnlyFramedReads | internal/proxy/x224/x224.go:65-93 | nothing else is |
| X224.CookieComesBack | internal/proxy/x224/x224.go:95-109 | behind `Cookie: mstshash=` a name is read as it was sent exactly when it has only name bytes and at most 64 of them, and its first 64 permitted bytes otherwise; no routing token is read |
| X224.OtherLinesSayNothing | internal/proxy/x224/x224.go:95-109 | a first line with another beginning, and a request without a line end, names nobody and carries no token |
| X224.Sanitize | internal/proxy/x224/x224.go:127-144 | keeps the permitted bytes up to the limit |
| X224.KeptOfParts | internal/proxy/x224/x224.go:127-144 | what is kept of a text is, byte by byte and in order, what is permitted |
| X224.TokenComesFullCircle | internal/proxy/rdp/redirect.go:46-48 | behind `Cookie: msts=` a token is read as its first 64 permitted bytes, so unchanged exactly when it has only name bytes and at most 64 of them; no name is read |
| X224.Base64UrlTokenReturns | internal/proxy/x224/x224.go:95-109 | every base64url token of at most 64 characters does |
| X224.NegotiationBehindToken | internal/proxy/rdp/tpkt.go:108-126 | the negotiation request is found behind the token |
| Redirection.Build | internal/proxy/rdp/redirect.go:51-96 | the packet: flags, then the fields they announce |
| Redirection.ReadsIffItFits | internal/proxy/rdp/redirect.go:51-96 | a conforming client recovers every field exactly when the total fits 16 bits |
| Redirection.TextsComeBack | internal/proxy/rdp/redirect.go:68-86 | user, domain and password decode to the text that was sent |
| Redirection.RedirectedClientPresentsToken | internal/proxy/rdp/redirect.go:46-48 | what such a client takes from the packet is read in its next request as the token that was issued |
| RedirectionPdu.PduReadsIff | internal/proxy/rdp/redirect.go:108-123 | the share control header's length is right exactly up to 16 bits |
| RedirectionPdu.PduArrivesIff | internal/proxy/rdp/server.go:311-323 | the redirection arrives through the data PDU exactly up to 32767 bytes |
| RedirectionPdu.PduSize | internal/proxy/rdp/redirect.go:51-123 | the size of a redirection from the sizes of its texts |
| PassedCredentials.AcceptedArriveIff | internal/policy/login.go:157-176 | for every accepted Client Info, Unicode or not: the credentials reach the client exactly when twice their units and what frames them fit 15 bits |
| PassedCredentials.UnicodeAlwaysArrives | internal/proxy/rdp/clientinfo.go:60-103 | those of a Unicode client always do |
| PassedCredentials.OthersArriveWithin | internal/proxy/rdp/clientinfo.go:60-103 | those of any other client do while they have 16322 bytes together |
| PassedCredentials.LongCredentialsAreLost | internal/proxy/rdp/redirect.go:68-86 | a PDU in the largest frame that is accepted, means bob, pw and a push, and cannot be answered |
| Utf8.RunesAreShort | internal/proxy/rdp/ber.go:168-182 | no character takes more UTF-16 units than it took bytes |
| Utf8.RunesUndoEncoding | internal/proxy/rdp/ber.go:168-182 | text in UTF-8 is taken for that text |
| Utf16.Encode | internal/proxy/rdp/ber.go:168-182 | the bytes of the text's UTF-16 units, surrogate pairs included |
| Utf16.Decode | internal/proxy/rdp/ber.go:191-215 | the units up to the first null, combined into text |
| Utf16.RoundTripsIff | internal/proxy/rdp/ber.go:168-215 | exactly the texts without a null come back |
| RdpCursor.Cursor.Take | internal/proxy/rdp/tpkt.go:187-198 | never leaves the bytes, and is never reached with a negative count after a failure |
| RdpCursor.ReadBerLength | internal/proxy/rdp/ber.go:96-113 | the value of up to three length octets |
| RdpCursor.BerLengthReadsIff | internal/proxy/rdp/ber.go:36-45 | a BER length reads back exactly when it fits 16 bits |
| RdpCursor.ReadPerLength | internal/proxy/rdp/per.go:103-110 | one or two bytes |
| RdpCursor.PerLengthReadsIff | internal/proxy/rdp/per.go:28-34 | a PER length reads back exactly when it fits 15 bits |
| RdpMcs.ReadFrame | internal/proxy/rdp/tpkt.go:32-55 | reads one frame for every segmentation, and refuses what is too large |
| RdpMcs.FrameComesBackIff | internal/proxy/rdp/tpkt.go:32-73 | a written frame is read back exactly up to the reader's limit |
| RdpMcs.DataComesBackIff | internal/proxy/rdp/server.go:195-212 | the same through the X.224 data header |
| RdpMcs.ParseSendData | internal/proxy/rdp/mcs.go:133-151 | channel and payload of a data PDU |
| RdpMcs.SendDataComesBackIff | internal/proxy/rdp/mcs.go:165-174 | a data PDU comes back exactly when its payload is at most 32767 bytes |
| RdpMcs.PayloadArrives | internal/proxy/rdp/mcs.go:133-174 | through all the wrappers for whatever fits a frame |
| RdpMcs.JoinIsConfirmed | internal/proxy/rdp/mcs.go:106-130 | the confirmation names the channel asked for, twice, and the same user |
| RdpConnect.ParseClientBlocks | internal/proxy/rdp/gcc.go:42-102 | the loop over the user data computes the specification of the blocks |
| RdpCursor.TrimZero | internal/proxy/rdp/gcc.go:104-111 | the loop cuts the bytes at the first zero |
| RdpCursor.BeforeZero | internal/proxy/rdp/gcc.go:104-111 | the longest front without a zero |
| RdpCore.FieldsTaken | internal/proxy/rdp/gcc.go:60-76 | a conforming reader finds the selected protocol at its place; the gateway takes the color depth and the product number |
| RdpCore.TakesTheProtocolIff | internal/proxy/rdp/gcc.go:60-76 | what is taken is the selected protocol exactly when those two fields are its halves |
| RdpCore.TakenFromShortBlocks | internal/proxy/rdp/gcc.go:71-76 | from which lengths on something is taken, and from which the protocol is there at all |
| RdpCore.UsualClientMisread | internal/proxy/rdp/gcc.go:60-76 | a client with 256 colors, product 1 and TLS selected |
| RdpConnect.IndexOf | internal/proxy/rdp/per.go:135-149 | the first place where the key stands, or none |
| RdpConnect.FindUserData | internal/proxy/rdp/per.go:116-133 | the octets behind the key |
| RdpConnect.ParseConnectInitial | internal/proxy/rdp/mcs.go:30-52 | the request's blocks through BER and PER, on arbitrary bytes |
| RdpConnect.ChannelsArePaidFor | internal/proxy/rdp/gcc.go:79-93 | 380 bytes of user data stand behind every 31 channels, however the blocks are arranged |
| RdpConnect.ChannelsAreBounded | internal/proxy/rdp/mcs.go:30-52 | at most 1333 channels from one frame |
| RdpRequest.MostChannelsAreAskedFor | internal/proxy/rdp/mcs.go:30-52 | a request in one frame that is accepted with 1333 channels |
| RdpRequest.RequestIsAccepted | internal/proxy/rdp/gcc.go:42-102 | requests with any number of full network blocks that fit are accepted with all their channels |
| RdpRequest.RequestIsAnswered | internal/proxy/rdp/server.go:229-240 | every accepted request gets a response in one frame, from which a conforming client learns the protocol and one number for each channel of its request |
| RdpRequest.TwoBlocksMislead | internal/proxy/rdp/gcc.go:170-186 | an accepted request whose response has a wrong connect PDU length |
| RdpResponse.BuildConnectResponse | internal/proxy/rdp/mcs.go:57-83 | the response, built with the writers |
| RdpResponse.BuildServerBlocks | internal/proxy/rdp/gcc.go:124-158 | the server's blocks |
| RdpResponse.BuildConference | internal/proxy/rdp/gcc.go:170-186 | the conference envelope |
| RdpResponse.ResponseTellsTheChannels | internal/proxy/rdp/gcc.go:115-186 | a conforming client learns the protocol, the I/O channel and its channels from 1004 on, in order |
| RdpResponse.ResponseFitsAFrame | internal/proxy/rdp/mcs.go:57-69 | every accepted request's response fits a frame |
| RdpResponse.ConnectLengthExactIff | internal/proxy/rdp/gcc.go:170-186 | the connect PDU's length is the real one exactly up to 44 channels |
| ClientInfo.ParseClientInfo | internal/proxy/rdp/clientinfo.go:34-103 | the credentials in a Client Info PDU, on arbitrary bytes |
| ClientInfo.CredentialsComeBack | internal/proxy/rdp/clientinfo.go:34-103 | what a Unicode client typed comes back up to a null; only an empty user name is refused |
| ClientInfo.NarrowCredentialsComeBack | internal/proxy/rdp/clientinfo.go:71-85 | the bytes of any other client come back up to a zero |
| ClientInfo.BareNameIs | internal/policy/login.go:306-314 | a name means the same account with a domain in front, a realm behind, or alone |
| ClientInfo.SplitsAtTheFactor | internal/proxy/rdp/clientinfo.go:116-122 | the factor behind the last comma is split off exactly, whatever commas the password holds |
| RdpLogin.Negotiate | internal/proxy/rdp/server.go:238-308 | the bounded sequence: which payloads are answered and how, and when credentials result |
| RdpLogin.JoinsSucceedIff | internal/proxy/rdp/server.go:255-267 | joins are answered in order, and the login succeeds exactly when its turn comes within the limit |
| RdpLogin.SessionLogsInIff | internal/proxy/rdp/server.go:238-308 | a whole session logs in exactly with at most 61 channels |
| Relay.Handle | internal/proxy/relay/relay.go:164-283 | for a well-formed first packet, exactly when a connection is sent to the login, refused, reviewed, left without a backend, unreachable or dialled, by options, token, the answers, what came with the packet, and reachability; the machine gets a prefix of the client's bytes beginning with the first packet, and all of them if the stream just ends |
| BufferedStream.Reader.ReadFull | internal/proxy/relay/relay.go:296-312 | bytes that were read leave nothing buffered exactly when the network delivered nothing else with the last of them |
| BufferedStream.EndsIff | internal/proxy/relay/relay.go:218-224 | that is, when some of the segments have just that many bytes together |
| Relay.CopyIdle | internal/proxy/relay/relay.go:370-398 | what is written is always the front of what the client sent |
| Relay.SlotsAreCounted | internal/proxy/relay/relay.go:414-442 | in every interleaving the counter of an address is its live handlers, within the cap, never a stored zero |
| Relay.Server.Acquire | internal/proxy/relay/relay.go:414-427 | takes a slot or refuses |
| Relay.Server.Release | internal/proxy/relay/relay.go:429-442 | gives it back without leaving a zero |
| RdgwPacket.ParseUndoesBuildIff | internal/proxy/rdgw/packet.go:90-118 | a built packet is read back exactly up to the size limit and while 32 bits of the buffer's length reach it, as below 2^32 they do |
| RdgwPacket.PrefixIsShort | internal/proxy/rdgw/packet.go:90-110 | an incomplete packet is only ever short |
| RdgwPacket.LaterBytesChangeNothing | internal/proxy/rdgw/packet.go:90-110 | bytes that arrive later leave an error as it was, and a packet exactly while 32 bits of the longer length reach it |
| RdgwPacket.ChunkingDoesNotMatter | internal/proxy/rdgw/packet.go:88-110 | however a stream of packets is cut up, the same packets come out exactly when no buffer grows to 2^32 bytes |
| RdgwPacket.SmallChunksSuffice | internal/proxy/rdgw/packet.go:88-110 | chunks that leave room for one packet keep every buffer below that, however long the stream |
| RdgwPacket.TakeAll | internal/proxy/rdgw/packet.go:88-110 | repeated parsing drains a buffer |
| RdgwPacket.DataArrivesIff | internal/proxy/rdgw/packet.go:301-319 | a payload arrives exactly up to 65526 bytes, in a buffer whose length reaches it |
| RdgwPacket.ParseChannelCreate | internal/proxy/rdgw/packet.go:255-286 | the names in a channel request |
| RdgwPacket.ChannelNamesComeBack | internal/proxy/rdgw/packet.go:255-286 | up to sixteen names are read as they were written |
| RdgwPacket.CookieComesBack | internal/proxy/rdgw/packet.go:170-195 | the cookie of a tunnel request is read as it was written |
| RdgwTunnel.Tunnel.Handle | internal/proxy/rdgw/tunnel.go:87-186 | one packet's effect; an error changes nothing, payload only when ready |
| RdgwClient.HandshakeTakenIff | internal/proxy/rdgw/tunnel.go:93-110 | a handshake moves a tunnel on, with success, if and only if it offers extended authentication 0x0002, and is refused as not supported otherwise |
| RdgwClient.CookieTakenIff | internal/proxy/rdgw/tunnel.go:112-137 | a tunnel request is taken if and only if a cookie is there, is not blank, and the authorizer names a machine for it; it is denied otherwise |
| RdgwClient.GetsReadyIff | internal/proxy/rdgw/tunnel.go:87-159 | whatever came before the handshake, a client that sends its four packets gets ready if and only if it offers that method and brings such a cookie; then every answer is a success, and the tunnel has that machine, that cookie and the names asked for |
| RdgwClient.OnlyByHandshakeIff | internal/proxy/rdgw/tunnel.go:93-110 | over all runs a tunnel is past its handshake if and only if a client offered that method in one |
| RdgwClient.NewUntilHandshake | internal/proxy/rdgw/tunnel.go:73-75 | until then it is as new, whatever was sent |
| RdgwTunnel.OneStageAtATime | internal/proxy/rdgw/tunnel.go:87-186 | stages never go back and rise by at most one |
| RdgwTunnel.AdmittedOnce | internal/proxy/rdgw/tunnel.go:112-137 | past authorization there is exactly one accepted, non-blank cookie, and its answer is the backend |
| RdgwTunnel.ReadyMeansAuthorizedOnce | internal/proxy/rdgw/tunnel.go:161-171 | payload flows only behind such an authorization |
| RdgwTunnel.BackendIsFixed | internal/proxy/rdgw/tunnel.go:151-159 | whatever machines the client names, the backend stays |
| RdgwTunnel.PayloadsArriveIff | internal/proxy/rdgw/tunnel.go:161-171 | payloads come out of a ready tunnel as they went in, however the bytes were cut up, exactly when no buffer grows to 2^32 bytes |
| RdgwTunnel.RepliesReadBack | internal/proxy/rdgw/packet.go:146-156 | every reply is a packet of its type with its status where the protocol has it, in every buffer whose length reaches it |
| CborReader.DecodeMap | internal/mfa/webauthn/cbor.go:197-214 | the reader computes the specification on arbitrary bytes, with at most one call per byte and one more |
| CborReader.Reader.Value | internal/mfa/webauthn/cbor.go:100-194 | the same for one value at any depth |
| Cbor.DecodesItem | internal/mfa/webauthn/cbor.go:100-194 | every supported value within the limits is read back from its encoding, which is consumed exactly |
| Cbor.DecodesExactlyEncodings | internal/mfa/webauthn/cbor.go:100-194 | what is read is exactly what some supported value encodes to |
| CborStandard.StandardExactly | internal/mfa/webauthn/cbor.go:178-190 | what is read is a well-formed encoding of RFC 8949, with its meaning, exactly when the walk over the heads meets no wide simple value |
| CborStandard.HalfFloatReadsAsFalse | internal/mfa/webauthn/cbor.go:178-190 | a half float that is read as false, and the walk says so |
| Versions.CompareExact | internal/update/version.go:90-122 | the comparison is the intended order exactly when no subtraction overflows where it decides |
| Versions.Compare | internal/update/version.go:90-122 | the loops compute it |
| Versions.VersionsTotallyOrdered | internal/update/version.go:90-163 | the intended order is a total preorder |
| Versions.ZeroPaddingIrrelevant | internal/update/version.go:176-181 | missing numbers count as zero |
| Versions.ComparedTotalPreorder | internal/update/version.go:25-41 | without negative identifiers the program's comparison is a total preorder |
| Versions.NegativeIdsCanCycle | internal/update/version.go:128-140 | with them it can run in a circle |
| Versions.CompareNatural | internal/update/version.go:146-163 | the two-index loop is the lexicographic order of digit runs and bytes |
| Semver.FollowsSemver | internal/update/version.go:90-140 | versions whose identifiers are numbers within 64 bits or words are ordered as section 11 of Semantic Versioning 2.0.0 has it |
| Semver.FollowsSemverIff | internal/update/version.go:90-140 | any two versions are, exactly when the first pair of identifiers that either order tells apart leads to the same answer |
| Semver.NumeralsDepartIff | internal/update/version.go:128-140 | two numerals are seen differently exactly when both are beyond 64 bits and differ |
| Semver.NumberedDepartIff | internal/update/version.go:146-163 | a word with two numbers goes by the numbers; the standard agrees exactly when the shorter is not above the front of the longer |
| Semver.ReleaseCandidatesDepart | internal/update/version.go:142-163 | rc2 and rc10 |
| Versions.NewerIsStrict | internal/update/version.go:38-44 | newer is irreflexive and asymmetric |
| VersionTags.Parse | internal/update/version.go:48-85 | numbers and pre-release identifiers of a tag |
| VersionTags.ParseUndoesTag | internal/update/version.go:48-85 | a written tag parses to what it was written from |
| RateLimit.WindowBound | internal/notify/notify.go:134-186 | for every pattern of arrivals at most five plus one per whole half minute pass in any window |
| RateLimit.HeldBackExactly | internal/notify/notify.go:134-186 | an entry is held back exactly when letting it pass would break that bound |
| RateLimit.Decide | internal/notify/notify.go:140-170 | the loop decides as the bucket says |
| Notifier.EveryEntryIsAccountedFor | internal/notify/notify.go:109-186 | handled entries are queued, in hand, sent, or counted, in every interleaving |
| Notifier.ArrivalOrder | internal/notify/notify.go:109-186 | messages keep the order of arrival, each at most once |
| Notifier.NeverMoreThanTheLimit | internal/notify/notify.go:134-186 | the window bound for the messages of every run |
| Notifier.SentExactlyIf | internal/notify/notify.go:155-186 | in every interleaving a look becomes a message if and only if the limit lets it pass |
| Notifier.DroppedIffFull | internal/notify/notify.go:109-131 | an entry is dropped exactly when 64 are waiting and waits behind the others otherwise |
| Notifier.Notifier.Look | internal/notify/notify.go:155-170 | one decision of the worker is the machine's step |
| Lockout.BackoffExactIff | internal/auth/auth.go:155-161 | the wait is the intended minimum exactly when the doubling holds no surprise |
| Lockout.SmallBasesAreExact | internal/auth/auth.go:155-161 | always below 2^47 ns |
| Lockout.SmallBasesGrow | internal/auth/auth.go:155-161 | below that the waits grow, so no failure shortens a lock |
| Lockout.LargeBaseCanSurprise | internal/auth/auth.go:155-161 | a base for which it is not, and whose waits do not grow |
| Lockout.LargeBaseShortens | internal/auth/auth.go:141-162 | a run in which the next failure cuts a lock of a day to 65 microseconds |
| Lockout.LockIsOneWait | internal/auth/auth.go:141-162 | in any run a lock reaches exactly one wait beyond the last failure |
| Lockout.LockNeedsFailures | internal/auth/auth.go:141-170 | nobody is locked who has not failed often enough since signing in last, and without a sweep everybody who has is |
| Lockout.FailShortensIff | internal/auth/auth.go:141-162 | when exactly a failure shortens a lock: the next wait and the time since the last failure fall short of this wait |
| Lockout.NeverShortensIff | internal/auth/auth.go:141-162 | no failure in any run shortens a lock exactly when each of sixteen waits is at least the one before |
| Lockout.FailNeverShortens | internal/auth/auth.go:141-162 | in any run a failure never shortens a lock while the waits grow |
| Lockout.LockHolds | internal/auth/auth.go:129-182 | while the waits grow, a reached lock holds for its whole wait whatever else happens, short of a sign-in |
| Lockout.SweepChangesNoLock | internal/auth/auth.go:172-182 | sweeping neither locks nor unlocks; it drops partial counts |
| Lockout.Manager.Fail | internal/auth/auth.go:141-162 | the failure table after a failure |
| Lockout.Manager.SweepLockouts | internal/auth/auth.go:172-182 | the failure table after a sweep |
| Wake.OneWakeAtATime | internal/policy/policy.go:343-363 | at most one wake is under way for a machine |
| Wake.ChannelsCloseOnce | internal/policy/policy.go:355-360 | no channel is closed twice, and an open one has an owner on its way to close it |
| Wake.OutcomeIsFinal | internal/policy/policy.go:412-426 | what a joiner is told is how the attempt ended, for good |
| Wake.WaitersGoOn | internal/policy/policy.go:343-426 | in every reachable state, whoever waits is told the outcome once the owner has gone its way |
| Wake.Board.Enter | internal/policy/policy.go:343-353 | joins what is under way or starts it |
| Updater.Apply | internal/update/apply.go:51-136 | at every moment the binary is the complete old or the complete staged one, and the old one unless request, manifest and staged bytes belong together; if no file operation fails, an update that may be installed succeeds if and only if the service comes back healthy and is rolled back to the old bytes otherwise, and nothing else is installed; if some fail, one that neither succeeds nor is rolled back leaves a binary over which an operation failed, the new one only if that was the way back; nothing else is touched |
| Updater.Replace | internal/update/apply.go:112-135 | the swap, the restart and the way back, with the old binary whole in the backup: a failed restart is rolled back unless an operation of the restoring copy fails |
| Updater.InstallBinary | internal/update/apply.go:371-382 | the swap is all or nothing, and fails only if an operation fails or the file is not there |
| Updater.CopyFile | internal/update/apply.go:384-409 | a copy is complete or only the destination is touched, and fails only if an operation fails or the file is not there |
| Updater.Rollback | internal/update/apply.go:303-331 | puts the backup back exactly unless an operation fails, and leaves the new binary whole then |
| Updater.Finish | internal/update/apply.go:482-501 | the request is cleared exactly unless its removal fails |
| UpdaterStage.Stage | internal/update/update.go:234-324 | nothing the checksums do not vouch for is ever declared staged, and if no file operation fails, what they vouch for and fits is |
| UpdaterStage.ApplyStaged | internal/update/apply.go:51-136 | a successful update installed vouched-for bytes, and what is staged afterwards is still vouched for |
| UpdaterStage.Updates | internal/update/update.go:234-324 | over any sequence of downloads, requests and installations, failing anywhere, the binary is at every moment the first one or one that a checksums file vouched for |
| UpdaterStage.VerifyChecksum | internal/update/update.go:407-459 | the search through the checksums file |
| UpdaterStage.VouchesExactly | internal/update/update.go:438-459 | only the first entry for the file counts, up to case, with or without a star |
| UpdaterStage.WaitHealthy | internal/update/apply.go:248-279 | healthy exactly when an unbroken active stretch of the settling time is seen before failure and deadline |
| UpdaterStage.PruneRollbacks | internal/update/apply.go:335-362 | keeps the two newest copies, whatever their order |

## Left out

- The relay's second direction, idle timers as real time, TLS, sockets, SQL text, systemd, the HTTP server and the front end.
- Passkey assertions: a session opened by one is a step of its own, and which credential it was is not asked; sign counts are not modelled.
- The handlers of enrolment and passkey registration: their statements are steps of `AccessMachine` and methods of `Store`. That the last factor is not to be removed is not modelled: a passkey may be removed at any time.
- The table of review requests: no decision reads it.
- The times stored in consumed_at, revoked_at and used_at: only whether they are set is ever asked.
- How the portal's handlers answer over HTTP; administration other than an account's status is steps of `AccessMachine` without a method.
- The lockout inside the login paths: a barred call simply ends; `Lockout` models the counters themselves.
- The lowest-numbered account answers to an RDP hint where two do; the database does not promise which.
- Machines are looked through by number, the database lists them by name; it keeps names unique, so no two bear the default's.
- A file's mode, owner and timestamps; a restart request and a manual restore.
- The updater's own state file and the absorption of results into it.
- Version tags are taken without the white space around them, which the program trims first.
- Strings from clients that do not use Unicode are taken for UTF-8, as the program takes them; the code page they name is not looked at.
- In `SecondFactor` strings are ASCII; upper-casing other letters is not modelled.
- RDP channel names, GCC blocks the gateway skips, and the TLS choice before the connect sequence.
- Configuration values are taken as validated: durations and bit counts are not negative.
- CLI commands, discovery, public address detection, certificates, the Duo and GitHub clients, and the backup archive.
