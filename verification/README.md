# NodeOS: persistence, provisioning and supervision, verified

A Dafny model of the parts of NodeOS that must survive power losses, and proofs about it.
Two daemons are covered: `initd`, which opens the disks and supervises the services, and
`noded`, which holds the node's identity and the cluster join configuration.

`dafny verify dfyconfig.toml` checks everything.

## How it is built

**What power loss does.** `Storage` models one directory of the state volume. File data that
was not synced is arbitrary afterwards (`Torn`). Directory operations form an ordered list of
name tables, and a power loss keeps some prefix of it. `DirSync` drops any number of the
pending ones, because `write_atomic` ignores the result of its directory sync. `Images` is
the set of what a power loss could leave; most results are about every image, not only about
what the running node sees.

**Writing files.** `AtomicWrite` turns `write_atomic` into the calls it makes, refused or cut
off at any of them, and shows that it is an atomic assignment and that a series of such writes
is published in order. `Volumes` has the code.

**Identity.** `Enrollment` (key in a file) and `TokenIdentity` (key in a TPM token) describe
whole lives of a node: starts, enrollment and renewal attempts cut off anywhere, process
deaths, power losses. `Noded` and `TpmNoded` have the code; each method is proved to follow
such a life. `TokenBundle` adds the CA bundle of a node with a token. `ServedCert` has the
certificate the server presents, and the renewal loop.
`Renewal` and `Pin` are the pure parts.

**Joining a cluster.** `Intent` has validation, `Kubelet` the two rendered files and a line
reader that undoes them, `JoinConfig` the persisted intent, `PUT /v1/config` and `reconcile`.

**Supervision and disks.** `Supervision` and `Disks` are automata over what initd observes and
does; services, tools, TPM, disks and power are free to behave badly. `Initd` and `DiskSetup`
have the code, which updates its state in place; its contract is that every log it leaves is
one that the automaton accepts, so what is proved of accepted logs holds of the code.
`DiskFormats` is about what gets formatted and what survives, `DiskSealing` about keys in the
TPM, `DiskRecovery` about the states of disks and TPM from which a boot can be completed.
`cryptsetup isLuks` may fail on a device that has a header; results that need it to tell the
truth say so (`Disks.Truthful`).

**Together.** `KubeletStart` interleaves noded's file calls with initd's steps.

**Access.** `Access` has the management API's authorization decision.

The EST server, the kernel, the PKCS#11 module, the clock, the random number generator, the
crypto library and the command line tools may refuse any call. Each is an object that records
what it was asked and how it answered (`Host`, `Volumes`, `Pki.EstServer`, `TpmNoded.Pkcs11`,
the logs of `Initd` and `DiskSetup`). The code decides nothing freely: its contracts say which
calls stand on the records, and that it fails only after a recorded refusal.
Keys are numbers; a certificate carries the number of its key. Times and PCR values are
numbers, strings stand for their bytes.

## What turned out to be false, and what holds instead

- A power loss after an interrupted PUT does not always leave the intent from just before it:
  while directory syncs have not taken effect, any intent since the last settled one can come
  back (`JoinConfig.UnsyncedIntentsCanReturn`). An intent that replaced another is settled
  exactly when the directory sync of the PUT that persisted it took everything
  (`JoinConfig.SettledExactly`), or by a power loss (`JoinConfig.PowerLossSettles`). Over a
  settled intent an interrupted PUT leaves it or its own (`JoinConfig.InterruptedPut`); right
  after another PUT exactly if that one's sync took everything (`JoinConfig.OldOrNewExactly`).
  Nothing older than the last
  settled intent ever returns (`JoinConfig.IntentNeverLost`).
- `docs/ENROLLMENT.md` says that renewal replaces certificate and key atomically. The code does
  two renames, and ignores whether the directory syncs after them took effect. The running
  node sees a pair that does not match exactly between the two writes
  (`Enrollment.RenewalInView`). A power loss can leave one exactly unless the renewal wrote
  nothing, or wrote both files and the second directory sync took everything
  (`Enrollment.RenewalSplitsExactly`); so also after a renewal that returned Ok
  (`Enrollment.FinishedRenewalCanSplit`). The node then comes up on that pair
  (`Enrollment.CutRenewalIsServed`).
- The renewal loop says after a failed renewal that it will retry at the next tick. It does so
  exactly if the failed renewal wrote no certificate, or one that is itself due
  (`ServedCert.RetriesExactly`). Otherwise the old pair stays served while nothing fails any
  more (`ServedCert.HalfwayStays`), past its expiry too (`ServedCert.ServesExpired`). Where no
  renewal ends so, the served certificate stays valid (`ServedCert.ServedStaysValid`).
- "Past two-thirds of its lifetime" and `needs_renewal` differ at one instant, due to rounding
  (`Renewal.TwoThirdsRule`).
- Validation lets a newline through after the port's colon, so the kubeconfig can be undone
  exactly when the server has none (`Kubelet.KubeconfigRoundTrip`, `Kubelet.NewlineIsAccepted`).
- Over the files of another intent a reconcile can leave files of both: in view, exactly when
  the intents differ both in a file it has written and in one it has not
  (`KubeletStart.SecondIntentMixesExactly`); after a power loss, exactly when they do so at
  any of its writes, even if it finished (`KubeletStart.MixesAfterPowerLossExactly`). initd
  can start kubelet on such files (`KubeletStart.KubeletStartsMixed`).
- `formatIfEmpty` does not mean that only empty devices are formatted. An encrypted disk is
  formatted exactly when `isLuks` finds no header, whatever else is there
  (`DiskFormats.EncryptedIsFormattedExactly`, `DiskFormats.EncryptedOverwritesExt`); a plain
  disk exactly when it has no ext magic, so another file system is made anew at every boot
  (`DiskFormats.PlainIsFormattedExactly`). Without `formatIfEmpty` nothing is written, whatever
  `isLuks` says (`DiskFormats.NeverWrittenUnasked`).
- Any failure of `cryptsetup isLuks` counts as "no header", and for a plain disk nobody asks. A
  header is formatted over exactly when `isLuks` failed on it and the two calls after that went
  through, or when a plain disk with `formatIfEmpty` had its turn over it and `mkfs` went
  through (`DiskFormats.HeaderOverwrittenExactly`). At each turn of a disk with a header either
  can happen (`DiskFormats.FailingIsLuksOverwrites`, `DiskFormats.PlainMkfsOverwrites`).
- A power loss during first provisioning can lose the volume for good: exactly from
  `luksFormat` until `mkfs` is done, the TPM write in between included
  (`DiskRecovery.CutExactly`, `DiskRecovery.EachCutLosesVolume`). From given disks and TPM
  indices some boot can be completed, now or ever and with `isLuks` truthful, exactly when each
  disk is recoverable, which can be read off its medium and its index, and keys bound to one selection are bound to the
  same values (`DiskRecovery.CompletesExactly`).
- A PIN file that is there need not hold the PIN. A write that was refused leaves a torn one at
  once, and a sync that failed unnoticed lets a power loss tear it; these are exactly the cases
  (`TokenIdentity.WriteTearsExactly`, reached in `TokenIdentity.TornPinIsReached`). What is read
  from it is sure to be the PIN exactly when it is whole (`TokenIdentity.ReadsPinExactly`). The
  token is never set up again, unless a power loss can still take the creation of the file
  back, and exactly then it can (`TokenIdentity.ReprovisionsExactly`,
  `TokenIdentity.TornPinIsFinal`).
- `docs/SECURITY_MODEL.md` says that `PUT /v1/config` answers 501. The code applies the
  intent, and so does the model.

## Model

| member | source | states |
|---|---|---|
| AtomicWrite.AtomicAssignment | crates/noded/src/est.rs:54-94 | Stopped before the rename, by an error or by death at any call, a write changes no lasting file in any crash image; otherwise the target is the whole new content, no other lasting file changes, and every crash image is an old one or exactly the new one, whatever temporary file an earlier call left |
| AtomicWrite.CallsSoFar | crates/noded/src/est.rs:65-85 | At every call before the rename all crash images are as before, and at the rename the temporary file is whole and synced |
| AtomicWrite.FullSyncSettles | crates/noded/src/est.rs:87-92 | Once the directory sync took everything, the new files are all that a power loss can leave |
| AtomicWrite.PartialSyncKeepsOld | crates/noded/src/est.rs:87-92 | Short of that a power loss can still leave the files from before the write |
| AtomicWrite.UnsyncedPartsRemain | crates/noded/src/est.rs:87-92 | After a series of writes without a directory sync in effect, a power loss can leave each first part of it |
| AtomicWrite.OrderedPublication | crates/noded/src/workload/k8s.rs:57-74 | A series of writes, ended by any error or death, shows in every crash image as an old image or a first part of the series; the running system sees exactly the completed part |
| Storage.EveryImageCanRemain | crates/noded/src/est.rs:84-92 | Every image counted as possible is left by some power loss, so the statements over images are not about too many |
| Storage.CrashPicksImage | crates/noded/src/est.rs:84-92 | A power loss leaves one of the images, with unsynced data lost |
| Storage.TempOfInjective | crates/noded/src/est.rs:65 | Two files of one directory never share a temporary file |
| Storage.InPlaceCall | crates/noded/src/pkcs11.rs:244-264 | A call on a file written in place changes that file only, in what is seen and in every image |
| Volumes.Volume.WriteAtomic | crates/noded/src/est.rs:54-94 | The code makes exactly the calls of some fate, in order, on the record of the kernel; it reports an error exactly when the rename was not done, and then a call was refused and nothing has changed; after success the target is assigned, and if the directory sync took everything the new files are all that a power loss can leave |
| Volumes.WriteCallsEnd | crates/noded/src/est.rs:54-94 | Those calls end with the only one that was refused, or, after success, with the directory sync or the refusal to open the directory |
| Volumes.Volume.Stage | crates/noded/src/est.rs:67-82 | Open, write and sync of the temporary file, stopped at the first refusal |
| Volumes.Volume.Publish | crates/noded/src/est.rs:84-92 | The rename, and after it the directory sync whenever the directory opens |
| Enrollment.BootstrapNeverSplits | crates/noded/src/est.rs:195-256 | From a disk without client CA, over whole lives with failed attempts, retries, renewals, deaths and power losses: an image in which the node finds its PKI present has the complete CA bundle of one enrollment and a whole certificate and key, each of that enrollment or of a renewal, and they fit unless a renewal wrote the one and not the other |
| Enrollment.BootstrapHolds | crates/noded/src/est.rs:195-256 | Until the first renewal all three are complete and of one enrollment |
| Enrollment.BootstrapInvHolds | crates/noded/src/main.rs:248-314 | The invariant behind it: in every image a CA bundle stands only over a whole certificate and key so accounted for, and a serving node has its PKI |
| Pki.ConcatIsBundle | crates/noded/src/est.rs:238-244 | The bundle has the length of all certificates together, and from the length of the first i on it has certificate i |
| Pki.EncodeBundle | crates/noded/src/est.rs:238-244 | The loop gives such a bundle, encoding every certificate once, and fails only if that failed |
| Enrollment.RenewalInView | crates/noded/src/est.rs:183-191 | A renewal to a fresh key over a matching pair leaves the visible pair matching if and only if it did not end between its two writes |
| Enrollment.RenewalSplitsExactly | crates/noded/src/est.rs:84-92 | Over a pair that no power loss could split, no power loss can split it after a renewal if and only if the renewal wrote nothing, or wrote both files and the second directory sync took everything pending |
| Enrollment.CutIsAnImage | crates/noded/src/est.rs:183-191 | Unless that is so, the new certificate over the old key is among what a power loss can leave |
| Enrollment.CutAfterPowerLoss | crates/noded/src/est.rs:187-189 | And some power loss then leaves exactly that, which does not match |
| Enrollment.FinishedRenewalCanSplit | crates/noded/src/est.rs:90-93 | A renewal with both writes done and no sync in effect is such a case |
| Enrollment.CutRenewalIsServed | crates/noded/src/main.rs:622-625 | And in each such case a life goes on to find the PKI present and serve that pair |
| Noded.Noded.WriteIdentity | crates/noded/src/est.rs:183-191 | Certificate first, key second, stopped at the first error; success exactly when both are assigned, and failure only after a refusal |
| Noded.DialogsAreBacked | crates/noded/src/est.rs:195-256 | In both dialogs with the server the key is fresh and the certificate is the one issued for it; enrollment presents the bearer token and fetches the CA certificates, renewal presents the pair on disk |
| Noded.Noded.BootstrapEnroll | crates/noded/src/est.rs:195-256 | Each attempt is one enrollment act with the certificate that the server issued for the key just made; success exactly when certificate, key and CA bundle are written, in this order, and then the CA file is all the certificates that the server sent, each in its place; it fails only after something was refused |
| Noded.Noded.Reenroll | crates/noded/src/est.rs:286-307 | Each renewal is one act with the certificate that the server issued for a fresh key, asked for with the pair read from disk; it touches certificate and key only, and fails only after something was refused |
| Pki.CertNeedsRenewal | crates/noded/src/est.rs:338-350 | Answers for the certificate on disk by the time just read; a whole certificate gets an answer unless a read of it or of the clock failed |
| Pki.RenewalIsDue | crates/noded/src/main.rs:281-314 | Renewal is decided for only if due, and not missed if a whole certificate is due and nothing failed |
| Volumes.Volume.ReadFile | crates/noded/src/est.rs:287-290 | A whole file reads as its content, a torn one as anything |
| Noded.Noded.NodePkiPresent | crates/noded/src/main.rs:622-625 | Exactly when all three files are visible |
| Noded.Noded.StartUp | crates/noded/src/main.rs:248-314 | A start is a stretch of a node's life. Without the PKI it enrolls, at most 30 times, and gives up only after 30 failures; with it the node comes up, renews a due certificate, at most 6 times, until one attempt goes through, and skips that only if the certificate is not due, is none, or something failed. Every failed attempt had a refusal of its own, and between two attempts it waits 5 seconds |
| TokenIdentity.IdentityNeverSplits | crates/noded/src/pkcs11.rs:121-144 | With a TPM, over all boots, provisioning and enrollment attempts, renewals, deaths and power losses: a certificate in any image is whole and is for the key now in the token |
| TokenIdentity.PinFileAgrees | crates/noded/src/pkcs11.rs:152-205 | In every image of every reachable state a completely written PIN file holds the token's present PIN |
| TokenIdentity.LogInWorks | crates/noded/src/pkcs11.rs:237-241 | So what `open` reads from such a file, trimmed, is the PIN with which the token accepts the login |
| TokenIdentity.WriteTearsExactly | crates/noded/src/pkcs11.rs:256-261 | After `write_pin` in any reachable state some power loss leaves a torn PIN file if and only if the write was refused or the ignored sync failed; and it is torn at once if and only if the write was refused |
| TokenIdentity.TornPinIsReached | crates/noded/src/pkcs11.rs:152-205 | From any node that was never enrolled, with any PIN, a life leads to a torn PIN file that is all that is left |
| TokenIdentity.ReadsPinExactly | crates/noded/src/pkcs11.rs:125-131 | In every reachable state before an opening with a PIN file there, whatever is read is the token's PIN if and only if the file is whole |
| TokenIdentity.ReprovisionsExactly | crates/noded/src/pkcs11.rs:125-131 | From a node that is down some life sets up the token again if and only if some power loss, or what is there now, leaves no PIN file |
| TokenIdentity.TornPinIsFinal | crates/noded/src/pkcs11.rs:125-131 | From a torn PIN file that no power loss can take back no act of any life initializes the token, sets a PIN or rewrites the file, the file stays torn, and the token keeps PIN and key |
| TokenIdentity.InvHolds | crates/noded/src/pkcs11.rs:121-224 | The invariant behind it: no certificate without a PIN file, and no token re-initialization once there is one |
| TokenBundle.TokenPkiNeverSplits | crates/noded/src/est.rs:195-246 | From a blank node without a CA bundle, over all lives: in every image, PKI that the node would find present is the complete CA bundle of one enrollment and a whole certificate for the key in the token |
| TpmNoded.TpmNode.WritePin | crates/noded/src/pkcs11.rs:244-264 | In place, with the failure of the sync ignored, as one of the PIN writes of the life model |
| TpmNoded.TpmNode.ReadPin | crates/noded/src/pkcs11.rs:237-241 | The file's text, trimmed; anything at all if the file is torn |
| TpmNoded.TpmNode.InitializeToken | crates/noded/src/pkcs11.rs:180-194 | The five PKCS#11 calls that set the PIN, in order; each that is refused may still have taken effect, and the steps are steps of the life |
| TpmNoded.TpmNode.ProvisionToken | crates/noded/src/pkcs11.rs:152-205 | The PIN returned is the second one drawn, and was set in the token, on the first slot with a token or else the first slot, and written; none is returned only after a refusal |
| TpmNoded.TpmNode.EnsureKey | crates/noded/src/pkcs11.rs:209-224 | An existing key is returned and kept; a new one is made only if there is none |
| TpmNoded.TpmNode.Open | crates/noded/src/pkcs11.rs:121-144 | Whatever is refused, `open` is a stretch of a life that ends past the login with a key in the token, or, only after a refusal or over a PIN file that is no whole PIN, down |
| TpmNoded.TpmNode.BootstrapEnroll | crates/noded/src/est.rs:195-246 | An enrollment act with the certificate that the server issued for the token's key, then the CA file with all certificates that it sent, each in its place, and no key file; it fails only after something was refused |
| TpmNoded.TpmNode.Reenroll | crates/noded/src/est.rs:267-285 | A renewal act for the same key that rewrites the certificate only, presents the certificate on disk, and fails only after something was refused |
| TpmNoded.TpmNode.StartUp | crates/noded/src/main.rs:239-314 | Opening the token, then with the PKI incomplete at most 30 enrollment attempts, all made unless one goes through, and otherwise at most 6 renewal attempts for a due certificate, likewise, is a stretch of a life; it is down only if the token was not opened or every enrollment failed; every failed attempt had a refusal of its own |
| Pin.RandomPin | crates/noded/src/pkcs11.rs:227-235 | 24 letters or digits, the ones drawn, in order |
| Pin.EveryPinIsDrawn | crates/noded/src/pkcs11.rs:227-235 | Every PIN of letters and digits can be drawn |
| Pin.DrawnOnce | crates/noded/src/pkcs11.rs:227-235 | And by one sequence of draws alone, so even draws give even PINs |
| Pin.TrimKeeps | crates/noded/src/pkcs11.rs:240 | A text survives being written and read back through `trim` if and only if it has no white space at either end |
| Pin.PinSurvivesTrim | crates/noded/src/pkcs11.rs:227-241 | Every PIN survives |
| ServedCert.ServedPairMatches | crates/noded/src/main.rs:739-766 | After any number of ticks with any failures of EST, writes and reloads the served certificate and key match, and are the first pair or that of a renewal that wrote everything and was reloaded; nothing is asked of the disk at the start |
| ServedCert.DueTickServes | crates/noded/src/main.rs:747-762 | A tick over a due certificate, in which nothing fails, renews it and ends with the new pair on disk and served |
| ServedCert.ServedStaysValid | crates/noded/src/main.rs:739-766 | With ticks at most a gap apart, at most k in a row in which something fails, no renewal left halfway, and certificates whose last third is longer than k + 1 gaps, the served certificate is unexpired at every tick and until the next |
| ServedCert.RetriesExactly | crates/noded/src/main.rs:750-752 | After a renewal that failed the next tick without a failure tries again if and only if the failed one wrote no certificate, or the one it wrote is itself due |
| ServedCert.HalfwayStays | crates/noded/src/main.rs:750-762 | Otherwise nothing happens, and the old pair is served, for any number of ticks at which the new certificate is not due |
| ServedCert.ServesExpired | crates/noded/src/main.rs:750-762 | So from any server whose certificate is due, one refused write and a tick without failure lead to serving an expired certificate |
| ServedCert.DiskCanDisagree | crates/noded/src/est.rs:187-189 | Meanwhile one tick can leave a pair on disk that does not match |
| ServedCert.ReloadTakesNewPair | crates/noded/src/main.rs:677-683 | What a reload takes is the pair just renewed |
| ServedCert.ReloadableCert.BuildCertifiedKey | crates/noded/src/main.rs:701-716 | Certificate from the file, key from the key file or the token; whole files give a pair unless something fails |
| ServedCert.ReloadableCert.Reload | crates/noded/src/main.rs:677-683 | Replaces the pair by what is on disk, or, after a failure or over files that are not whole, keeps it |
| ServedCert.RenewalLoop | crates/noded/src/main.rs:739-766 | The loop with a key file sleeps the interval, at least a second, before each tick, and does only such ticks: none is idle over a due certificate and none lacks its reload unless something failed in it; it serves a matching pair |
| ServedCert.RenewalLoopTpm | crates/noded/src/main.rs:739-766 | The same with a token key |
| Renewal.DueFrom | crates/noded/src/est.rs:328-335 | Renewal is due from one instant on, the opening of the window of a third of the lifetime, also with an expiry before the start |
| Renewal.DueIsMonotone | crates/noded/src/est.rs:328-335 | Once due, due for ever |
| Renewal.TwoThirdsRule | docs/ENROLLMENT.md:83-85 | Due exactly when past two thirds of the lifetime, but for one instant where the third is rounded down |
| Renewal.RenewalCoverage | crates/noded/src/main.rs:744-748 | A loop that starts before the window W opens, with gaps of at most I, makes at least floor((W - 1) / I) checks that are due and before expiry; with W = 0 none |
| Renewal.CoverageIsTight | crates/noded/src/main.rs:744-748 | Some loop with gaps of I makes exactly that many |
| Intent.ApiServerLanguage | crates/noded/src/workload/mod.rs:100-121 | A server is accepted if and only if it is https, a bracketed IPv6 literal, and nothing or a colon and anything at all |
| Intent.TokenLanguage | crates/noded/src/workload/mod.rs:124-132 | Splitting at the first dot accepts exactly the 23-byte strings with a dot at index 6 and lower-case letters or digits elsewhere |
| Intent.ValidatedExactly | crates/noded/src/workload/mod.rs:64-95 | An intent is accepted if and only if server and token have the shapes above, the CA parses, there is at least one DNS entry, each entry is an IP address, and the domain is non-empty and of letters, digits, dots and dashes |
| Kubelet.RenderKubeletConfig | crates/noded/src/workload/k8s.rs:131-157 | The text built entry by entry is the joined lines of the configuration |
| Kubelet.LinesOfJoin | crates/noded/src/workload/k8s.rs:131-157 | Joining whole lines and splitting again gives them back, for any number of lines |
| Kubelet.KubeletConfigRoundTrip | crates/noded/src/workload/k8s.rs:131-157 | For every validated intent a line reader gets the domain and the DNS list, in order, back |
| Kubelet.KubeletConfigSettings | crates/noded/src/workload/k8s.rs:131-157 | For every validated intent the reader finds anonymous access off, webhook authentication on, authorization by webhook, certificate rotation on, and the cgroup driver and runtime socket of this system |
| Kubelet.KubeletConfigInjective | crates/noded/src/workload/k8s.rs:131-157 | Validated intents with the same rendering agree on both |
| Kubelet.KubeconfigServer | crates/noded/src/workload/k8s.rs:103-126 | For every intent, validated or not, the reader gets the server up to its first newline |
| Kubelet.KubeconfigRoundTrip | crates/noded/src/workload/k8s.rs:103-126 | Server and token of a validated intent come back if and only if the server has no newline |
| Kubelet.KubeconfigLinks | crates/noded/src/workload/k8s.rs:103-126 | Then the current context is the one there is, and the cluster and user it names are the ones with the server and the token |
| Kubelet.NewlineIsAccepted | crates/noded/src/workload/mod.rs:115-119 | Every validated intent has a validated variant with a newline, whose server does not come back |
| JoinConfig.IntentNeverLost | crates/noded/src/main.rs:449-485 | From the point where an intent or its absence is settled, no PUTs cut off anywhere, boots and power losses bring back anything but it or an intent persisted since |
| JoinConfig.InterruptedPut | crates/noded/src/main.rs:468-475 | One PUT cut off anywhere over a settled intent, and a power loss: the node loads the intent from before or, if the PUT got as far as the rename, the PUT's own |
| JoinConfig.SettledExactly | crates/noded/src/est.rs:84-92 | A PUT that persists another intent than the one loaded before settles it if and only if its directory sync took everything, whatever was settled before; one that ends before its rename changes nothing about that |
| JoinConfig.PowerLossSettles | crates/noded/src/main.rs:434-443 | After a power loss the intent that is there is settled |
| JoinConfig.OldOrNewExactly | crates/noded/src/main.rs:468-475 | With one PUT persisted over another intent and a second one interrupted, every power loss leaves the first's intent or the second's own if and only if the directory sync of the first took everything |
| JoinConfig.UnsyncedIntentsCanReturn | crates/noded/src/est.rs:90-92 | After any series of PUTs without a directory sync, each of their intents can be the one that a power loss leaves |
| JoinConfig.RecoveryConverges | crates/noded/src/main.rs:331-334 | After any life that ends in a boot whose reconcile succeeded, all three join files are the rendering of the intent the node has, and that intent is accounted for |
| JoinConfig.RenderingsNameTheCaFile | crates/noded/src/workload/k8s.rs:57-74 | Both files that kubelet reads, read back line by line, name the CA file that `reconcile` writes before them |
| JoinConfig.RenderedStays | crates/noded/src/workload/k8s.rs:44-82 | Over files that are rendered already a reconcile, ended anywhere, changes nothing in view and adds nothing to what a power loss can leave |
| JoinConfig.ReconcileIsIdempotent | crates/noded/src/workload/k8s.rs:44-82 | So after a reconcile that went through, a second, ended anywhere, makes no difference to either |
| JoinConfig.ConfigApi.LoadNodeIntent | crates/noded/src/main.rs:434-443 | The persisted intent, or none if there is none or the read failed |
| JoinConfig.ConfigApi.Reconcile | crates/noded/src/workload/k8s.rs:44-82 | An invalid intent writes nothing; otherwise CA, kubelet config and marker are written in this order up to the first error, success is exactly all three, and an error takes a refusal |
| JoinConfig.ConfigApi.PutConfig | crates/noded/src/main.rs:449-485 | 400 exactly for an invalid intent, which changes nothing; every other outcome is an act of the life model; after 200 the intent is the one to be loaded and the join files are its rendering; 500 only after something failed |
| JoinConfig.ConfigApi.ReconcileAtBoot | crates/noded/src/main.rs:331-334 | The boot act of the life model, from the intent found; a valid one is rendered unless something failed; without an intent the join files stay |
| KubeletStart.KubeletStartsConfigured | crates/initd/src/main.rs:541-557 | In every interleaving of noded's calls with initd's steps, with deaths and power losses: from the first spawn of kubelet on, all join files are whole and of validated intents, and of the one intent if only one was applied |
| KubeletStart.SpawnMeansMarker | crates/initd/src/main.rs:604-624 | A gated service is spawned only in a boot that saw its marker |
| KubeletStart.MarkerStays | crates/noded/src/workload/k8s.rs:67-74 | A marker that initd saw is still there later in that boot |
| KubeletStart.SecondIntentMixesExactly | crates/noded/src/workload/k8s.rs:57-74 | For any two intents: a reconcile of the second over the files of the first, ended anywhere, leaves the files of one of the two if and only if the files it wrote are the same for both, or those it did not get to are |
| KubeletStart.MixesAfterPowerLossExactly | crates/noded/src/est.rs:90-92 | For any two intents, over the settled files of the first: with n files written, no power loss leaves mixed files, whatever the directory syncs did, if and only if that condition holds at each of the writes up to n |
| KubeletStart.KubeletCanStartMixed | crates/initd/src/main.rs:541-557 | After a second intent was reconciled to the end, and a power loss before its syncs took effect, every run of initd that sees the marker is a run over the mixed files |
| KubeletStart.UnfittingIntent | crates/noded/src/workload/k8s.rs:57-74 | Every validated intent has a second one, for the same cluster CA and server, whose files mix with its own |
| KubeletStart.KubeletStartsMixed | crates/initd/src/main.rs:541-557 | So over the files of any validated intent, in any configuration with a gated kubelet, some run of the two daemons reconciles a second one to the end, loses power, and spawns kubelet over files that are neither's |
| KubeletStart.MarkerStartsKubelet | crates/initd/src/main.rs:600-624 | In every interleaving: once the marker is visible before a tick of `supervise` begins, with kubelet deferred and power staying on, the tick contains an attempt to spawn kubelet, whatever noded does meanwhile |
| Supervision.SpawnsBalanceExits | crates/initd/src/main.rs:600-645 | At every point of every run each started service has one spawn more than exits, save between an exit and its restart or the end; a service not started has none of either; a `Never` service is spawned at most once |
| Supervision.ChildrenStay | crates/initd/src/main.rs:602-637 | A child once set is never unset |
| Supervision.SlotHoldsLastSpawned | crates/initd/src/main.rs:600-645 | At every point of every run a slot holds the child of its service's last successful spawn, and none if there was none |
| Supervision.WaitsForLastSpawned | crates/initd/src/main.rs:625-637 | So every wait is for the child spawned last, and an exit is followed by a spawn of that service or nothing |
| Supervision.ShapeHolds | crates/initd/src/main.rs:537-645 | Slots follow the configuration's order, only gated services are deferred, and every end is at a service whose policy allows it |
| Supervision.FirstStartSeesMarker | crates/initd/src/main.rs:541-557 | The first start of a gated service comes directly after its marker was seen |
| Supervision.SeenMarkerIsActedOn | crates/initd/src/main.rs:606-624 | A marker that is seen is acted on at once, so a failed deferred start is tried again at each visit that finds it |
| Supervision.StartOrder | crates/initd/src/main.rs:537-573 | Every spawn of `start_services` comes after each earlier service was deferred, or was spawned and had its ready marker seen or its timeout run out |
| Supervision.ReadinessWaitIsBounded | crates/initd/src/main.rs:576-598 | At most 5 T + 1 polls for a timeout of T seconds, however long the sleeps take |
| Supervision.ReadinessIsPolled | crates/initd/src/main.rs:578-598 | And at least one, even for T = 0 |
| Supervision.SuperviseEndsExactly | crates/initd/src/main.rs:600-645 | The loop ends if and only if the last step was the exit of a `Never` service, a failed wait, or a failed restart, and for that cause |
| Supervision.EveryTickVisitsAll | crates/initd/src/main.rs:600-643 | Between two sleeps every service is looked at exactly once |
| Initd.Init.AwaitReady | crates/initd/src/main.rs:580-598 | Follows the automaton, and ends within the bound |
| Initd.Init.StartServices | crates/initd/src/main.rs:537-573 | Leaves an accepted log and one slot per service in order, or ends at a failed spawn |
| Initd.Init.Visit | crates/initd/src/main.rs:603-639 | One visit keeps the log accepted, over the children it leaves in the slots, and touches its own slot only |
| Initd.Init.Supervise | crates/initd/src/main.rs:600-645 | For any number of ticks the log stays accepted, each slot holds its service's last child, slot i holds entry i, no child is unset, all ticks are done with a sleep after each, and an end is an error of the automaton |
| DiskFormats.HeaderOverwrittenExactly | crates/initd/src/main.rs:196-259 | In any run over boots and power losses the header on a disk's device is formatted over if and only if `isLuks` failed on it and the key and the format directly after went through, or the disk is a plain one that had its turn over the header and whose mkfs went through |
| DiskFormats.NeverFormatsHeader | crates/initd/src/main.rs:235-255 | So never on an encrypted disk, over any number of boots and power losses, as long as `isLuks` tells the truth |
| DiskFormats.PlainMkfsOverwrites | crates/initd/src/main.rs:201-203 | From every point of every run at which a plain disk over a header is checked for ext, the run can go on to lose the header |
| DiskFormats.FailingIsLuksOverwrites | crates/initd/src/main.rs:283-290 | From every point of every run at which a disk with a header and `formatIfEmpty` has its turn, the run can go on to lose the header and the data |
| DiskFormats.HeaderSurvives | crates/initd/src/main.rs:196-259 | A header that is not formatted over stays with its key in every run, whether or not there is a file system behind it, and whether its disk is configured as encrypted or plain |
| DiskFormats.DataSurvives | crates/initd/src/main.rs:196-259 | A file system inside a LUKS volume whose header is not formatted over, on a plain disk with the ext magic, or on one not to be formatted, is the same after any run, and so is the volume's key |
| DiskFormats.NeverWrittenUnasked | crates/initd/src/main.rs:196-259 | A disk without `formatIfEmpty`, encrypted or plain, is never written, whatever `isLuks` says; nor is a plain disk without an mkfs command |
| DiskFormats.MkfsFollowsFormat | crates/initd/src/main.rs:241-250 | A file system is made behind a mapping only in the boot that wrote the header of that disk |
| DiskFormats.PlainIsFormattedExactly | crates/initd/src/main.rs:201-204 | A plain disk is formatted in its turn if and only if it is to be formatted and has no ext magic |
| DiskFormats.EncryptedIsFormattedExactly | crates/initd/src/main.rs:235-250 | An encrypted disk whose turn goes through was formatted in it if and only if it had no header or `isLuks` failed over it, and has a header then |
| DiskFormats.EncryptedOverwritesExt | crates/initd/src/main.rs:235-250 | So an ext file system on the device of any encrypted disk is gone when its turn is through |
| DiskSealing.DoneMeansSealed | crates/initd/src/main.rs:196-224 | When `apply_disks` returned Ok, every encrypted disk is open and its own key is in its own index, bound to the PCRs of that boot, whatever `isLuks` said |
| DiskSealing.StaysSealed | crates/initd/src/main.rs:229-259 | No later boot, finished or cut off, under any PCRs, changes that for any disk, with `isLuks` truthful |
| Disks.OthersUnmoved | crates/initd/src/main.rs:349-392 | A step for one disk leaves the medium, index and mapping of every other disk alone |
| DiskSealing.NextCallCanSucceed | crates/initd/src/main.rs:229-259 | At every point of a boot over disks that are sealed or fit for first provisioning, if so far the call that clears an index took effect, the platform allows the next call, an index left by an earlier attempt included |
| DiskSealing.OnlyRefusalsGiveUp | crates/initd/src/main.rs:229-259 | And at such a point the code gives up only on a reported refusal, or on `isLuks` failing over a header |
| Disks.GivenUpExactly | crates/initd/src/main.rs:196-259 | Within a boot the disks are given up if and only if a call was refused, or a disk is not to be formatted and has no header, or has no mkfs command where one is needed |
| DiskSealing.UsableGivesUpExactly | crates/initd/src/main.rs:196-259 | Over disks that are sealed or fit for first provisioning, with `isLuks` truthful, if and only if a call was refused |
| DiskSealing.BootCompletes | crates/initd/src/main.rs:196-224 | So from any such point the boot can be carried through to all disks open, mounted and sealed, without a refusal |
| DiskSealing.FirstBootCompletes | crates/initd/src/main.rs:196-259 | From power-on, any list of distinct disks, each sealed to the present PCRs or without a header and fit for provisioning, can be brought up, whatever the indices held |
| DiskSealing.SealUnsealRoundTrip | crates/initd/src/main.rs:229-259 | For any list of distinct disks: once a boot returned Ok, then after any later boots, the next boot under the same selected PCR values can open every disk, each with the header and key it had |
| DiskRecovery.CompletesExactly | crates/initd/src/main.rs:196-259 | From given disks and indices some boot, now or ever, can be completed with `isLuks` truthful if and only if each disk is recoverable, by its medium and index alone, and keys bound to one selection are bound to the same values |
| DiskRecovery.LostVolumeIsFinal | crates/initd/src/main.rs:235-240 | As long as `isLuks` tells the truth, no boot, ever, gets past a disk that is not recoverable at power-on |
| DiskRecovery.CutExactly | crates/initd/src/main.rs:243-250 | At any point of any boots from a provisionable disk, a power loss leaves it recoverable if and only if its header was not written yet or its file system was made |
| DiskRecovery.EachCutLosesVolume | crates/initd/src/main.rs:243-250 | A boot that comes to any fresh disk can be cut off, without any refusal, after each of the calls from `luksFormat` to the TPM write, and then that disk is not recoverable |
| DiskSetup.Disker.TpmNvStore | crates/initd/src/main.rs:349-392 | The steps of clearing, defining and writing the index, under the policy of the present PCRs, and no others; the digest and session tools are run in order |
| DiskSetup.Disker.TpmNvRead | crates/initd/src/main.rs:394-410 | The step of reading the index, under the policy of the present PCRs; the key file is then made private |
| DiskSetup.Disker.StartPolicySession | crates/initd/src/main.rs:414-428 | The session's policy is the selection at its present values; one that cannot be satisfied is flushed |
| DiskSetup.Disker.PolicyDigest | crates/initd/src/main.rs:369-377 | The policy of a new index is the selection at its present values, by the four tools in order |
| DiskSetup.OpenToolsPrivate | crates/initd/src/main.rs:336-428 | However a disk is opened its key file is made private, and sessions are used and flushed exactly for keys bound to PCRs |
| DiskSetup.Disker.FormatTarget | crates/initd/src/main.rs:317-330 | It runs the mkfs command once and fails exactly if that did not go through, or if there is none |
| DiskSetup.Disker.OpenEncrypted | crates/initd/src/main.rs:229-259 | Unlocking or provisioning by the header alone; the key file is removed after every attempt to open or provision, successful or not; it fails if and only if there was a reason, as above |
| DiskSetup.Disker.ApplyDisks | crates/initd/src/main.rs:196-224 | Leaves an accepted log; after Ok all encrypted disks are open and sealed to this boot's PCRs, and every helper tool was run; Ok if and only if there was no reason to give up, which over usable disks takes a refused call |
| Access.RoleForIsHighest | crates/noded/src/main.rs:122-128 | A level is reached if and only if some binding lists the name with at least it |
| Access.DecisionIsDeclarative | crates/noded/src/main.rs:501-524 | Allowed if and only if the route needs no role or some binding lists the caller with at least the required one; and the reason tells apart a caller that no binding lists |
| Access.MoreBindingsAllowMore | crates/noded/src/main.rs:122-128 | Adding bindings takes no permission away |
| Access.SameBindingsSameDecision | crates/noded/src/main.rs:122-128 | Neither order nor repetition of bindings matters |
| Access.RouteTable | crates/noded/src/main.rs:490-497 | Route by route and role by role: health for anyone, status for any role, configuration for all roles but viewer, every other route for the break-glass role alone |

## Left out

- EST transport, requests and their encoding, TLS, the FIPS provider, PEM and DER: the server refuses, says pending, or issues a certificate for the requesting key.
- JSON, YAML and TOML: what was serialized parses back.
- The address parsers and the PEM parser: of the former only the alphabet of accepted text is assumed, of the latter nothing.
- Directories: `create_dir_all` may fail, but that a directory created by it survives a power loss is taken for granted; so are file modes.
- Two PUTs at once: `put_config` takes no lock and the temporary file has a fixed name; one PUT runs at a time.
- The token's own storage: its state is taken to survive power losses, and a refused call either took effect or did not.
- Keys: two generated keys may be equal in the model, except where a lemma asks for a fresh one.
- Data reaching the disk by itself: name tables only by `DirSync` or at a power loss, file contents only by a sync; an unsynced file is arbitrary after a power loss, even if in truth it was written.
- Disk paths: mapper paths stand for the device they map, mount targets and mount flags only for calls that may fail; `mount_flags`, remounts and network interfaces have no property of interest.
- PCR policies: different values never have the same digest, and the values of different selections are independent; that a session outlives the boot is not modelled.
- A tool that is cut off by a power loss: it has either spoilt the medium or done its work, as with a refused one.
- Services' own work, signals, the accept loop, audit output, health and status handlers, configuration parsing, Common Name extraction, the kvm profile.
- TokenIdentity.IdentityNeverSplits: the number of enrollment attempts is not bounded there, which only allows more lives.
- Startup's loading of the server certificate, and certificate files with no certificate in them: the resolver starts from a pair given to it.
- The log line of PCR values before a disk is opened, which nothing depends on.
- Initd.Init.Supervise: the endless loop is observed for any number of ticks instead of for ever, and so are the renewal loops.
