# no-slop: a verified model of its protocols

This project models the parts of no-slop whose correctness is hardest to see
from the code, and proves what they are for:

- **Branch custody** (`Objects`, `Runs`, `Worlds`, `Commands`, `Inspection`,
  `Recovery`, `Reruns`, `Advance`): two repositories (refs, objects, a commit graph with
  trees), checked-out files and run records. Each git or database command is
  one atomic step of a `Session` that takes effect or fails; before every
  command outsiders may do anything at all except touch the private refs. The
  log of all steps is part of the state, so a property of it holds at every
  crash point.
- **Structured output** (`Schema`, `Scanner`, `Extraction`, `Texts`): the
  rewriting of JSON schemas and its meaning, the string-aware brace scanner
  against a JSON printer, and the choice of the answer in an agent's text.
- **Following and driving a run** (`Mailbox`, `Reconciler`, `Driver`): the
  daemon's bounded event mailbox, the client that must never miss a wakeup, and
  the loop that answers approval gates, against an arbitrary daemon.
- **Streams and counts** (`Clusters`, `OpenCode`, `Usages`, `Sse`, `Capture`,
  `Tail`, `Shell`, `Metrics`): online clustering of findings, the OpenCode event
  machine, server-sent events, a chunked recorder, a tail buffer, the shell
  splitter and the counters it feeds.
- **Running agents** (`Dispatch`, `Lease`, `Pipes`): retries, quota lanes,
  fallback, leased seats, and the end of a native agent's output pipes.

`dafny verify dfyconfig.toml` checks everything.

## What turned out false of the code

- *A re-run of a recovery reports the same facts.* `Reruns.ReturnForgotten` is a
  world where `Recover` returns custody and, called again at once, refuses:
  there is nothing to recover. The second call answers for the same run if and
  only if no newer record speaks for the branch and no other run on it is
  outstanding, and then repeats the report and changes nothing; it repeats the
  report and changes nothing if and only if whichever run inspection now selects
  answers with the same facts (`Reruns.RecoverTwice`).
- *A keep-local recovery that crashed after moving the gate resumes.* It does if
  and only if, in the world it left, no record before it on the branch is
  unpublished, the recorded head is anchored and still unpublished, and that head
  is verified or the kept head is the submitted one (`Reruns.RecoverAfterCut`).
  `Runs.GateMoveHidesStranded` is a history where the gate move brings back a run
  that the old gate head superseded; `Reruns.CutAndResumed` cuts a call short in
  that history, where the next call does not return the run, and in the same one
  without the superseded run, where it does.
- *Relaxing a schema only adds values.* It loses some if and only if the schema
  accepts an object that has an optional property whose `type` list names no type
  and which takes something other than null, or reaches such a node through
  fields and items it accepts (`Schema.RelaxKeepsIff`): the validator ignores
  such a list, but the edit adds `"null"` to it, which turns it into "null only".
  `Schema.RelaxCanLose` is such a schema with a value, `Schema.UnsafeOutOfReach`
  one where the same property does no harm.
- *A private anchor, once written, keeps what it names.* The lookup of an anchor
  takes every failure for an absent ref (internal/branchsync/sync.go:1286-1290), and
  `Recover` and `Apply` then write or force-fetch over it. Such a write loses
  nothing if and only if the commit written or another ref holds the commit the
  anchor named (`Commands.OverwriteKeepsIff`); of all steps of either call it and
  the reset below are the only ones that can lose anything
  (`Commands.OwnStepKeepsIff`, `Recovery.Recover`, `Advance.Apply`), and while every
  lookup is answered it does not happen. `Reruns.AnchorForgotten` is a world in
  which `Recover` reports that custody is returned and a commit is gone.
- *A hard reset loses nothing.* The unguarded reset, the one move of `Apply` that
  can follow an outside step unseen, keeps everything if and only if the head it
  leaves is held elsewhere and each file it changes has its content in a held
  commit (`Commands.ResetKeepsIff`, `Commands.ResetCanLose`).
- *No gate is answered twice.* True within a drive loop. Over joined loops it
  holds if and only if no loop opens by answering a gate whose earlier answer no
  snapshot has left behind (`Driver.RunDriver.Reattach`); `Driver.AnsweredTwice`
  is two loops where one does.
- *A part's chunks add up to its emitted text.* They do if and only if no event
  forgets the part, or gives out a text that does not extend what was given,
  after something of it was given out (`OpenCode.ChunksAddUpIff`); where texts only
  grow, if and only if the part is not dropped after it was given out
  (`OpenCode.GrowingAddsUpIff`). Four short streams in which a listener does not get
  what it is due: `OpenCode.PartChangesMessage`, `OpenCode.MessageChangesRole`,
  `OpenCode.UserMessageHasNoId` and `OpenCode.TextIsReplaced`.
- *The text parsed for the answer does not depend on when messages are marked.* It
  does where two parts have text: the part whose message is marked last comes last
  (`OpenCode.LastFollowsMarkers`). Where at most one part has any it does not
  (`OpenCode.ParseBoth`).
- *Every granted seat is handed back.* One granted in an answer that names no
  lease id is not (`Lease.HandedBack`); every other is, exactly once.

## Model

| member | source | states |
|---|---|---|
| Commands.NothingLostAnywhere | internal/branchsync/sync.go:569-758 | At every point of any interrupted, interfered-with run of commands, a commit that was reachable from a non-staging ref of either repository still is, if no outside step lost that commit, nor one of our own that replaced something held by nothing else |
| Commands.OwnStepKeepsIff | internal/branchsync/sync.go:569-758 | Whoever interferes, a step of our own loses no commit and no overwritten content exactly when it replaces no taken anchor and meets no changed worktree with a reset, or what it replaces is held by something else as well |
| Commands.ChainGrows | internal/branchsync/sync.go:569-758 | A history stays unbroken, and lossless in its own steps, when one more lossless or permitted outside step follows |
| Commands.SwapIsLossless | internal/branchsync/sync.go:941-1043 | Moving a branch by compare-and-swap loses nothing when the commit it leaves is anchored |
| Commands.FastForwardIsLossless | internal/branchsync/sync.go:846-876 | A strict fast-forward to an anchored commit loses no commit and no file content |
| Commands.RewriteIsLossless | internal/branchsync/sync.go:941-1043 | The two-tree checkout overwrites only content that a held commit has |
| Commands.ResetIsLossless | internal/branchsync/sync.go:441-448 | From the anchored, clean, expected head the hard reset loses nothing |
| Commands.ResetKeepsIff | internal/branchsync/sync.go:448-448 | An unguarded hard reset loses nothing exactly when the head it leaves is held by something else and each file it changes has its content in a commit that is |
| Commands.ResetCanLose | internal/branchsync/sync.go:448-448 | A commit and an edit that are gone after a reset |
| Commands.ResetArrives | internal/branchsync/sync.go:448-448 | The reset brings HEAD to the target and ends a rewrite in progress; the worktree is clean afterwards exactly when it held no file that neither commit has |
| Commands.OverwriteKeepsIff | internal/branchsync/sync.go:1055-1137 | A plain write or forced fetch over a taken anchor loses nothing exactly when the commit written or another ref holds the commit the anchor named |
| Commands.Session.PutAnchor | internal/branchsync/sync.go:1124-1137 | The write takes effect whatever the anchor names, touches no other private ref, and is on record as an overwrite exactly when the anchor named another commit |
| Commands.Session.CreateAnchor | internal/branchsync/sync.go:968-972 | The create-only anchor never replaces one that exists |
| Commands.Session.FetchGateBranch | internal/branchsync/sync.go:715-722 | The forced fetch brings whatever commit the gate branch has become into the anchor, whatever that named, and is on record as an overwrite exactly when that was another commit |
| Commands.Session.FetchStaged | internal/branchsync/sync.go:1055-1079 | The same of the gate's staging ref |
| Commands.Session.ReadAlias | internal/branchsync/sync.go:1278-1305 | A spelling whose lookup fails counts as absent: what is found or in conflict is so, and with every lookup answered the canonical spelling comes before the legacy one |
| Commands.Session.SwapGate | internal/branchsync/sync.go:835-838 | Under interference the gate branch moves only from exactly the expected commit, which the new head contains or an anchor pins |
| Commands.Session.SwapBranch | internal/branchsync/sync.go:986-1018 | Under interference a branch moves, or moves back, only from exactly the expected, anchored commit: a concurrent commit is never overwritten |
| Commands.Session.ReadTree | internal/branchsync/sync.go:1013-1013 | Refuses untouched where a rewritten path holds neither the old nor the new content; otherwise only content that a held commit has is overwritten |
| Commands.Session.MergeFastForward | internal/branchsync/sync.go:856-856 | HEAD moves forward to the commit, is already past it, or nothing happens; where HEAD can be fast-forwarded and the command may succeed, it is |
| Commands.Session.ResetHard | internal/branchsync/sync.go:448-448 | Resets whatever HEAD is; anchored and lossless unless an outside step left something other than the clean expected head, and on record as exposed exactly then |
| Commands.Session.StampRun | internal/branchsync/sync.go:1142-1142 | The stamp changes one record's custody mark and nothing else, and in a call that may move HEAD only after it was seen to have arrived |
| Commands.Session.SetRunHead | internal/branchsync/sync.go:625-627 | Recording a new pipeline head withdraws that run's terminal verification and touches no other record |
| Runs.Select | internal/branchsync/sync.go:1387-1416 | The selection loop answers with the first run that is active or unpublished and not superseded, else the first bound, returned or released one; a run it passes over is not active, and owes nothing unless a newer run covers it: same branch, kind, fingerprint and ref, pushed whole at the gate head, which contains the older one |
| Runs.ChosenIsUnique | internal/branchsync/sync.go:1387-1416 | That specification admits exactly one answer |
| Runs.SkippedIsCovered | internal/branchsync/sync.go:1732-1751 | The same of any answer the specification admits: before the choice, or on the whole branch when the choice is settled or none |
| Runs.SoleIsSelectedIff | internal/branchsync/sync.go:1387-1416 | In the fields of a record that is alone on its branch, exactly when it is selected: it is active, returned or was pushed, its head moved, or it ended unverified or with a real head |
| Runs.OlderIsSelectedIff | internal/branchsync/sync.go:1387-1416 | In the fields of two records on a branch whose newer one was pushed whole, exactly when the older is selected: it is active, or owes something the newer does not cover |
| Runs.ReselectedIffUnrivalled | internal/branchsync/sync.go:1387-1416 | A stamped run is selected again if and only if no newer record speaks for its branch and no other is outstanding |
| Runs.NewerBindingHidesReturn | internal/branchsync/sync.go:1387-1416 | A concrete history in which it is not |
| Runs.ReselectedAfterGateMove | internal/branchsync/sync.go:708-715 | After the gate moved to a head that does not contain the chosen run's, that run is chosen again if and only if no record before it on the branch is unpublished |
| Runs.GateMoveHidesStranded | internal/branchsync/sync.go:708-715 | A concrete history in which it is not |
| Runs.SettlingOneLowersCount | internal/branchsync/sync.go:1708-1716 | Settling one unpublished run lowers the branch's unpublished count by exactly one |
| Worlds.MergeDecidesContainment | internal/branchsync/sync.go:1623-1633 | The three-way merge equals the target's tree if and only if every path the local side changed is identical in the target |
| Worlds.TwoTreeExact | internal/branchsync/sync.go:1013-1013 | From a clean checkout the two-tree checkout yields exactly the target's files |
| Inspection.Inspect | internal/branchsync/sync.go:1350-1522 | Every query answered and nobody interfering, the view is the selected run with its classification, and the true branch, head and cleanliness; whoever interferes, what it shows of branch, head, cleanliness and the run was each so at a moment of the call, in that order |
| Inspection.StandsIff | internal/branchsync/sync.go:1447-1490 | For each classification, exactly which record fields give it |
| Inspection.CheckUnclaimed | internal/branchsync/sync.go:1209-1223 | What is reported is named by the anchor and a conflict is one; with every query answered an anchor is reported exactly when it names a commit the branch does not carry |
| Inspection.AttachUnclaimed | internal/branchsync/sync.go:1173-1186 | A refusal means that spellings disagree; with every query answered it is given exactly then, and otherwise the reported anchors and lost head are the facts of the moment |
| Recovery.Recover | internal/branchsync/sync.go:569-758 | Whoever interferes and whatever goes unanswered: an own step can lose something only by writing over an anchor of the recovered run that named another commit, and does exactly when nothing else holds that; with every query answered none is overwritten. HEAD moves only onto the settled head, from a commit it contains or the local anchor names, or back; the run is stamped only by a step that, after any move, follows a sighting of HEAD at that head and then of a clean worktree, and exactly when the report says so. With nobody interfering: refusals before a completed move leave worktree, branch and gate as found, and no record but the stamped one changes. A gate already at the kept head completes by the stamp alone, exactly when the recorded head is anchored and verified or the kept head the submitted one. A keep-local call never moves HEAD. Where every command the repositories permit succeeds, the answer is a function of the world the call begins in: which refusal, or custody at the local head, or the gate branch moved to it and the worktree untouched, or HEAD moved to the settled head with a clean tree |
| Recovery.RecoveryAccounts | internal/branchsync/sync.go:1173-1205 | After a calm return the head recorded when the call began is in the branch, in what the named anchor holds, or reported lost; a gate head let go is in the branch or named by an anchor |
| Reruns.RecoverTwice | internal/branchsync/sync.go:576-584 | An immediate re-run answers for the same run if and only if it is unrivalled; it repeats the report and changes nothing if and only if the run then selected answers with the same facts |
| Reruns.ReturnForgotten | internal/branchsync/sync.go:576-591 | A world where custody is returned and the re-run refuses |
| Reruns.AnchorForgotten | internal/branchsync/sync.go:1124-1137 | A world where custody is returned and a commit that an anchor named is gone if the lookups of private refs fail, and stays held if they do not |
| Reruns.RecoverAfterCut | internal/branchsync/sync.go:708-715 | Cut short anywhere between gate swap and stamp, a keep-local call is completed by the next one, by the stamp alone, if and only if its run is still unpublished, no record before it on the branch is, its head is anchored, and that is verified or the kept head the submitted one |
| Reruns.CutAndResumed | internal/branchsync/sync.go:708-715 | Two such cuts of actual calls: the next call does not return the run where a superseded run lies between, and does where none lies there |
| Reruns.CutReselects | internal/branchsync/sync.go:708-715 | Inspection of the cut world selects the cut run again if and only if no record before it on the branch is unpublished |
| Reruns.SoleIsSeen | internal/branchsync/sync.go:576-596 | Inspection of a branch with one record, in its fields: whether it is shown, and with which classification |
| Reruns.SoleIsAnswered | internal/branchsync/sync.go:576-596 | What a calm recovery answers there: a released run is a success without facts, a returned one its facts again, a running one and one that is pushing, pushed or never submitted are refused, and nothing changes |
| Recovery.ReturnLowersUnpublished | internal/branchsync/sync.go:1141-1148 | Each stamping call, also one whose report then refuses over anchor spellings, lowers the number of unpublished runs on the branch by one, push-binding fields being set together |
| Recovery.RecoverStranded | internal/branchsync/sync.go:597-758 | The terminal run's head is settled, staying or becoming a descendant in the gate, then recovered with the guarantees of the whole call |
| Recovery.SettleHead | internal/branchsync/sync.go:600-632 | An unverified head changes only to a gate head that descends from it; a frozen gate is exempt; otherwise nothing changes; where nothing fails, exactly what it settles on |
| Recovery.RecoverOwned | internal/branchsync/sync.go:634-758 | Settled head: stamped exactly as reported, HEAD moved only with containment proven; interference-free: refusal purity, account of the recorded and the gate head, and every cut after a gate move leaves the kept head in the gate and the recorded one anchored unless the gate was frozen; where nothing fails, the matrix decides |
| Recovery.ReturnReached | internal/branchsync/sync.go:649-654 | A branch that already contains the head is returned after the head is pinned; where no lookup is answered the anchor is overwritten and custody returned; where nothing fails, it is refused exactly over spellings in conflict or another commit in the anchor |
| Recovery.FromGate | internal/branchsync/sync.go:656-758 | The gate decides: frozen, resumed, diverged, or fetched and anchored before anything moves; with every query answered no anchor is overwritten; where nothing fails, the answer follows from the gate branch, the anchors, cleanliness and the mode |
| Recovery.FrozenRow | internal/branchsync/sync.go:672-707 | A gate the pipeline never moved: the stranded head is rescued if it survives anywhere, then custody is returned or refused; an anchor read as it is is not overwritten; where nothing fails, the kept head is returned, the gate follows it, or the gate is reported diverged |
| Recovery.ByRelation | internal/branchsync/sync.go:724-757 | Equal or ahead returns; behind fast-forwards; diverged adopts only proven containment; keep-local overrides; a keep-local call never sets out to move HEAD |
| Recovery.KeepLocal | internal/branchsync/sync.go:805-842 | The worktree is never touched; a gate head let go is contained or anchored; with the gate already there nothing moves; where nothing fails, it refuses exactly when the gate head can be neither contained nor anchored |
| Recovery.SwapOntoLocal | internal/branchsync/sync.go:809-840 | Stage, verify, anchor, then swap; any refusal leaves the gate branch where it was; where nothing fails, which refusal, if any, follows from the anchors |
| Recovery.FastForward | internal/branchsync/sync.go:846-876 | Stamped only after HEAD was seen at the recorded head and then clean; a merge git refuses leaves everything as found; where nothing fails and HEAD is behind and clean, it arrives and the run is stamped |
| Recovery.ContainsLocalWork | internal/branchsync/sync.go:904-913 | A yes means that relative to some common ancestor the preserved head has every local change, and where nothing fails it is a yes exactly relative to the merge base |
| Recovery.AnchorLocal | internal/branchsync/sync.go:957-977 | The local head is anchored by create-only write, or nothing of the worktree changes |
| Recovery.SwapAndRewrite | internal/branchsync/sync.go:978-1021 | Both guarded commands take effect, or the reverse swap restores the branch; a failed restore is reported as such |
| Recovery.Adopt | internal/branchsync/sync.go:941-1043 | HEAD moves only with containment proven, stamped only after it was seen at the recorded head and then clean; a restored refusal leaves everything as found |
| Recovery.AnchorStranded | internal/branchsync/sync.go:1055-1079 | Every query answered and the anchor absent, the head is anchored afterwards or exists in neither object store; whatever is answered, no private ref but its anchor changes, and a free one is not overwritten |
| Recovery.AnchorAbandoned | internal/branchsync/sync.go:1086-1122 | Afterwards the gate head is in the kept local head or named by a spelling of one of the two anchors; with every query answered nothing is overwritten |
| Recovery.AnchorReachable | internal/branchsync/sync.go:1124-1137 | Afterwards the canonical recovery anchor names the preserved head, or the call refuses; with every query answered nothing is overwritten and no other spelling disagrees |
| Recovery.Finish | internal/branchsync/sync.go:1141-1157 | The run is stamped before anything is reported; the report tells the facts, or refuses exactly when spellings of an anchor disagree |
| Advance.Apply | internal/branchsync/sync.go:388-477 | Whoever interferes and whatever goes unanswered, HEAD moves only to the pushed head, from a commit it contains or the sync anchor names; only a reset that follows an outside step after the last check may leave another commit. Only that reset and a write over the taken sync anchor can lose anything, exactly when nothing else holds what they replace; with every query answered no anchor is overwritten. A refusal moved nothing. Anything else was preceded, in this order, by a moment at which the plan's record had the planned generation, pushed head, ref, kind and fingerprint and was not pushing, by moments at which branch, head and worktree were as planned, by one at which the remote branch was at the pushed head, and by a last look at the record before any move; success was seen at the pushed head and then clean; the move rests on a proven containment or a strict fast-forward. Where every permitted command succeeds and all of that holds, the plan is applied |
| Advance.ProveEquivalent | internal/branchsync/sync.go:1586-1610 | A yes means that relative to the recorded base or a common ancestor the pushed head has every local change; where nothing fails and the base git gives proves it, it is a yes |
| Advance.AnchorPreSync | internal/branchsync/sync.go:1231-1252 | Afterwards the canonical sync anchor names the pre-sync head, or the call refuses; an anchor read at another commit refuses, and with every query answered nothing is overwritten |
| Schema.RelaxKeepsIff | internal/agent/agent.go:589-607 | Everything the original schema accepts the relaxed schema accepts, exactly unless the original accepts an object with an optional property that the null edit spoils, at any depth it accepts |
| Schema.RelaxLosesIff | internal/agent/agent.go:589-607 | An accepted value is lost exactly when some optional field in it holds something other than null under a type list that names no type |
| Schema.RelaxCanLose | internal/agent/agent.go:589-607 | A schema and a value it loses |
| Schema.UnsafeOutOfReach | internal/agent/agent.go:589-607 | A schema with such a property that loses nothing |
| Schema.KeywordsConjoin | internal/agent/agent.go:622-689 | The validator asks for what the keywords ask for one by one |
| Schema.TypeNamesKind | internal/agent/agent.go:731-756 | A schema that names one type accepts exactly the values of that JSON kind; an unknown name asks for nothing |
| Schema.TypeListJoins | internal/agent/agent.go:691-729 | A type list accepts what one of its names accepts, and everything if it names none |
| Schema.IntegerByValue | internal/agent/agent.go:758-761 | A number printed as an integer, negative or not, is one exactly when it fits into 64 bits |
| Schema.FractionIsNoInteger | internal/agent/agent.go:758-761 | One printed with a point, an exponent or a plus sign is not |
| Schema.EnumLists | internal/agent/agent.go:763-778 | An enum accepts exactly the values it lists |
| Schema.RequiredAsks | internal/agent/agent.go:649-655 | Required fields are asked of objects only, and list entries that are no text are passed over |
| Schema.PropertiesAsk | internal/agent/agent.go:664-674 | Each listed property that is there fits its schema |
| Schema.AdditionalRefused | internal/agent/agent.go:657-674 | Where additional properties are refused there is no other |
| Schema.AdditionalRefusedAlone | internal/agent/agent.go:657-663 | Without properties that lets no field through |
| Schema.ItemsAsk | internal/agent/agent.go:678-689 | Every item of an array fits the schema of items |
| Schema.RelaxAdmits | internal/agent/agent.go:589-607 | Whatever the relaxed schema accepts, the original accepts once null optional fields are dropped at every depth |
| Schema.CloseAdmits | internal/agent/codex.go:387-459 | Likewise for the closed schema codex is given |
| Schema.CloseSettles | internal/agent/codex.go:396-427 | Closing is idempotent, and relaxing a closed schema changes nothing |
| Schema.ClosedAccepts | internal/agent/codex.go:396-427 | A closed object schema accepts exactly the objects that have all its properties and no other field, each fitting its closed schema, which takes null as well where the property was optional |
| Schema.OthersStayOpen | internal/agent/codex.go:396-427 | A schema that is not of type object gains no such demand |
| Schema.AllowNullKeepsIff | internal/agent/codex.go:441-459 | Exactly when the null edit keeps every accepted value |
| Schema.AllowNullAdmits | internal/agent/codex.go:441-459 | The edited schema takes null and nothing else that is new |
| Schema.AllowNullKeeps | internal/agent/codex.go:441-459 | What was accepted stays accepted, but for a type list that names no type |
| Scanner.ScanBalancedObject | internal/agent/agent.go:523-555 | The index loop computes the scan of the rest, ends right after a closing brace, and stays inside the text |
| Scanner.ScanUndoesPrint | internal/agent/agent.go:519-555 | At the first byte of any printed JSON object, whatever follows, the scanner finds exactly its end |
| Extraction.BlockClosesAtOwnFence | internal/agent/agent.go:425-452 | A block around any properly nested ones is closed at its own fence |
| Extraction.BodyCloses | internal/agent/agent.go:454-478 | A body no line of which opens a fence closes at the fence on the line after it, whatever follows |
| Extraction.GluedFenceCloses | internal/agent/agent.go:474-477 | Where no line opens a fence, one glued to the end of the text closes the block |
| Extraction.OpensLineIff | internal/agent/agent.go:436-448 | A line is opened by a fence exactly when three backticks follow blanks at most |
| Extraction.LabelledSaysJson | internal/agent/agent.go:396-414 | A fence counts as a JSON fence exactly when its info line is the word json in any letter case, with spaces around it or without |
| Extraction.FencedCandidates | internal/agent/agent.go:375-391 | The loop computes the list of candidates |
| Extraction.CandidatesAreBodies | internal/agent/agent.go:375-414 | In a text of prose, JSON blocks and other blocks in any order, the candidates are exactly the bodies of the JSON blocks, in order; a JSON block is one labelled with that word |
| Extraction.FencedDocIsBlock | internal/agent/agent.go:371-391 | Any printed JSON document, even with backticks in its strings, is the body of such a block |
| Extraction.LastBareJsonObject | internal/agent/agent.go:483-517 | The loop computes the last parsing object outside fences |
| Extraction.LastBareFindsLast | internal/agent/agent.go:480-517 | Among any printed objects in prose free of braces and fences it finds the last that parses, whole |
| Extraction.ParseStructuredText | internal/agent/agent.go:314-356 | The whole text if it parses; else the one candidate that parses; no answer when several do; else the last bare object, which in prose is the last printed object that parses; in a text of prose and blocks the candidates are the bodies of the blocks labelled json |
| Mailbox.EventMailbox.Publish | internal/daemon/eventmailbox.go:97-146 | Bounded in count and bytes; only the fewest oldest logs make way; a state frame is queued or folded; no revision owed to the subscriber is lost |
| Mailbox.EventMailbox.Evict | internal/daemon/eventmailbox.go:155-168 | Drops the oldest logs until there is room, and never a state frame |
| Mailbox.EventMailbox.Next | internal/daemon/eventmailbox.go:202-234 | The gap first, then the ring in order; a revision leaves only in a frame at least as new; finished only when closed and drained |
| Mailbox.EventMailbox.constructor | internal/daemon/eventmailbox.go:69-77 | Every subscription opens with a frame that forces a read |
| Mailbox.DropNext | internal/daemon/eventmailbox.go:155-168 | Removing the first remaining log is dropping one more of the oldest |
| Reconciler.Daemon.Act | internal/cli/run_reconciler.go:58-64 | No move of the daemon or the connection loses a wakeup, and every stored change owes one |
| Reconciler.RunReconciler.Connect | internal/cli/run_reconciler.go:164-191 | Once subscribed, a read is due |
| Reconciler.RunReconciler.Reconcile | internal/cli/run_reconciler.go:154-162 | A completed read covers everything that was on its way; it fails exactly when its request goes unanswered |
| Reconciler.RunReconciler.Drain | internal/cli/run_reconciler.go:134-149 | A burst is taken off the channel first and answered by one read that is as new as the burst |
| Reconciler.RunReconciler.Next | internal/cli/run_reconciler.go:90-152 | Versions never go back; at most one read; any newer state still has a wakeup on its way; a call that blocks has nothing left to receive; a heartbeat makes it read, a cancelled context fail; with the daemon still, the first frame of the run decides: a log chunk repeats the last snapshot, anything else reads |
| Reconciler.RunReconciler.Follow | internal/cli/run_reconciler.go:58-152 | Over any number of calls the snapshots are in order, and once the client blocks on a daemon that owes nothing the last snapshot is the stored state |
| Driver.RunDriver.Drive | internal/cli/axi_drive.go:461-592 | At most three accepted fixes per step; every answer follows the snapshot showing its gate: an actionable gate is approved only on a no-fix run, and else fixed, selecting every identified finding in the findings' order; every snapshot is taken in turn and its gate answered unless that is awaited; two answers to one gate of the loop have a snapshot of another or none between them; over the joined trace, exactly unless the loop opens by answering a gate still pending from before; a gate is handed back only when guarded, without a finding to select, or with three rounds spent |
| Driver.IdsSelect | internal/cli/axi_drive.go:582-592 | Selected are the identified findings, all of them, in their order and as often as they stand there |
| Driver.AwaitingIsFirst | internal/cli/axi_render.go:218-225 | The gate answered is the first parked step, in either way of being parked |
| Driver.RunDriver.Reattach | internal/cli/axi_drive.go:493-503 | The budget holds over any number of drive loops when snapshots count accepted fixes; answers to one gate are separated over all of them if and only if no loop opens with a pending gate |
| Driver.JoinedSeparates | internal/cli/axi_drive.go:461-492 | The same for one loop after any earlier trace, in terms of the loop's feed |
| Driver.AnsweredTwice | internal/cli/axi_drive.go:461-492 | Two loops that answer one gate twice |
| Driver.RunDriver.WaitThenDrive | internal/cli/axi_drive.go:925-929 | After an accepted answer the wait and the loop that follows answer that step in later rounds only, where a step that left its round stays out of it |
| Driver.CountedCounts | internal/cli/axi_drive.go:493-500 | Daemons that count are exactly the ones considered: raising rounds to the accepted fixes leaves a counting feed as it is |
| Driver.WaitLeaves | internal/cli/axi_drive.go:596-622 | Returns at the first snapshot in which the step has left the answered round |
| Driver.LeftGateIsNotMet | internal/cli/axi_drive.go:594-622 | A gate of that step met there belongs to a later round |
| Clusters.GroupFindings | internal/convergence/classes.go:57-91 | The class objects, grown in place, hold exactly what placing the findings one by one gives |
| Clusters.PlaceIsBest | internal/convergence/classes.go:64-91 | A finding joins the first of its best-fitting classes, and founds one exactly when none reaches the threshold |
| Clusters.JoinsIffWelcomed | internal/convergence/classes.go:57-120 | A finding joins a class exactly when one has a member sharing three tokens and half of the smaller set with it and no different category, and joins such a one |
| Clusters.FindingClass.BestOverlap | internal/convergence/classes.go:142-166 | The loop computes the best overlap with any member |
| Clusters.BestOfIsReached | internal/convergence/classes.go:139-166 | It bounds every member's overlap and is one member's own |
| Clusters.ClassesListTheirFiles | internal/convergence/classes.go:122-137 | A class lists each file its findings name once, and no other |
| Clusters.OverlapMeansAlike | internal/convergence/classes.go:16-29 | Reaching the threshold means sharing at least three tokens and half of the smaller set |
| Clusters.PrefixStable | internal/convergence/classes.go:57-91 | Later findings never move earlier ones: places stay, members, rounds and files only grow, a set category stays |
| Clusters.ClassesHoldTheirFindings | internal/convergence/classes.go:57-91 | A class's rounds are exactly those of the findings placed in it, and its category the one they name |
| Clusters.CategoriesAgree | internal/convergence/classes.go:117-120 | Two findings of a class name the same category, or one of them none |
| Clusters.MembersAreChained | internal/convergence/classes.go:139-166 | Every member but the first is alike to an earlier member |
| Clusters.StopReason | internal/convergence/termination.go:18-51 | A reason is found exactly when the review must stop |
| Clusters.EntriesAreListed | internal/convergence/termination.go:18-51 | What counts for recurrence is exactly the actionable findings of all rounds, in order, each with the number of its round |
| Clusters.StopPersists | internal/convergence/termination.go:18-51 | Once it must stop, it must stop after every later round with something pending |
| Usages.Accumulate | internal/agent/opencode_stream.go:23-29 | In whatever order the map is walked, the total is the sum |
| Usages.SumTakesAny | internal/agent/opencode_stream.go:23-29 | The sum does not depend on the order of the messages |
| Usages.SumByCount | internal/agent/agent.go:800-813 | Each counter of the total is that counter added up, in whatever order |
| Usages.SumReports | internal/agent/agent.go:800-813 | The total is reported exactly when one of its parts is |
| OpenCode.StreamState.EmitTextPartChunk | internal/agent/opencode_stream.go:146-187 | Gives out exactly what is new of an assistant's part, one separator before it at most, and nothing of any other; an assistant's part that is not blank becomes the last text, and the last final text if it is final |
| OpenCode.StreamState.DropMessageParts | internal/agent/opencode_stream.go:189-196 | Exactly the message's parts are forgotten and filtered |
| OpenCode.StreamState.EmitBufferedMessageParts | internal/agent/opencode_stream.go:198-205 | Exactly what the message's parts held back is given out, and its parts are shown in order of arrival |
| OpenCode.StreamState.Step | internal/agent/opencode_stream.go:55-128 | What is held and what a listener gets are a function of what was held and the event, and so are the parts shown; no chunk comes from a message known to be the user's, and usage follows the reports; a separator stands exactly before a text that follows a finished step and an earlier text |
| OpenCode.StreamState.Parse | internal/agent/opencode_stream.go:32-144 | Over any stream, a part's chunks add up to its emitted text exactly when nothing given out of it was dropped or replaced, and for growing texts exactly when it was not dropped after it was given out; over a regular one they are its final text if its message is the assistant's, else nothing; usage is the sum of the latest reports; the last text and the last final text are the last ones shown, and in a regular stream the text parsed for the answer begins some part's due text, or is empty with every due text blank; the whole output is those chunks with just these separators between them |
| OpenCode.ChunksAddUpIff | internal/agent/opencode_stream.go:146-196 | The first of these for any history and part |
| OpenCode.ToolSinceIff | internal/agent/opencode_stream.go:98-154 | A step counts as finished since the last text exactly when some event finished one and none after it gave a text out |
| OpenCode.GrowingAddsUpIff | internal/agent/opencode_stream.go:146-196 | The second |
| OpenCode.RegularGivesDue | internal/agent/opencode_stream.go:55-144 | The third: in a regular stream every part's listener has been given exactly its due |
| OpenCode.RegularLastIsDue | internal/agent/opencode.go:195-198 | In a regular stream the last text is the whole due text of some part, and the last final text how one begins; the last is empty only if all due texts are blank |
| OpenCode.LastFollowsMarkers | internal/agent/opencode_stream.go:198-232 | Two regular streams that differ only in the order of two markers and leave different last texts |
| OpenCode.PartChangesMessage | internal/agent/opencode_stream.go:90-97 | A part that goes over to a user's message: given, dropped, not due |
| OpenCode.MessageChangesRole | internal/agent/opencode_stream.go:104-124 | A message of both roles: its later text is due and never given |
| OpenCode.UserMessageHasNoId | internal/agent/opencode_stream.go:104-111 | A user message without an id: later deltas of unassigned parts are due and never given |
| OpenCode.TextIsReplaced | internal/agent/opencode_stream.go:151-159 | A text replaced by one that does not extend it: both are given |
| OpenCode.ParseBoth | internal/agent/opencode_stream.go:104-124 | Two regular streams that differ only in where the message markers stand give the same text of every part, and leave the same last text if at most one part has text due |
| OpenCode.MarkersMayMove | internal/agent/opencode_stream.go:104-124 | Where the message markers stand makes no difference to what is due |
| Sse.ParseSse | internal/agent/sse.go:18-60 | The line loop computes the delivered events |
| Sse.ParseUndoesFraming | internal/agent/sse.go:14-60 | Framed events, each line ended with any number of carriage returns, are parsed back up to the one the handler stops at |
| Capture.SessionCapture.Write | cmd/recordfixture/opencode.go:218-244 | The new buffer, pending bytes and idle flag depend only on the old ones and the bytes; the idle channel is closed once if ever |
| Capture.SessionCapture.WriteAll | cmd/recordfixture/opencode.go:218-244 | Any way of cutting the same bytes leaves the same capture |
| Capture.DrainFirst | cmd/recordfixture/opencode.go:223-242 | Bytes that come later do not change what happens to those that came first |
| Capture.CaptureKeepsEvents | cmd/recordfixture/opencode.go:218-244 | What is recorded is the session's events up to the idle one, framed as they came; an event ends at the first two newlines in a row |
| Tail.ReadTail | internal/bitbucket/client.go:298-327 | For any reads, data together with the end included, exactly the last bytes delivered, or the reader's error |
| Tail.Append | internal/bitbucket/client.go:308-317 | Appending in place or into a new array yields the old bytes and the new, never out of range |
| Shell.SplitCompoundCommand | internal/agent/invocationmetrics.go:222-275 | The index loop computes the commands of the script |
| Shell.SplitUndoesJoin | internal/agent/invocationmetrics.go:220-275 | Trimmed, quote-closed commands free of bare separators, joined by any separators, split back to the same list |
| Shell.QuotedIsCommand | internal/agent/invocationmetrics.go:222-275 | A quoted text is one command whatever separators it holds |
| Shell.EscapedIsCommand | internal/agent/invocationmetrics.go:222-275 | So is an escaped separator |
| Metrics.Accumulator.OnItem | internal/agent/codex_metrics.go:33-70 | The counters are exactly what the events amount to, each category counter how often its category came up, by each chained command's leading verb; tool calls exceed neither round-trips nor the categories counted |
| Metrics.CallsAreBounded | internal/agent/codex_metrics.go:33-70 | The same over any event stream |
| Metrics.RoundsAddUp | internal/agent/invocationmetrics.go:124-137 | Per-round tokens of a cumulative session add up to its counter and what that stood at before each new start; those of a session that reports rounds singly add up to the sum of the reports |
| Dispatch.RunWithRetry | internal/agent/retry.go:57-92 | Every try is reported in order; another only after a retryable failure, within the limit |
| Dispatch.AttemptRelay.Capture | internal/agent/lanehealth.go:243-250 | The listener and the attempt held back together gain exactly the new attempt |
| Dispatch.RunLane | internal/agent/lanehealth.go:155-230 | Every run of the tool is reported once, only the last one's error possibly replaced by the verdict returned, which needs a quota failure, a live context and an answer that parsed; the quota record learns exactly what the run teaches |
| Dispatch.RunFallback | internal/agent/fallback.go:74-141 | The caller sees exactly the attempts made, lane by lane in order; the all-lanes error is returned if and only if every candidate ended in a quota outage; it moves on exactly after an outage or another failure that means the agent is unavailable, while the context is live |
| Dispatch.OutagesCount | internal/agent/fallback.go:112-122 | As many outages as candidates means that each one ended in an outage |
| Lease.Authority.Acquire | internal/agent/quartermaster.go:112-187 | A lease is complete, or refused with any seat that can be named handed back |
| Lease.Authority.Run | internal/agent/quartermaster.go:255-304 | The agent runs only under a complete lease; each granted seat that can be named gets exactly one release with the run's outcome; a failed release is always reported |
| Pipes.ClosesExactlyOnce | internal/agent/native_command.go:90-97 | However goroutines interleave, the channel is closed at most once, only after every pipe is counted off, and once all marks are done |
| Pipes.MarksFinish | internal/agent/native_command.go:46-97 | Once every mark has been called some goroutine can go on until all are done |
| Pipes.StepIsSound | internal/agent/native_command.go:90-97 | One lock holder, one count per pipe, and the close right after the last count, kept by every step |

## Assumptions

- Outsiders never touch the private refs; object stores are closed under history; a
  merge base is any common ancestor git picks. Any query may go unanswered, the
  lookups of private refs among them; one that is answered is answered truly. Trees
  are maps from paths to contents and merge path by path.
- The index is not a separate object: a file is tracked when the checked-out
  commit has it.
- The gate's branch head is read once per inspection; the gate-context refusal
  is a parameter; an unborn branch does not fast-forward.
- The daemon stores a change before it announces it, and broadcasts a state event
  after each stored change.
- Decoding and validating a candidate, session matching, the leading-verb
  heuristic, the shell unwrapping and the adapters' error classifiers are
  arbitrary functions; characters stand for bytes, and spaces and letter case are the
  ASCII ones.
- Where a statement is about a call whose every permitted command succeeds, git picks
  the same merge base throughout that call.
- The quota store's answers, backoff interruptions, timers and the end of a
  context are given by the environment.

## Left out

- Message and help text, progress output, telemetry, rendering, cobra wiring, timers, jitter and backoff durations.
- Real git, SQLite, subprocess, HTTP and IPC calls: each is one atomic step that may fail.
- `Refresh` and its cache ref: `Apply` starts from a plan and a cache ref that holds the planned commit.
- `classifyRelation` past the pipeline-owned checks: PR state, duplicate checkouts and changed targets are one classification.
- URL canonicalisation and target fingerprints: opaque comparable values.
- Recovery.Recover: after a gate race or an alias conflict seen only after the stamp no retry is promised, because the code refuses it.
- Reruns.RecoverAfterCut: for records whose push-binding fields are set together, as the one statement that writes them does.
- Schema.RelaxKeepsIff: schemas are values here, not maps edited in place.
- Schema.RelaxAdmits: for schemas whose enums list scalars, because an object listed with a null in it is another object once the null is dropped.
- Schema.CloseAdmits: likewise, and with the required fields among the properties.
- Extraction.ParseStructuredText: error texts are left out.
- Reconciler.RunReconciler.Next: promises nothing after a failed read, because the wakeups it took are gone; the driver stops there.
- Clusters.GroupFindings: overlap ratios are exact where the code rounds to binary64; labels and the order of the report are left out.
- Clusters.StopReason: whether there is a reason, not its text.
- Dispatch.RunFallback: a listener is always there, and the quota store is a record of calls rather than a file.
- Lease.Authority.Run: the environment variables handed to the agent are left out.
- Pipes.ClosesExactlyOnce: the wait with its delay timer, and closing the files, are left out.
- Capture.SessionCapture.Write: the mutex is left out, because each call holds it throughout.
- The wizard, config loading and merging, daemon lifecycle, agent argument builders, `cmd/fakeagent`: mostly plumbing.
