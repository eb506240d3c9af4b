# A proved model of the approval gate

The gate lets agents and people propose AWS actions as tickets, collects approvals,
hands an approved action to exactly one executor call, and keeps the whole story in
one append-only log. This project models that core in Dafny and proves what the
design promises about it: for every interleaving of its clients, every run, every
cut of the log file, every page of the sweep.

## How the pieces fit

**Text.** `Json` prints and parses JSON as Python does; `TornText` says what becomes of
a torn line with another one glued to it; `CanonicalJson` is the text the parameters
hash is taken over, and `KeyOrder` compares the order of its keys with the order of
RFC 8785; `ShortText` proves it a shortest JSON text with its meaning, and `BareText`
where blanks stand in it and in a log line. `EventCodec` turns audit events into log
lines and back. That a torn line cannot be mistaken for a whole one is proved from the
grammar, not assumed.

**Tickets.** `Models`, `StatusMachine` and `Fold` are the records, the transition table
and the fold. `GateTags` merges a ticket's tags into the parameters it approves, and
`TagValues` says so in the fields of the AWS call and gives the inputs it raises on;
`TwoMerges` says what a second merge makes of the first, and `SupersededTags` what that
means for a supersede that takes over the parameters of the ticket it replaces.
`Service` splits every operation where it can be interrupted: what it reads, and what
it decides to write from that snapshot. `Legality` states, without mentioning any
operation, which event may follow which ticket and what a ticket's history promises,
and proves that operations decide nothing else and that legal events keep the promises.
`Effects` says what each operation does from end to end, request and ticket in, tickets
and log out, and exactly when it goes ahead; `Answers` says when each error is the answer
and what an undisturbed call leaves behind.

**Store and runs.** `Store` holds the log and its three cached maps as values, with
replay, repair and the three writes; `StoreInvariants` says what every reachable store
satisfies, and that a snapshot with a current sequence number is the current ticket.
`LogLines` is about lines in the file that no gate has written.
`Protocol` lets any number of clients take their read step and their write step in any
order, with restarts in between; a run is an arbitrary list of steps. `Guarantees`
collects what holds in every run. `Reordering` shows that the order of events of
different tickets means nothing.

**Crashes.** `Recovery` proves crash atomicity for one crash, cut between any two
characters. `ByteLog` goes down to the bytes of the file: a crash that cuts a character
in two leaves a file the gate does not start from, every other crash is atomic. Going on after a crash is
not safe in general, because recovery leaves the file as it is. `SecondBoot` gives the
exact condition under which the next boot still finds what the gate believed, and two
concrete inputs, one for each way it goes wrong. `Samples` takes the gate through two
short runs, to a comment cut inside a character and to an old approval that is executed.

**Objects and loops.** `JsonlRepository` is the repository as a class that updates its
maps and its file in place, with the loops of replay and repair; its methods are proved
against `Store`. `ServiceCalls` are the two halves of an operation against that class,
proved to refine the steps of `Protocol`. `Expiry` is the sweep over pages that its own
writes shrink. `Executor` adds the executor's replicas, lost messages and the trace of
AWS calls; `Delivery` shows that where nothing is lost the one call is made and recorded. `ReplayCache`, `RateLimiter` and `ApprovalLinks` are the nonce cache with the
clock window, the sliding-window limiter, and the mailed links with their preview.

Where the code and its own documentation part ways, the model follows the code:

- The store describes a torn final line as harmless (`backend/app/repo/jsonl_store.py:6-15`).
  It is, until the next append lands on the same line; see `SecondBoot.SecondLife`.
- It is not recognised as a torn line when the cut falls inside a character beyond ASCII,
  which log lines hold unescaped; see `ByteLog.CrashAtAnyByte` and, for a run in which it
  happens, `Samples.TornCommentExample`.
- The sweep is meant to keep old approvals from being executable for ever
  (`backend/app/jobs/expiry.py:1-6`). A start never looks at age, and one sweep is sure to
  reach every stale ticket of a status only when the status fits on one page; see
  `Expiry.StartIgnoresAge`, `Samples.StaleStartExample`, `Expiry.OneSweepClears` and
  `Expiry.SweepsClear`.
- The nonce cache relies on the five-minute date check (`backend/app/auth/replay_cache.py:1-6`).
  Together they make a request single-use exactly when its date runs less than a minute
  ahead of the gate; see `ReplayCache.SecondUseIff`.
- The canonical form is called a subset of RFC 8785 (`backend/app/core/canonical_json.py:1-8`).
  Its keys are sorted by code point (Python's string order), where section 3.2.3 of RFC 8785
  sorts by UTF-16 code units. The two part exactly on keys whose first difference is a
  character of U+E000..U+FFFF against one beyond U+FFFF; see `KeyOrder.CanonicalOrderIsRfcIff`
  and `KeyOrder.CrossedExample`.

One consequence of code that does what its documentation says: a merge keeps the caller's
own tags (`backend/app/core/aws_conditional.py:277-280`), and cannot tell them from those an
earlier merge left in the same parameters. A supersede that takes over the old ticket's
parameters therefore keeps, on the resources, every tag the old ticket was created with and
the new one does not set; see `SupersededTags.SupersedeKeepsOldTags` and, for when nothing
is kept, `TwoMerges.SecondMergeAloneIff`.

## Model

| member | source | states |
|---|---|---|
| Json.LoadsPrint | backend/app/repo/jsonl_store.py:41-42 | Any JSON value written to the log, in either spacing, is read back as that value with nothing left over. |
| Json.PrintInjective | backend/app/core/canonical_json.py:16-23 | Two values printed with the same spacing give the same text only if they are the same value, entry for entry. |
| Json.ProperPrefixIsBad | backend/app/repo/jsonl_store.py:61-71 | No proper prefix of a printed object parses: a torn append is recognised at every character. |
| TornText.GluedToTornIsBad | backend/app/repo/jsonl_store.py:63-73 | Whatever is left of a line, torn or complete, a further line behind it makes the whole unreadable. |
| EventCodec.EventRoundTrip | backend/app/repo/jsonl_store.py:41-73 | Every audit event, embedded ticket included, survives encoding and decoding. |
| EventCodec.LineFacts | backend/app/repo/jsonl_store.py:41-73 | A log line reads back as its event, does not read at all when cut short, and holds no newline. |
| CanonicalJson.CanonicalDecidesMeaning | backend/app/core/canonical_json.py:16-27 | Canonical texts are equal if and only if the values are equal as Python dictionaries: key order never matters, nothing else is lost. |
| CanonicalJson.CanonicalLoads | backend/app/core/canonical_json.py:16-23 | Canonical text is JSON that denotes the value it was made from. |
| KeyOrder.KeysAgreeIff | backend/app/core/canonical_json.py:16-23 | Two keys have the same order by code point and by UTF-16 code units if and only if their first difference is not a character of U+E000..U+FFFF against one beyond U+FFFF. |
| KeyOrder.CanonicalOrderIsRfcIff | backend/app/core/canonical_json.py:16-23 | Canonical text lists the keys of every object in the order of RFC 8785 if and only if no object in the value has two such keys. |
| KeyOrder.CrossedExample | backend/app/core/canonical_json.py:16-23 | Concrete: the keys U+E000 and U+10000 come out in the other order than the standard's. |
| ShortText.CanonicalIsShortest | backend/app/core/canonical_json.py:16-23 | No JSON text with the same meaning is shorter than the canonical one: no blank, no needless escape, no entry twice. |
| ShortText.PrintIsShortest | backend/app/core/canonical_json.py:16-23 | No text that reads as a value is shorter than the value printed without blanks. |
| ShortText.EscapesAreLowerCase | backend/app/core/canonical_json.py:16-23 | The digits of an escape are in lower case. |
| BareText.CanonicalHasNoBlank | backend/app/core/canonical_json.py:16-23 | No blank of canonical text stands outside a string literal. |
| BareText.LineIsSpread | backend/app/repo/jsonl_store.py:41-42 | A log line is that text with exactly one blank behind every comma and colon outside the literals. |
| GateTags.MergeGateTags | backend/app/core/aws_conditional.py:297-317 | The two loops over specs and types compute the merge the contract below is about, or fail where the source raises. |
| GateTags.MergeContract | backend/app/core/aws_conditional.py:264-319 | Every gate resource type ends with a spec; each such spec holds every gate tag with its value and no other value under a gate key, after the caller's other tags in order; other specs and parameters are untouched and specs keep their places. |
| TagValues.MergeNamesEveryTag | backend/app/core/aws_conditional.py:254-319 | After a merge every type the operation creates has a specification, and each of these names every tag, `Key` and `Value`, and holds no other dictionary under such a key. |
| TagValues.TypesAndCreators | backend/app/core/aws_conditional.py:254-261 | Which operations tag resources of which type. |
| TagValues.OthersAreUntouched | backend/app/core/aws_conditional.py:285-294 | Other services and operations, and calls without tags, keep their parameters. |
| TagValues.GateTagsInOrder | backend/app/core/aws_conditional.py:297 | The gate's entries are one dictionary per tag, keys ascending. |
| TagValues.ElementsAre | backend/app/core/aws_conditional.py:298-308 | What the loops over specifications and tags run over, for every kind of value. |
| TagValues.MergeRaisesIff | backend/app/core/aws_conditional.py:297-317 | The merge raises if and only if the specifications, the tags of a tagged one, or the key of one of those tags is of a kind the loops cannot take. |
| TwoMerges.TwoMergesContract | backend/app/core/aws_conditional.py:277-319 | After two merges under any two tag sets, a spec of a gate type holds the caller's tags under neither key set in order, then the first's tags under keys the second lacks, then the second's; all else is the caller's. |
| TwoMerges.LeftOverTagStays | backend/app/core/aws_conditional.py:277-319 | A tag of the first merge under a key the second lacks ends up on every gate resource type. |
| TwoMerges.SecondMergeAloneIff | backend/app/core/aws_conditional.py:277-319 | Two merges give what the second alone gives if and only if no tag of the first is left over. |
| TwoMerges.SecondMergeReplacesFirst | backend/app/core/aws_conditional.py:277-319 | In particular when the second has at least the keys of the first: merging is idempotent. |
| SupersededTags.SupersedeKeepsOldTags | backend/app/core/service.py:384-424 | In any run, a supersede that takes over the old ticket's parameters creates a ticket whose call still sets every creation tag of the old one that the new one does not set, although the new ticket does not list it. |
| SupersededTags.LeftOverExample | backend/app/core/service.py:120-201 | Concrete: a volume tagged `team`, superseded with its own parameters and no such tag; the new call still sets it. |
| Fold.ApplyKeepsFrozen | backend/app/repo/base.py:49-118 | No event changes a field outside the mutable set, whatever its payload; the version grows by one. |
| Fold.FoldKeepsFrozen | backend/app/repo/base.py:49-118 | A folded ticket keeps its creation values in every frozen field, and its version counts its events. |
| StatusMachine.MovesByActor | backend/app/core/status_machine.py:18-43 | Nobody moves a finished ticket; the system only expires waiting ones, the agent only starts approved ones and finishes started ones, people do the rest. |
| Fold.AppliedFields | backend/app/repo/base.py:49-118 | For any event, field by field: which events write it, and what. |
| Fold.AppliesIff | backend/app/repo/base.py:49-118 | An event is a conflict if and only if its number is not the next, it creates again, or it brings a result without a start; and malformed if and only if its details lack what its type needs. |
| Store.WriteIsReplay | backend/app/repo/jsonl_store.py:115-198 | Every successful write leaves the maps exactly as replaying its lines would. |
| Store.BootWithTail | backend/app/repo/jsonl_store.py:57-74 | A boot over whole lines and an unfinished rest replays the lines, treats the rest as the last line, then repairs. |
| LogLines.CorruptLineIsNamed | backend/app/repo/jsonl_store.py:61-71 | A line that is not JSON, not blank and not the last stops the boot with its number. |
| LogLines.BlankLineIsSkipped | backend/app/repo/jsonl_store.py:61-65 | A blank line between the events makes no difference. |
| Legality.BuiltIsFresh | backend/app/core/service.py:120-201 | A built ticket is pending and untouched, carries its own id and proposer as gate tags, merges exactly those tags into its parameters, and its hash is taken over the result. |
| Legality.ApproveIsLegal | backend/app/core/service.py:331-359 | An approval goes only to a pending ticket, by someone who has not approved it and is not its proposer (up to case, unless self-approval is on), and approves it exactly at the required count. |
| Legality.StaleMeans | backend/app/jobs/expiry.py:24-40 | The sweep's age test: pending for the TTL since creation, or approved with no approval younger than it. |
| Legality.SupersedeIsLegal | backend/app/core/service.py:384-424 | A supersede links a ticket that has no successor yet, as a deprecation before an outcome and as a bare link after one, to a fresh ticket of the same lineage and assignee. |
| Legality.ExpireIsLegal | backend/app/jobs/expiry.py:39-54 | The event the sweep writes without asking the status machine is one the status machine allows. |
| Effects.RequestsDoWhatTheySay | backend/app/core/service.py:273-486 | In any run, an operation that lands was granted, changes its ticket in exactly the fields it is about and to the values requested, leaves every other ticket alone, and adds exactly the event that says so: ids, number, time, type, actor, statuses, details; a supersede also enters the successor it asked for. |
| Effects.UndisturbedIsDecided | backend/app/core/service.py:207-486 | With no step between its read and its write, any operation lands if and only if: on a ticket, its guards hold of the ticket, and a supersede's successor can be built under a fresh id; for a create, the ticket can be built, its id is fresh and its key not taken. |
| Effects.TakenKeyIsAnswered | backend/app/core/service.py:207-255 | An undisturbed create under a taken key is answered with the ticket that has the key and that assignee. |
| Effects.CreatesAddWhatWasAsked | backend/app/core/service.py:120-255 | A create that lands enters one ticket, holding the requested content, the right assignee and proposer, and nothing else yet, and adds exactly its TICKET_CREATED event. |
| Answers.RefusedIff | backend/app/core/service.py:263-486 | Whatever ticket an operation has read, it refuses with an error if and only if that error's own condition holds of it: assignee, status, hash, proposer, approver, successor, parameters. |
| Answers.OutdatedConflicts | backend/app/repo/jsonl_store.py:159-198 | In any run, what was decided from a snapshot that is no longer the ticket is answered with a conflict. |
| Answers.UndisturbedErrors | backend/app/core/service.py:207-486 | With no step in between, each error is the answer if and only if its own condition holds, for every operation and every error. |
| Answers.UndisturbedNeverConflicts | backend/app/core/service.py:207-486 | So neither the compare-and-swap nor the status machine ever refuses an undisturbed call. |
| Answers.ApproveLandsIff | backend/app/core/service.py:331-359 | An undisturbed approval lands if and only if the ticket is pending and not superseded, the caller may decide on it, and no approval is the caller's up to case. |
| Answers.TwoPeopleApprove | backend/app/core/service.py:331-359 | Where two approvals are required, in any run two different people's approvals make a new ticket APPROVED, with both on record. |
| Answers.ExpireLandsIff | backend/app/jobs/expiry.py:24-59 | An undisturbed expiry lands if and only if the ticket is pending since the TTL or longer, or approved with every approval that old. |
| Answers.AloneLands | backend/app/core/service.py:263-486 | A granted call that nobody disturbs lands and changes its ticket to exactly what was asked. |
| Legality.DecisionIsLegal | backend/app/core/service.py:207-486 | Whatever any operation decides to write is legal for the snapshot it decided from. |
| Legality.LegalStep | backend/app/repo/base.py:49-118 | A legal event always applies; the ticket keeps its approvals, outcome, link and tag promises, and terminal outcomes do not change. |
| Legality.AuditTrailIsTrue | backend/app/core/status_machine.py:18-50 | In a legal history each event states the folded status before and after it, and every status move is one the table grants its actor. |
| Legality.StartedOnce | backend/app/core/service.py:273-318 | The numbers of start and result events in a history are at most one each and can be read off the execution record. |
| Legality.OutcomeIsPermanent | backend/app/core/models.py:39-42 | From any point of a history on, a terminal status, its execution record and a link to a successor never change. |
| StoreInvariants.EqualVersionMeansCurrent | backend/app/repo/jsonl_store.py:159-172 | A snapshot from any time whose sequence number is still current is the current ticket itself. |
| StoreInvariants.WriteKeepsSound | backend/app/repo/jsonl_store.py:115-198 | Every write that is legal for the ticket it was decided from keeps histories, lineages and index sound, and only lengthens histories. |
| Protocol.WriteStepIsLegal | backend/app/repo/jsonl_store.py:159-198 | In a state that satisfies the invariant, a write that lands was decided from the ticket as it is at that moment. |
| Protocol.BootIsIdentity | backend/app/repo/jsonl_store.py:57-105 | Booting from a clean log gives exactly the live maps. |
| Protocol.RunKeepsInv | backend/app/core/service.py:207-486 | The invariant holds after every list of steps of any clients, restarts included. |
| Guarantees.LandingIsLegal | backend/app/core/service.py:207-486 | In any run, every event that lands is legal for its ticket's actual state then, however old the client's snapshot. |
| Guarantees.ExecutedAtMostOnce | backend/app/core/service.py:273-318 | In any run no ticket has two start events or two results, and none has a result without a start. |
| Guarantees.ApprovalSafety | backend/app/core/service.py:324-359 | A ticket that is approved, executing or has ever run carries exactly the required approvals, by people distinct up to case and not its proposer (unless self-approval is on); a pending one carries fewer. |
| Guarantees.OutcomesAreConsistent | backend/app/repo/base.py:81-108 | Executing holds exactly with an unfinished execution; failed means a failure, closed after execution a success; rejected, expired and deprecated tickets never ran; a superseded ticket is deprecated, failed or closed. |
| Guarantees.AuditLogIsTrue | backend/app/core/status_machine.py:18-50 | In every reachable store each event's number is its place, its two statuses are the folded ones, and its move is granted by the table. |
| Guarantees.RunGrows | backend/app/repo/jsonl_store.py:7-8 | Whatever happens later, every event list a run has reached remains a prefix of that ticket's list. |
| Guarantees.NothingIsRewritten | backend/app/core/models.py:150-164 | Across any continuation of a run, frozen fields, terminal outcomes and links stay what they were. |
| Guarantees.ApprovedActionIsFixed | backend/app/core/service.py:153-195 | In every reachable store a ticket's hash is the hash of its parameters, these are the requested ones with its creation tags merged in, and its gate tags name it and its proposer after any tag edits. |
| Guarantees.LineagesAreChains | backend/app/core/service.py:384-424 | Every lineage is one simple chain from its root to its only unsuperseded ticket, holding exactly the tickets of that root, all for one assignee. |
| Guarantees.LinksAreInverse | backend/app/repo/jsonl_store.py:174-198 | The two link fields are inverse to each other and never point outside the store. |
| Guarantees.OneLiveTicketPerLineage | backend/app/core/service.py:384-424 | At most one ticket of a lineage is unsuperseded, so at most one is pending, approved or executing. |
| Guarantees.FollowingLinksEnds | backend/app/core/service.py:384-424 | Following successors from any ticket ends, at the unsuperseded ticket of its lineage. |
| Guarantees.FollowingBackEnds | backend/app/core/service.py:384-424 | Following what a ticket supersedes ends too, at the root of its lineage. |
| Guarantees.IndexIsExact | backend/app/repo/jsonl_store.py:76-86 | The idempotency index holds a pair for a ticket if and only if the ticket has that assignee and non-empty key. |
| Guarantees.CreateIsIdempotent | backend/app/core/service.py:207-255 | Once a pair is taken, a create for it adds nothing, even if it read the index before: it answers with the existing ticket or fails. |
| Guarantees.CacheEqualsLog | backend/app/repo/jsonl_store.py:57-105 | In every run replaying the log gives the live maps, repair has nothing to do, and each event list is the log's projection onto its ticket. |
| Reordering.OrderDoesNotMatter | backend/app/repo/jsonl_store.py:57-105 | Any log with the same events per ticket replays and boots to the same tickets, event lists and index. |
| Recovery.RepairHalf | backend/app/repo/jsonl_store.py:88-105 | When only the link of a supersede reached the log, the repair restores exactly the store from before it. |
| Recovery.CutWrite | backend/app/repo/jsonl_store.py:57-124 | Cut one legal write at any character: the boot finds the store after it when at most the final newline is missing, and the store before it otherwise. |
| Recovery.CrashAtomicity | backend/app/repo/jsonl_store.py:57-198 | The same for every write of every client in every run: exactly before or exactly after, never a mixture. |
| ByteLog.BootEncoded | backend/app/repo/jsonl_store.py:57-74 | On a file of whole characters the boot over bytes is the boot over text: splitting, blank lines and decoding agree. |
| ByteLog.TornCharBoot | backend/app/repo/jsonl_store.py:63-73 | An unfinished UTF-8 character at the end of the file stops the boot, whatever stands before it. |
| ByteLog.CrashAtAnyByte | backend/app/repo/jsonl_store.py:41-113 | Cut any write of any run at any byte: if no character is cut in two, the boot finds exactly the store before or after; otherwise it fails. |
| ByteLog.SafeIffAscii | backend/app/repo/jsonl_store.py:41-42 | A text can be cut at every byte if and only if all its characters are ASCII. |
| Samples.CommentCanBeTorn | backend/app/repo/jsonl_store.py:41-113 | In any run, a comment with a character outside ASCII can be cut at a byte such that the gate does not come up. |
| Samples.TornCommentExample | backend/app/repo/jsonl_store.py:41-113 | Concrete: one ticket, a comment of one accented letter cut inside it, and the gate does not come up. |
| SecondBoot.SecondLife | backend/app/repo/jsonl_store.py:66-105 | After such a cut, a boot and any number of further writes, the next boot finds what the gate believed if the file ended a line and no write concerned a ticket whose link was undone; otherwise it refuses the log. |
| SecondBoot.TornTailExample | backend/app/repo/jsonl_store.py:66-72 | Concrete: one torn character, one more ticket, and the gate does not come up again. |
| SecondBoot.UndoneLinkExample | backend/app/repo/jsonl_store.py:94-105 | Concrete: an undone link, one comment on that ticket, and the gate does not come up again. |
| JsonlRepository.PagesCoverAll | backend/app/repo/jsonl_store.py:142-147 | Over a list that does not change, following the cursors lists every item once, in order. |
| JsonlRepository.LineageIsTheChain | backend/app/repo/jsonl_store.py:149-152 | The lineage query answers with the chain from root to tip if and only if the ids ascend along it. |
| JsonlRepository.WriteKeepsInStep | backend/app/repo/jsonl_store.py:109-198 | Each kind of write leaves the file the text of the log and the maps its fold. |
| JsonlRepository.Repository.Open | backend/app/repo/jsonl_store.py:46-53 | A process that comes up holds exactly what `Boot` makes of its file; it fails exactly when `Boot` does. |
| JsonlRepository.Repository.Replay | backend/app/repo/jsonl_store.py:57-74 | The loop over the lines: blank lines and a torn last line are skipped, any other unreadable line stops it with its number. |
| JsonlRepository.Repository.ApplyToState | backend/app/repo/jsonl_store.py:76-86 | One event applied to the three maps in place; on failure nothing changes. |
| JsonlRepository.Repository.RepairPartialSupersede | backend/app/repo/jsonl_store.py:88-105 | The loop that reverts links to missing successors computes `Repair`, in whatever order it meets the tickets. |
| JsonlRepository.Repository.CreateTicket | backend/app/repo/jsonl_store.py:115-124 | Refuses a known id or a taken key and then changes nothing; otherwise the new maps, the longer file and the longer log. |
| JsonlRepository.Repository.AppendEvent | backend/app/repo/jsonl_store.py:159-172 | Compare-and-swap on the sequence number: refused, nothing changes; accepted, exactly this ticket moves on and the file grows by its line. |
| JsonlRepository.Repository.TransactSupersede | backend/app/repo/jsonl_store.py:174-198 | Both lines in one write, the old ticket linked and the new one entered, or nothing. |
| JsonlRepository.Repository.QueryByStatus | backend/app/repo/jsonl_store.py:133-147 | One page of the tickets of a status, newest first, and the cursor of the next page if there is one. |
| JsonlRepository.Repository.ListAuditEvents | backend/app/repo/jsonl_store.py:154-157 | The events of a ticket are the log's projection onto it. |
| ServiceCalls.Begin | backend/app/core/service.py:207-270 | The read half of an operation against the repository object is the read step of the protocol. |
| ServiceCalls.Finish | backend/app/core/service.py:273-486 | The second half, guards and write, answers and changes the repository exactly as the write step of the protocol. |
| ServiceCalls.Reopen | backend/app/repo/jsonl_store.py:46-53 | A process restarted on its own file holds the same maps, file and log. |
| Expiry.ExpireTicket | backend/app/jobs/expiry.py:42-59 | Undisturbed, the sweep's append is never refused and expires exactly that ticket. |
| Expiry.SweepStatus | backend/app/jobs/expiry.py:35-61 | The loop over shrinking pages ends, expires only stale tickets, counts them exactly, and leaves the status list `Swept` describes. |
| Expiry.SweepOnce | backend/app/jobs/expiry.py:30-62 | The same for both statuses; every other ticket is unchanged, and all the sweep did were read and write steps of its own, taken one after the other. |
| Expiry.SweepIsARun | backend/app/jobs/expiry.py:30-62 | A sweep that starts from where a run has led ends where a longer run leads: the run, then expiry steps at the sweep's time; the operations in flight are untouched. |
| Expiry.SweepHalves | backend/app/jobs/expiry.py:30-62 | One sweep expires at least half of the stale tickets of each status, and all of them where the status holds at most 100 tickets. |
| Expiry.SweepIsFair | backend/app/jobs/expiry.py:24-62 | A sweep of a reachable store expires only tickets pending, or with every approval, for the TTL or longer, and all of them where the status holds at most 100 tickets. |
| Expiry.HalfIsTight | backend/app/jobs/expiry.py:37-61 | Of 200 tickets, all stale, one sweep expires 100; of 101 it leaves one. |
| Expiry.OneSweepClears | backend/app/jobs/expiry.py:37-61 | One sweep clears a list whichever tickets on it are stale if and only if the list fits on one page. |
| Expiry.SweepsClear | backend/app/jobs/expiry.py:65-71 | Repeated at one time, k sweeps leave no stale ticket where there were fewer than 2 to the k. |
| Expiry.StartIgnoresAge | backend/app/core/service.py:273-290 | A start is granted if and only if caller, status and hash match; staleness makes no difference. |
| Samples.StaleStartExample | backend/app/core/service.py:273-290 | Concrete: create, approve, and start at any time after the time to live; the stale ticket is executed. |
| Executor.Report | executor/app/main.py:46-81 | The retry loop sends until an attempt lands or the gate reports a wrong state, four times at most, and says truly whether it landed. |
| Executor.StartLands | backend/app/core/service.py:273-290 | A granted start finds a ticket of this caller that has never run, and answers with that ticket, now executing. |
| Executor.ResultsComeFromReports | backend/app/core/service.py:293-318 | Only a report by the ticket's assignee brings a result event, and with the reported outcome. |
| Executor.PlayKeepsWorld | executor/app/main.py:84-173 | Over every sequence of replica steps, crashes, losses, late arrivals, gate restarts and foreign requests, each granted start is used up once at most. |
| Executor.AtMostOneCall | executor/app/main.py:84-133 | In every such run at most one AWS call is made per ticket. |
| Executor.CallsAreApproved | executor/app/main.py:111-123 | Every call sends exactly the details the ticket was created with, and the ticket carries the required approvals and exactly one start event. |
| Executor.CallWhileExecuting | executor/app/main.py:84-123 | At the moment of a call its ticket is EXECUTING with exactly these details. |
| Executor.ResultsMatchCalls | executor/app/main.py:120-133 | A recorded result is the outcome of the one call made for that ticket. |
| Delivery.ApprovedIsExecuted | executor/app/main.py:84-133 | From any world, where nothing is lost an idle replica takes an approved ticket of its own through exactly one call, with the approved details, to the recorded outcome. |
| Delivery.FourReportsAtMost | executor/app/main.py:57-81 | When no answer to a report is heard, it is sent four times in all. |
| ReplayCache.ReplayCache.CheckAndAdd | backend/app/auth/replay_cache.py:18-25 | A nonce is fresh if and only if a scan of all acceptances finds none of it younger than 360 seconds; a fresh one is recorded. |
| ReplayCache.ReplayCache.Prune | backend/app/auth/replay_cache.py:27-30 | Pruning in place drops the lapsed entries and keeps the map in agreement with the full history. |
| ReplayCache.Admit | backend/app/auth/agent_auth.py:117-135 | Clock window, then cache: together they accept exactly the requests the rule over the whole past accepts. |
| ReplayCache.AcceptedIff | backend/app/auth/agent_auth.py:117-135 | A request is accepted if and only if its date is within 300 seconds of the wall clock, on either side, and its nonce was not accepted in the last 360. |
| ReplayCache.SingleUse | backend/app/auth/agent_auth.py:117-135 | A second acceptance of a request needs a date at least 60 seconds ahead at the first one, and 360 seconds between them. |
| ReplayCache.SecondUseIff | backend/app/auth/agent_auth.py:117-135 | A request just accepted can be accepted again later if and only if its date is at least 60 seconds ahead. |
| RateLimiter.SlidingWindowLimiter.Allow | backend/app/api/middleware.py:35-43 | A request is allowed if and only if fewer than the maximum were allowed within the window of the full history; the queue stays sorted and short; other keys are untouched. |
| RateLimiter.NoWindowOverflows | backend/app/api/middleware.py:29-43 | No window of that length, wherever it ends, holds more than the maximum of allowed requests. |
| RateLimiter.RefusedOnlyWhenFull | backend/app/api/middleware.py:35-43 | A refused request would have been one too many in the window that ends with it. |
| ApprovalLinks.PreviewIsExact | backend/app/api/approval_link_actions.py:54-131 | In every reachable store the preview offers an action if and only if acting on the link succeeds, and otherwise names the reason the answer gives. |
| ApprovalLinks.ActDoesWhatItSays | backend/app/api/approval_link_actions.py:101-131 | In every reachable store, acting on a link adds the approval, or rejects with the trimmed reason in the link's name, with one new event on that ticket; nothing else changes. |
| ApprovalLinks.ReasonIsRequired | backend/app/api/approval_link_actions.py:122-126 | A reject link with a reason shorter than five characters is refused. |
| ApprovalLinks.TicketIsRequired | backend/app/api/approval_link_actions.py:101-131 | A link to a ticket that does not exist is told so. |

## Left out

- HTTP routes, sessions, OIDC, MCP, mail, the web frontend and deployment files: the caller's identity and arguments are inputs.
- STS forwarding, SigV4 and header parsing: only the clock window and the nonce are modelled; a nonce stands for the hash of a signature.
- Parameter validation against botocore and the conditional-requirements table: one abstract predicate `accepted`.
- SHA-256, lower-casing and the check that an operation takes TagSpecifications: abstract functions of `Config`; nothing is assumed about them.
- The AWS call itself: it succeeds or fails, nothing else is said of it; `DRY_RUN` and created resources are not modelled.
- The DynamoDB and S3 stores: they only raise on construction.
- Times are integers in tickets and events, real numbers in the nonce cache and the limiter; formats and time zones are not modelled.
- CanonicalJson.CanonicalDecidesMeaning: is about values without fractional numbers (and so without the refusal of NaN and infinities), and tells `True` from `1`, which Python's dictionary equality does not.
- EventCodec.EventRoundTrip: decodes events in the order they are written; a foreign field order or a missing optional field is not modelled. Tags in a log line are written in key order.
- ShortText.CanonicalIsShortest: is over the texts the model reads; an escaped pair of surrogates, which Python joins to one character, is not among them.
- Recovery.CutWrite: cuts between characters (`ByteLog.CrashAtAnyByte` cuts at any byte). Lone surrogates are not characters of the model.
- SecondBoot.SecondLife: lets the recovered gate go on with whole writes only; a second crash in its midst is not modelled.
- Disk errors while the process lives, fsync and file handles: the only storage fault is a crash that keeps a prefix of the last write.
- Changing settings during a run: `Config` is fixed, with one or two required approvals.
- Executor.ResultsMatchCalls: claims safety only. That a result always lands is not so: the executor gives up after four attempts.
- Expiry.SweepOnce: counts what a sweep does that runs alone. Beside other writers every single expiry is still legal (`Guarantees.LandingIsLegal`). A sweep's event ids come from an abstract supply.
- ReplayCache.SecondUseIff: takes the wall clock to run at a fixed distance from the monotonic one; a wall clock stepped while the process lives is not modelled.
- JsonlRepository.Repository.QueryByStatus: cursors are natural numbers; negative or malformed ones are not modelled.
- Error messages, logging and response bodies beyond the returned ticket.
