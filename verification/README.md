# axt-verify: what its verdicts rest on

`axt-verify` is a client of a transparency log that takes the server for an
adversary. This project models its verifier in Dafny and proves what its
verdicts mean. A server is any function of the requests made so far and the
next one, so every theorem below is about every server, unless it names an
honest log.

The main line runs through five layers.

1. `Tree`, `MerkleProof`, `Checkpoint`: the RFC 6962 tree read from its root
   down, the two proof verifiers of RFC 9162 (sections 2.1.3.2 and 2.1.4.2),
   and exactly which proofs they accept.
2. `History`, `HonestLog`, `SameLog`: one pass's history of the log. Every
   checkpoint met is tied to one append-only line, also while the head moves
   to overtake the kept checkpoint.
3. `Inclusion`, `Feed`, `FeedPass`, `Coalesce`: verdicts on one event, what
   each verdict does to the state and the report, and the whole scheduled
   pass. `FeedKeeps`, `FeedOrder`, `FeedAccount` and `FeedOutcome` carry its bookkeeping,
   `FeedSound` its soundness, `NullCopies`, `PageCopies` and `FeedCopies` its
   independence of paging, `HonestRun` its fairness.
4. `Runs`: any number of passes over one state file, one after the other or
   interleaved, with loading and saving as separate steps.
5. `Leaf`, `LeafReader`, `LeafWriter`, `LeafRoundTrip`, `Json`, `JsonText`,
   `Utf8`: the leaf entry, its canonical printer, its strict reader, and what
   a matching leaf hash says about an event. `Events` and `EventOrder` check a
   supplied file; `Escape`, `Display` and `JsonRewrite` are the two escapers.

What the program does by updating fields is imperative here too: the classes
`Sessions.Session` (Session.dfy), `ScheduledRun.Run` and `StateFile.State`, and
the loops of `EventCheck`, `Coalesce`, `JsonText`, `LeafReader`, `LeafWriter`,
`Escape` and `Display`. Each of their methods is proved to leave the state, or
to return the value, that a function on values specifies; the theorems are
about those functions.

Hashes are a free datatype: two are equal only when made from the same parts,
and `Opaque` stands for bytes of any length with no known preimage. What is
committed at an index is read off a root by descent, so it needs no list of
entries, and a signed checkpoint may be any size and root.

## Model

| member | source | states |
|---|---|---|
| MerkleProof.InclusionCharacterized | checkpoint/checkpoint.go:256-267 | The inclusion verifier, which climbs, accepts exactly when descending the root reaches that leaf at that index and the path is the one the descent reads off |
| MerkleProof.ConsistencyCharacterized | checkpoint/checkpoint.go:272-283 | The consistency verifier accepts exactly when the older root is the root of the newer tree's first m leaves and the path is the one read off the newer root |
| Checkpoint.InclusionSound | checkpoint/checkpoint.go:254-267 | An accepted inclusion proof shows the leaf the checkpoint commits to at that index |
| Checkpoint.InclusionUnique | checkpoint/checkpoint.go:254-267 | One checkpoint and index admit one leaf and one proof of it |
| Checkpoint.HonestInclusion | checkpoint/checkpoint.go:250-267 | Every honest audit path, for any uint64 tree size, fits the hash cap and is accepted |
| Checkpoint.ConsistencySound | checkpoint/checkpoint.go:269-283 | An accepted consistency proof shows that the newer tree extends the older |
| Checkpoint.ConsistencyComplete | checkpoint/checkpoint.go:269-283 | For a non-empty older tree, acceptance is exactly extension plus the one right proof within the cap |
| Checkpoint.HonestConsistency | checkpoint/checkpoint.go:250-283 | Up to size 2^63 every honest consistency proof is accepted |
| Checkpoint.CapFitsExactly | checkpoint/checkpoint.go:250-283 | The cap leaves every older checkpoint of a log provable if and only if the newer tree has at most 2^63 leaves |
| Checkpoint.CapRefusesHonestProof | checkpoint/checkpoint.go:285-295 | Above 2^63 the true proof from size 3 has 65 hashes, so no proof of that extension is accepted |
| Checkpoint.ExtensionKeepsLeaves | checkpoint/checkpoint.go:269-283 | A tree and one that extends it commit to the same leaf at every index of the smaller |
| Checkpoint.PrefixFixedExactly | checkpoint/checkpoint.go:269-283 | One tree extends a single root at each size, if and only if the size is not 0 |
| Checkpoint.TrustedReadsWhatVerified | checkpoint/checkpoint.go:96-122 | Reading back a saved note gives the size and root that its verification gave |
| Checkpoint.TrustedVerifiesExactly | checkpoint/checkpoint.go:211-222 | A note read back would verify to the same checkpoint if and only if it carries the log's signature |
| History.LinkKeeps | verifier.go:351-373 | Linking keeps one consistent history against every server, asks at most two consistency proofs a round, and ends with the checkpoint held and extended by the head; every accusation has its evidence, a refusal an answer of 400, 401, 403 or 404 to a proof asked from that very size |
| History.EmptyIsLinkedUnasked | verifier.go:460-465 | A checkpoint of size 0 is linked under any root, and the log is asked nothing |
| History.SetLatestKeeps | verifier.go:403-422 | Moving the head up to a served extension keeps the history consistent and the saved note at the head |
| History.RelinkKeeps | verifier.go:300-322 | With the head moved past a kept checkpoint and the served one's entry deleted, relinking restores the invariant or ends in a warranted error |
| History.ProveAppendOnlyKeeps | verifier.go:290-329 | A kept checkpoint ends up a proven prefix of a head that was itself served, on the plain path and on the lagging one, or the pass stops with evidence |
| History.RelateKeeps | verifier.go:334-343 | A checkpoint served beside a proof is used only once it verifies and is proven part of the one history |
| History.StartKeeps | verifier.go:191-238 | A pass that starts has proven the saved anchor and every baseline a prefix of its head, and has saved that head; none of them excuses another; a pass that does not start has a warranted reason in the requests it made |
| HonestLog.HonestLink | verifier.go:351-373 | Linking a checkpoint of an honest log that may grow between any two requests never accuses it; it gives up only if the log meanwhile grew by as many entries as there are rounds but one |
| HonestLog.HonestStart | verifier.go:191-238 | Against an honest, growing log whose checkpoint endpoint may lag, a pass starts whatever published checkpoints are kept, or gives up, and only if the log grew by two entries or more meanwhile |
| HonestRun.HonestLogIsNeverAccused | verifier.go:874-1195 | Whatever the feed serves, a scheduled pass over a state earlier passes left never accuses an honest, growing log and never blames it for an event, a re-served one without a proof included; its only log error but an unanswered feed request is that it gave up, and only if the log grew by two entries or more |
| HonestRun.StillLogIsNeverAccused | verifier.go:874-1195 | If the log does not grow during the pass, the pass starts, and only an unanswered feed request is left as an error of the log |
| Inclusion.CheckInclusionIsSound | verifier.go:518-567 | Verified means that one of these hashes is committed at that index in the head the check leaves, though the proof may have been against an older checkpoint |
| Inclusion.CheckEventIsSound | verifier.go:499-515 | The same of a served event at its own index, which is then of the pinned organization, as is every event settled without a finding |
| Inclusion.CheckEventNowIsSound | verifier.go:499-567 | The same of the check that polls the log for a proof that is owed, whose waiting stays within the budget |
| Runs.EveryPassIsSound | verifier.go:874-1195 | After any interleaving of invocations over one state file, against any servers, everything the next pass counts as verified or skips is committed under its final head, which it saves, at the index claimed by an event with that id that a page served to this pass lists, or, if verified, that a page served to an earlier pass listed and a pending record kept; its accusations are warranted |
| Runs.ReportedIsServed | leaf/leaf.go:158-175 | If the leaf at such an index is an entry, it is the entry of the id reported, and some pass was served a row with that id and that index that reads as the very values it records |
| Runs.VouchIdentifies | leaf/leaf.go:158-175 | The same of any id vouched for by an event served in one of these exchanges |
| Runs.WrittenAnchorsOnlyExtend | state.go:121-163 | The anchors ever written to a shared file form a chain, each extending all earlier ones, and each is a note a server answered some request actually made with, never a baseline or an old record |
| Runs.EveryStateIsTidy | state.go:165-192 | On every reachable state no id is both done and pending, and every done record has an index |
| Runs.ParseIsCanonical | verifier.go:822-852 | Two served texts share a first leaf hash only if all their leaf hashes agree, which is what makes a skip safe |
| FeedSound.RunOnceOk | verifier.go:874-1195 | However a pass ends, it leaves a state whose records are of events read before or by it and are committed at its anchor; that anchor was answered to this pass or is unchanged and extends the one before; each success reported is of a row of its pages, or of a pending record it was given; and each row it read was on a page answered to it |
| FeedSound.SkipIsSound | verifier.go:822-852 | A re-listed event passed over without a proof has one of its own hashes committed at its own index in the current head |
| FeedOutcome.PassConserves | verifier.go:922-975 | However a pass ends, an id leaves pending only for done at its index, first sightings and recorded indices never move, and an id is reported at most once among verified, not logged and pending |
| FeedOutcome.PendingSettled | verifier.go:1132-1192 | A pass without error leaves every previously pending id done at its index, failed, or pending unchanged and within its grace |
| FeedOutcome.ServedRecordSurvives | verifier.go:1053-1093 | In a pass without error a record whose id was served survives with its index and a fresh age, and fails if all its copies lack an index |
| FeedOutcome.NoRowIsLost | verifier.go:1017-1103 | In a pass without error each row read that parses ends with its id done, pending, not logged or failed, and each that does not fails under its name |
| FeedOutcome.MarkProgress | verifier.go:1178-1194 | The mark never falls nor newly passes now plus five minutes, stands still on any error or failure, and strictly grows in a truncated pass that returns no error |
| FeedPass.ContinuingUsesACursor | verifier.go:1096-1129 | A page that continues the read uses up one of at most two uses of each distinct cursor |
| FeedPass.FeedEnds | verifier.go:988-1129 | Whatever pages are served, the read ends within twice the page bound |
| Coalesce.CollapsedSummarizes | verifier.go:779-820 | One entry for each id: in conflict exactly when two indexed copies differ in index or content, else an indexed copy if there is one |
| Coalesce.KeptIfServed | verifier.go:786-820 | An id is listed after collapsing exactly when a copy of it was served |
| Coalesce.OrderDoesNotMatter | verifier.go:779-820 | Reordering a page changes no id's presence, conflict, index or, once indexed, hash |
| Coalesce.UnclaimedOrderExactly | verifier.go:796-817 | For an id that no copy places, the event kept is the same in every order if and only if all its copies are the same event |
| NullCopies.NullCopiesDoNotMatter | verifier.go:900-975 | In one stream of entries, dropping one id's copies without an index changes no error and, once a placed copy is met, neither outcome nor state |
| NullCopies.CopiesAnywhere | verifier.go:1017-1103 | Two streams that agree once such copies are dropped leave the same pass |
| FeedCopies.NullCopiesOnAnyPage | verifier.go:988-1195 | Of two logs whose feeds list the same entries but for one id's unplaced ones, on any pages, completed passes that met a placed copy end with the same error, anchor, done, pending and report |
| FeedCopies.DroppingRowsIsAlike | verifier.go:779-820 | Removing the rows of an id's copies without an index leaves such a page if and only if those before its first placed copy were created when it was and no other id is first listed between them |
| FeedCopies.DroppingFromTheFeed | verifier.go:988-1195 | So they may be removed from every page of a feed where they nowhere disturb a placed copy in that way, and completed passes end the same |
| PageCopies.SamePageChangesLittle | verifier.go:796-817 | On a page with a placed copy, those beside it change only where it is listed and its creation time, and no other id |
| PageCopies.DroppedExactly | verifier.go:786-820 | The same if-and-only-if of the list a page is collapsed to |
| PageCopies.CutoverMoves | verifier.go:796-817 | On a page that lists an id without an index, another id, and the first with one, the two ids change places, and the placed copy takes the other's time |
| Events.CheckEventsIsSound | verifier.go:599-698 | Every event tallied is one of a row's; if verified it is of the pinned organization and committed at its own index in the final head, which is saved and extends the saved anchor and all baselines; every accusation is warranted; and unless the log failed, every row is tallied, failed or skipped |
| EventOrder.WantCovers | verifier.go:708-714 | The tree size waited for covers every index the leaf reader can yield |
| EventOrder.RowOrderDoesNotMatter | verifier.go:650-683 | Against an honest log that does not grow and has a lagging checkpoint endpoint, any order of rows with distinct ids gives the same findings after the second look |
| Leaf.LeafIdentified | leaf/leaf.go:158-163 | An entry's hash is among an event's hashes if and only if all eleven values agree, and the profile id agrees for version 2 or is absent for version 1 |
| Leaf.FirstHashIdentifies | leaf/leaf.go:165-175 | An event's first hash is among another's only if every recorded value agrees |
| LeafRoundTrip.RoundTrip | leaf/leaf.go:186-259 | Parsing the entry of any record of Unicode strings with a known type rebuilds that record's entries exactly |
| LeafRoundTrip.FieldsAreSorted | leaf/leaf.go:281-411 | The members of both field sets, and of the two objects printed inside, are in the order of RFC 8785, section 3.2.3, whichever are present |
| LeafReader.DecodeObject | leaf/leaf.go:480-525 | Decoding succeeds exactly when no member repeats and none differs from a projected name only in case, and then holds each member's value |
| LeafReader.ParseReadsProjectedOnly | leaf/leaf.go:186-243 | Two unambiguous texts that agree on the projected members, outer and inner, parse alike, whatever else they hold in whatever order |
| LeafReader.OrderDoesNotMatter | leaf/leaf.go:186-243 | Reordering members at the top or inside the two inner objects changes neither the result nor a refusal |
| LeafReader.ParsedIndexIsSmall | leaf/leaf.go:594-611 | A parsed leaf index is below 2^63 |
| LeafWriter.Render | leaf/leaf.go:281-340 | The bytes appended piece by piece are the canonical printing of the version 1 tree |
| LeafWriter.RenderV2 | leaf/leaf.go:346-411 | The bytes appended piece by piece are the canonical printing of the version 2 tree |
| LeafWriter.Frame | leaf/leaf.go:246-259 | The framed event carries the printed version 2 entry, and the version 1 entry to be matched only without a profile id, else withheld |
| Json.ParseTextPrinted | leaf/leaf.go:281-458 | Reading a printed tree gives the tree back |
| Json.PrintInjective | leaf/leaf.go:281-458 | Two trees that print alike are one tree |
| JsonText.StrictEscaped | leaf/leaf.go:431-458 | Every string survives being written and strictly decoded |
| JsonText.EscapeAllInjective | leaf/leaf.go:431-458 | Two strings that are written alike are equal |
| JsonText.WellFormed | leaf/leaf.go:555-592 | The index-jumping scan accepts exactly valid UTF-8 whose surrogate escapes all pair up |
| JsonText.WellFormedIsStrict | leaf/leaf.go:550-581 | On every literal, that is exactly when a JSON string decoder repairs nothing |
| Escape.PrintableIsUndone | cmd/axt-verify/main.go:390-423 | An explicit decoder recovers every byte string from what is shown of it, invalid bytes included |
| Escape.PrintableInjective | cmd/axt-verify/main.go:390-423 | Two byte strings shown alike are equal |
| Escape.PrintableIsClean | cmd/axt-verify/main.go:390-423 | What is shown is valid UTF-8 without a control rune |
| Display.NextPair | cmd/axt-verify/main.go:455-462 | The surrogate pair written for an astral rune decodes to that rune |
| Display.DisplayIsClean | cmd/axt-verify/main.go:430-450 | What is shown of any valid text has no control rune |
| Display.DisplayIsLossless | cmd/axt-verify/main.go:430-462 | The text shown parses to the same value as the text given |
| StateFile.State.Save | state.go:121-163 | The file changes only if it still holds what was loaded, and then to this state |

## Findings

- The 64-hash cap. It fits every audit path of a uint64 tree. It does not fit
  every consistency proof: from size 3 to a size above 2^63 the one right
  proof has 65 hashes (`Checkpoint.CapRefusesHonestProof`). It refuses no
  checkpoint of a log exactly up to size 2^63 (`Checkpoint.CapFitsExactly`).
- Collapsing a page keeps, for an id that no copy places, the first copy read
  with its content. Which event is kept is independent of the page's order
  exactly when all copies are one event (`Coalesce.UnclaimedOrderExactly`).
- A copy without an index, read on the page of a placed copy and before it,
  lends the placed one its place in the list and its creation time. It changes
  nothing else of the page (`PageCopies.SamePageChangesLittle`), and nothing at
  all exactly when it was created at the same time and no other id is first
  listed between the two (`PageCopies.DroppedExactly`). Otherwise it does:
  `PageCopies.CutoverMoves` is such a page. The time is then that of the
  pending record (`FeedCopies.EntryTimeIsRecorded`), and another place is
  another order of requests, which a server may answer differently. Where no
  page is like that, whole passes end the same
  (`FeedCopies.DroppingFromTheFeed`).
- A note read back from the state file is not verified again. It would verify
  exactly when it is signed (`Checkpoint.TrustedVerifiesExactly`), so the
  file is trusted as the code says.
- A checkpoint of size 0 is linked without a look at its root, as every tree
  extends the empty one (`History.EmptyIsLinkedUnasked`). One tree fixes the
  root of its prefix exactly at the sizes above 0
  (`Checkpoint.PrefixFixedExactly`).
- A log that grows between two requests can outrun a pass: three rounds of
  linking fail only if it grew by two entries or more meanwhile
  (`HonestLog.HonestLink`), and the pass then ends in an error that accuses no
  one.

## Left out

- HTTP transport, retries, redirects and cancellation: an answer is a note, a proof, a page, a status or nothing.
- Signature cryptography and key handling: a note carries whether the log's signature verifies; its origin, size and root lines are read as the code reads them.
- The proof library itself is not part of the repository: its two verifiers are modelled after RFC 9162, with equal sizes and the empty tree taking an empty proof.
- Real time: timestamps are integers, `now` is one value for a pass, and polling counts fixed steps against a budget; when a state was last verified is not kept.
- The file system under `Save`: the file is one value, read and compare-and-written atomically; a file removed by someone else between runs is not modelled.
- The JSON encoding of the state, and state files written by releases that knew only version 1 entries: runs start from no file.
- The names and creation times probed from a row that need not parse, and the type probe with its case folding: they are parameters.
- Messages, report printing, command line, baseline files and diagnostics of signatures.
- The nesting limit of the JSON decoder.
- The Unicode tables of format characters and variation selectors: a set, as a parameter.
- The order in which pending and withdrawn ids are listed: any enumeration of the set.
- The text key by which a page counts as fresh: copies are told apart by id, hash and index as a tuple, not by their joined text.
- The closure that `pollLog` repeats: the two conditions it is used with are the functions `Events.Await` and `Inclusion.PollFor`.
- HonestRun.HonestLogIsNeverAccused: for logs of at most 2^63 entries, because of the first finding; a feed that breaks off, an event whose hashes are not on the log, and a missed deadline may still be reported.
- HonestLog.HonestLink: the log answers each request from the newest tree of that moment, whose checkpoint is signed; a proof cached from an older tree is not an honest answer here.
- EventOrder.RowOrderDoesNotMatter: for a log that stands still during the check, as what a growing one covers depends on when it is asked.
- FeedCopies.NullCopiesOnAnyPage: not for pages on which a copy without an index moves a placed one or its time, as the third finding shows.
- Display.DisplayIsLossless: for texts with no raw byte below 0x20 and with strings that need no repair, which is what the JSON encoder writes; a raw line break between tokens would be escaped and end the text.
- NullCopies.NullCopiesDoNotMatter: copies of another organization are failures of their own and are not covered.
