# Honeypot: a verified model

The honeypot answers telnet and SSH sessions as if it were a small router. It lets an attacker run shell
commands against a fake file system, fetches what the attacker's `wget` names into a quarantine, reads fetched
scripts as text, and fetches the downloads those scripts list ("stage two"), within budgets that hold for the
whole process. This project models that pipeline and its supporting parts in Dafny and proves what they promise.

`dafny verify dfyconfig.toml` checks everything. Each file is one module.

| file | models |
|---|---|
| `Basics.dfy` | optional values and one fact about sequences |
| `PyDict.dfy` | insertion-ordered dictionaries, as the limiter and the dashboard use them |
| `Limiter.dfy` | the follow-up budgets: per-URL cooldown, per-session budget, per-host window, and eviction |
| `JobQueue.dfy` | the file queue as steps of sessions and workers over one directory, with crashes |
| `QueueWorker.dfy` | the loops of a worker and of a waiting session, with everybody else's steps between their own |
| `Stage2Plan.dfy`, `Stage2Inline.dfy`, `Stage2Collect.dfy` | planning follow-ups, the in-process worklist, and the polling collector |
| `ScriptScan.dfy`, `ScriptLaws.dfy` | the script scanner, and what it makes of scripts built from their parts |
| `CommandLine.dfy`, `CommandLaws.dfy`, `Session.dfy` | the command-line splitter, and what it makes of lines built from their parts; the `;`, `&&`, `\|\|` loop and the download cap |
| `FakeTree.dfy`, `PathLaws.dfy`, `FakeGraph.dfy`, `GraphAsTree.dfy`, `FakeFilesystem.dfy` | the fake file system: paths and trees; what resolving means; graphs of directory objects, shared and circular ones included; which graphs stand for a tree and what the operations then mean; the operations on the heap |
| `Telnet.dfy` | the option filter and the line reader |
| `Quarantine.dfy` | the content-addressed store and the fetches that feed it |
| `Donut.dfy` | the dashboard's top-rows table |

Code that changes state is modelled by classes and methods with loops. Each method is proved against a function of
the inputs and the old state, and the lemmas then say what that function means. Where several tasks or processes
share state, each step is a transition, an invariant holds over every interleaving, and the methods allow any steps
of the others at each point where the source waits: between file operations, during a fetch, and in a sleep.

Library calls whose content does not matter here are parameters of the model and may be any function: `shlex`,
`urlsplit`, SHA-256, the static ELF detector, `dispatch`, the network, clocks (which never go back) and file reads.

## Behaviour worth knowing

These are properties one might expect and the code does not have. Each has its exact condition; where that alone does not
show an input, a lemma or method gives one.

- `read_line` throws away the rest of a read after the first line feed, so a second command in the same read is lost
  (`Telnet.SecondLineLost`). Dropping is harmless exactly for complete option commands and carriage returns
  (`Telnet.DropHarmless`).
- `mv` is `cp` followed by `rm`, except when the node moves up onto a directory it lay in and carries something at
  the very path it came by (`FakeTree.MoveAgainstCopy`, and `FakeTree.ShadowedMove` for an input). Moving a node onto or below its own place deletes it.
- A `mv` whose source ends in a component `root` stores the directory a second time and deletes some other entry, or
  fails with a `KeyError` after storing it. Afterwards the objects form no tree (`FakeFilesystem.FakeFilesystem.MoveNode`, and `FakeFilesystem.RootMoved` for a session that does it).
- What is written into an existing directory reads back, except under the name `root`, and except where the walk to that
  directory comes by the very entry written, which such a `mv` can bring about (`FakeGraph.WriteThenRead`). A write can
  then also show at a path that is not below the one written (`FakeGraph.WriteElsewhere`). `FakeFilesystem.LoopedWrites`
  is a session in which both happen.
- One follow-up whose id holds a NUL character ends the collection of all of them: opening its result file raises, and the
  entries not decided yet get no outcome, not even a timeout (`Stage2Collect.Collector.CollectQueued`, and
  `Stage2Collect.NulIdFirst` for an input).
- When one of the limiter's maps is over 4096 entries, pruning can throw away live entries, oldest position first.
  Positions are not ages: admitting a URL again keeps its old position. Every guarantee of the limiter therefore reads
  "unless this key was evicted in between" (`Limiter.ForgetsUnderLoad` is a run in which it matters).
- With a cap below one, `_lump_and_cap` returns more rows than the cap (`Donut.Capped`).

## Model

| member | source | states |
|---|---|---|
| Limiter.Stage2Limiter.Admit | honeypot/fetcher/stage2.py:45-67 | On a batch, the log grows by exactly what the naive rule over the whole log gives, after one event for each key this call's pruning forgot; the result is the URLs so admitted, each from the batch; the seen-URL and session maps afterwards are exact; the maps hold at most 4096 entries plus the batch. A URL is forgotten if and only if it was still cooling down with at least 4096 such URLs behind it, a session or host if and only if it still mattered with 4096 others behind it |
| Limiter.Stage2Limiter.Prune | honeypot/fetcher/stage2.py:69-77 | In terms of the maps it met: up to 4096 URLs none is touched; past that exactly the last 4096, or fewer, of those still cooling down remain, with their times and in their old order, and exactly the others of them are forgotten. Of sessions and hosts the last 4096 remain, and those dropped are forgotten exactly when they had used something or had an admission inside the window. The log stays in agreement |
| Limiter.WholeHistoryRule | honeypot/fetcher/stage2.py:51-61 | While nothing was evicted, the rule is the three caps over the entire admission history: session total, no admission of the URL inside the window, host admissions inside the window |
| Limiter.EvictedExactly | honeypot/fetcher/stage2.py:69-77 | A pruning pass forgets a key if and only if it stands on one of the oldest positions past the limit and still matters: a URL left after the expiry sweep, a session that has used something, a host with an admission inside the window |
| Limiter.CooldownUnlessEvicted | honeypot/fetcher/stage2.py:54-56 | In every run, two admissions of one URL are at least the cooldown apart unless that URL was evicted in between |
| Limiter.HostCapUnlessEvicted | honeypot/fetcher/stage2.py:57-63 | In every run, admissions of one host inside one window number at most the cap unless that host was evicted in between |
| Limiter.SessionCapUnlessEvicted | honeypot/fetcher/stage2.py:52-53 | In every run, one session is admitted at most its budget unless that session was evicted in between |
| Limiter.ForgetsUnderLoad | honeypot/fetcher/stage2.py:45-77 | A concrete run of the limiter in which one URL is admitted twice a second apart under a cooldown of a hundred seconds, after 4097 admissions forced it out |
| JobQueue.StepKeeps | honeypot/fetcher/queue.py:46-82 | Every file operation of every session and worker, and every crash, keeps the invariant of the directory and of all processes, including that a claimed job without a result is still in the hands of its worker unless that worker crashed |
| JobQueue.QueueSafety | honeypot/fetcher/queue.py:46-82 | Over every interleaving: a job is fetched at most once, and by the worker that claimed it; no reader sees a partial file; a job is never in both directories and, once queued, stays in one of them in every continuation; a claimed job has its result, or its worker still has it to do, or that worker crashed; a follow-up is visible only after its parent's result; a session gets its own job's result or a timeout |
| JobQueue.StepCares | honeypot/fetcher/queue.py:61-82 | No step of anybody lets a live worker forget a job it claimed before the job's result is there |
| JobQueue.OthersLeaveWorker | honeypot/fetcher/worker.py:27-55 | A run without steps of a worker leaves it where it was, owning no more than it did, and undoes nothing |
| JobQueue.OthersLeaveClient | honeypot/session/manager.py:369-391 | A run without steps of a session leaves its wait where it was and undoes nothing |
| QueueWorker.SharedDirectory.ClaimPendingJobs | honeypot/fetcher/queue.py:61-82 | Whatever was pending when the call began is owned by some worker at its end; the jobs returned are distinct, read whole, and exactly those this worker took over, none of which anybody owned before |
| QueueWorker.SharedDirectory.ProcessPending | honeypot/fetcher/worker.py:27-55 | With any steps of others in between, also during each fetch, an uninterrupted pass takes over exactly the jobs it returns, all distinct, leaves each with the result its own fetch gave published, at a moment of the pass, and every follow-up of it queued, counts them, and undoes nothing |
| QueueWorker.SharedDirectory.EnqueueJob | honeypot/fetcher/queue.py:46-58 | With any steps of others in between, exactly three file operations of this session end with the whole job in the queue and the session polling |
| QueueWorker.SharedDirectory.FetchViaQueue | honeypot/session/manager.py:369-391 | The session's job is queued and stays so. The session's own steps are one start, three to enqueue and one look per clock reading before the deadline; it ends at the first look that finds the result file, with the result published for that very job, or gives up after the deadline with every look in vain; the number of looks is bounded by the waiting time |
| QueueWorker.Polled | honeypot/session/manager.py:382-390 | A look ends the wait exactly when the result file is there, with what was published for this job; otherwise it changes nothing |
| JobQueue.InvMeans | honeypot/session/manager.py:369-391 | In every state the invariant allows, a session that has ended holds the result published for its own job or a timeout, and the other safety properties hold |
| Stage2Plan.Planner.PlanFollowups | honeypot/fetcher/stage2.py:95-125 | If stage two is enabled, the fetch succeeded with a file, the depth is below the limit, both sizes are within 262144 bytes and the file looks like a script, the plan counts what the scan of that file found and skipped, and the limiter's log grows by exactly the naive rule's answer to its URLs; otherwise the plan is empty and the log unchanged. The new jobs are, in the script's order, one per URL admitted, under fresh ids, one level deeper, with the script's digest as parent |
| Stage2Inline.Driver.RunInline | honeypot/session/manager.py:303-319 | The worklist ends for every tree of scripts. The root and every fetched result is planned exactly once, in log order, at successive points of the limiter's log; the jobs fetched are, one for one and in order, what the limiter admitted there of that result's scan, each logged with what its fetch gave; depths never decrease and never pass the limit; at most B + B^2 + ... + B^D fetches |
| Stage2Inline.Driver.VisitFirst | honeypot/session/manager.py:306-317 | One turn takes the first entry, plans it at the limiter's present log, fetches and appends exactly what the limiter admits of its scan, and lowers the remaining work, the sum over pending entries of the largest tree each can still lead to |
| Stage2Inline.WeightIsGeometric | honeypot/session/manager.py:303-319 | The weight of an entry with k levels below it is one more than B + B^2 + ... + B^k |
| Stage2Collect.Collector.CollectQueued | honeypot/session/manager.py:321-367 | When no look raised, the summaries logged are, as a multiset, those given and those listed by each logged result; always, a logged entry names as parent the given script, with its summary among those given, or the url and digest of a logged result that lists it. Rounds go on exactly while something is pending, the clock reads before the deadline and no look raises, one look at each pending entry per round; the log is those rounds' outcomes followed by a timeout for each entry left, or, if a look raised, by the outcomes of the looks before it, and then exactly the entries still open are missing. Where result files can be read, a look raises if and only if some id looked at holds NUL and no `/`. Every outcome is what a look gave; a timed-out entry was looked for in vain in the last round or discovered in it, or no round fitted before the deadline; the number of rounds is bounded by the waiting time |
| Stage2Collect.Collector.Poll | honeypot/session/manager.py:328-350 | One round looks once at every pending entry, in order, logs what the look decided, and leaves waiting those not found and those listed by what it logged; a look that raises is the last |
| Stage2Collect.RunBalances | honeypot/session/manager.py:326-350 | After any number of rounds, entries logged and entries waiting are those given and those discovered, none lost and none counted twice, and no outcome is made up |
| Stage2Collect.RoundLeaves | honeypot/session/manager.py:339-348 | Whatever a whole round leaves waiting, its own look missed or its own outcomes listed |
| Stage2Collect.StoppedOpen | honeypot/session/manager.py:332-357 | After a look that raised, the entries logged and those left without outcome are those given and discovered, and there is at least one of the latter |
| Stage2Collect.NulIdFirst | honeypot/session/manager.py:332-367 | With the id `a\0b` first in the list, nothing at all is logged, whatever the result directory holds |
| ScriptScan.Scanner.ForLoop | honeypot/fetcher/script_scan.py:106-147 | Either the construct is malformed, nothing changes and one segment is skipped, or each of its values in turn is bound in a copy of the variables, the body is evaluated, and the outer variables are left alone |
| ScriptScan.Scanner.Run | honeypot/fetcher/script_scan.py:97-104 | The imperative main loop computes the recursive scan |
| ScriptScan.ScanScript | honeypot/fetcher/script_scan.py:186-197 | The loop over lines and segments, with its limits, computes the scan that the laws of `ScriptLaws` speak of |
| ScriptLaws.AssignedThenDownloaded | honeypot/fetcher/script_scan.py:149-183 | For every name and every http or https URL without `$`, backquote and blanks: a script that assigns the URL to the name and then downloads `$NAME`, or `${NAME}`, lists exactly that URL and skips nothing |
| ScriptLaws.UnknownSkipped | honeypot/fetcher/script_scan.py:174-177 | A download of a variable without a value lists nothing and counts one skipped |
| ScriptLaws.ExpandReference | honeypot/fetcher/script_scan.py:77-79 | In any text, `$NAME` not followed by a name character, or `${NAME}`, becomes the value; a name without a value stays as written; what stands before and behind is unaffected |
| ScriptLaws.AssignmentSets | honeypot/fetcher/script_scan.py:155-164 | An assignment sets its name to its expanded value for everything behind it, and sets nothing if something in the value stays unresolved |
| ScriptLaws.WrappedDownload | honeypot/fetcher/script_scan.py:149-183 | A `wget` or `curl`, by any path, behind any of `do`, `then`, `else`, `export`, assignments and `busybox`, is judged by its expanded arguments alone: skipped if one is unresolved or the last URL among them is neither http nor https, listed if it is, ignored if there is none |
| ScriptLaws.TftpSkipped | honeypot/fetcher/script_scan.py:170-181 | A `tftp` is never listed: it counts as skipped if an argument is unresolved or it names a host, and is ignored otherwise |
| ScriptLaws.LoopRead | honeypot/fetcher/script_scan.py:109-123 | `for NAME in WORDS` followed by `do` is a loop over the words its expanded words hold, at most 64 of them and none if one stays unresolved; without `in` or without `do` it is no loop |
| ScriptLaws.LoopDownloads | honeypot/fetcher/script_scan.py:140-146 | A loop over a download lists, for each of its values, the URL with the value in the place of the variable, as long as the list is not full |
| ScriptLaws.BodyEndsAtItsDone | honeypot/fetcher/script_scan.py:122-138 | A loop's body ends at the first `done` that closes no loop opened inside it, or at the end of the script, or at 200 segments |
| ScriptLaws.CommentIgnored | honeypot/fetcher/script_scan.py:188-192 | An empty line or a comment anywhere adds no segment |
| ScriptLaws.LastUrlIs | honeypot/shell/commands.py:255-262 | The URL of a download is its last argument holding `://` |
| ScriptScan.ForLoopMeansExpansion | honeypot/fetcher/script_scan.py:106-147 | A `for` loop with a plain body lists exactly the URLs of the loop-free script that sets the variable to each of its first 64 values and repeats the body, and the scan goes on behind it with the outer variables unchanged; a loop name no reference can mention needs no assignment |
| ScriptScan.LoopUnrolls | honeypot/fetcher/script_scan.py:140-146 | The same for any list of resolved values, wherever the unrolled segments stand |
| ScriptScan.SegmentAgrees | honeypot/fetcher/script_scan.py:149-183 | What a segment lists depends only on the variables a `$` reference can mention |
| ScriptScan.ValuesResolved | honeypot/fetcher/script_scan.py:114-120 | No loop value holds `$` or a backquote: one unresolved word empties the list |
| ScriptScan.CapTruncates | honeypot/fetcher/script_scan.py:87-104 | Scanning with cap k gives the first k URLs of scanning with any larger cap |
| ScriptScan.ScanListed | honeypot/fetcher/script_scan.py:149-197 | All listed URLs are distinct, http or https, fully resolved and within the cap, at a cost of at most 64 evaluations per input segment |
| CommandLine.SplitCommandLine | honeypot/shell/commands.py:155-209 | The scanning loop, which stops at the limit, computes the first `limit` segments of the declarative splitting of the line, and so the first entries of what any larger limit gives |
| CommandLine.PrintSplit | honeypot/shell/commands.py:155-209 | Printing a list of trimmed segments without open separators, closed quotes in all but the last, first operator `;`, within the limit, and splitting it again gives the list back |
| CommandLine.SplitPrintSplit | honeypot/shell/commands.py:155-209 | Printing any split line and splitting it with the same limit gives the same list, trailing backslashes and an open last quote included |
| CommandLine.SplitGood | honeypot/shell/commands.py:155-209 | Every returned segment is trimmed and non-empty, quotes are closed in all but the last, and the first operator is `;` |
| CommandLine.SegmentAlone | honeypot/shell/commands.py:155-209 | A returned segment splits to itself alone |
| CommandLine.SplitInOrder | honeypot/shell/commands.py:165-209 | Whatever the limit, the segments are disjoint pieces of the line, in order |
| CommandLaws.LineSplits | honeypot/shell/commands.py:178-209 | Any line written from plain and escaped characters, single-quoted and double-quoted texts, lone `&` and `\|`, and the separators `;`, newline, `&&` and `\|\|` between its commands splits exactly at those separators, into the commands without the blanks around them |
| CommandLaws.BlankDropped | honeypot/shell/commands.py:167-176 | A blank command between two others drops out, and the second keeps the separator nearest to it |
| Session.SessionManager.RunSegment | honeypot/session/manager.py:198-239 | A segment is a run of the shared session: one dispatch, and if a download is asked for, an attempt and, unless the cap refuses it, any steps of other channels and then one outcome; a download ends with status 0 exactly when it is within the cap and its fetch succeeds and with 1 otherwise, with the reply for that; the download accounting of the session's log stays exact, whatever other fetches are under way |
| Session.SegmentIsRun | honeypot/session/manager.py:198-239 | The specified result of a segment is where this channel's steps lead, in order, with any steps of the others in the one place where it waits |
| Session.PossibleLeaves | honeypot/session/manager.py:219-237 | Whatever the others do meanwhile, this channel's download is still the one under way with its number, and nothing logged is undone |
| Session.SessionManager.HandleCommand | honeypot/session/manager.py:171-196 | With any steps of other channels during each fetch, the commands run by the flat loop are those the recursive evaluation of the line's AND-OR lists runs, cut after the first at whose end the session is over, by whichever channel; state and reply follow from them, and the download accounting stays exact |
| Session.FlatIsStructured | honeypot/session/manager.py:185-196 | The flat status loop and the recursive evaluation of left-associative AND-OR lists (section 2.9.3 of the POSIX.1-2017 Shell Command Language) run the same commands with the same statuses |
| Session.DownloadChained | honeypot/session/manager.py:185-239 | A command that asks for a download, followed by `&&`, runs its right arm exactly when the download is within the cap and its fetch succeeds, and followed by `\|\|` exactly when it is refused or fails |
| Session.LineChomped | honeypot/session/manager.py:185 | Of an input line only the line feeds at its very end, and then the carriage returns, are cut off |
| Session.StepKeepsCap | honeypot/session/manager.py:206-237 | A dispatch, an attempt or an outcome on any channel keeps the download accounting exact |
| Session.DownloadCap | honeypot/session/manager.py:206-237 | From a fresh session, for every interleaving of its channels: requested events number the smaller of the attempts and the cap, each later attempt has one failed event and no fetch, each finished fetch has exactly one outcome |
| FakeFilesystem.FakeFilesystem.Resolve | honeypot/shell/filesystem.py:126-143 | The loop computes the specified path, which is never empty and holds no empty, `.` or `..` component |
| PathLaws.ResolveUp | honeypot/shell/filesystem.py:136-138 | From any clean directory, `..` is the directory without its last component, or the root if it had one only |
| PathLaws.ResolveInto | honeypot/shell/filesystem.py:139-140 | A plain name is one component more |
| PathLaws.ResolveJoin | honeypot/shell/filesystem.py:126-143 | `a/b`, with `b` relative, leads where `b` leads from where `a` leads |
| FakeTree.ResolveClean | honeypot/shell/filesystem.py:126-143 | Resolving any path against a clean working directory gives a non-empty clean path |
| FakeFilesystem.FakeFilesystem.Lookup | honeypot/shell/filesystem.py:145-155 | Walking the directory objects, shared or circular ones included, finds where the entries named by the path without its `root` components lead |
| FakeFilesystem.FakeFilesystem.Chdir | honeypot/shell/filesystem.py:171-179 | The working directory changes exactly when the target is a directory, the two errors are told apart, `cd` to the displayed directory leads to the same node as before, whatever the objects share, and after `cd name` there is a directory for `cd ..` to lead back to, which is where it leads |
| FakeGraph.DisplayStays | honeypot/shell/filesystem.py:166-169 | In every graph, resolving the displayed working directory leads where the working directory leads |
| FakeFilesystem.FakeFilesystem.ReadFile | honeypot/shell/filesystem.py:157-197 | On every graph, reading gives what the walk leads to, following at most eight symbolic links inside the parent directory; on a tree, what the tree says |
| FakeFilesystem.FakeFilesystem.WriteFile | honeypot/shell/filesystem.py:199-203 | On every graph, exactly the one entry of the directory object that the walk to the parent leads to becomes the file, if there is such a directory; on a tree, what was at the path, with all below it, is replaced and nothing else |
| FakeFilesystem.FakeFilesystem.MakeDir | honeypot/shell/filesystem.py:205-209 | On every graph, exactly one entry of the parent becomes a new empty directory unless the name is taken or the parent is no directory; on a tree, an empty directory appears |
| FakeFilesystem.FakeFilesystem.Remove | honeypot/shell/filesystem.py:211-215 | On every graph, exactly one entry of the parent goes; on a tree, it and everything below it disappear, and nothing else |
| FakeGraph.WriteThenRead | honeypot/shell/filesystem.py:190-203 | On every graph of directory objects: after writing into an existing directory, reading gives the content back if and only if the last component is not `root` and the walk to that directory does not itself come by the entry written |
| FakeGraph.WriteElsewhere | honeypot/shell/filesystem.py:190-203 | On every graph: a path whose walk does not come by the entry written leads where it did and, unless it is a symbolic link beside that entry, reads as before; a path whose walk does come by it reads the new content or nothing |
| FakeGraph.RemoveThenGone | honeypot/shell/filesystem.py:211-215 | On every graph: what is removed from an existing directory is gone if and only if its name is not `root` |
| FakeGraph.MakeDirThenThere | honeypot/shell/filesystem.py:205-209 | On every graph: a directory made in an existing one is there afterwards, unless the name was taken |
| FakeGraph.ReadThroughLinks | honeypot/shell/filesystem.py:157-197 | On every graph: reading through a chain of symbolic links inside one directory gives the file at its end if there are at most eight links, and nothing otherwise |
| FakeFilesystem.DeepCopy | honeypot/shell/filesystem.py:234-251 | A deep copy, in any graph: each directory the node leads to has exactly one new counterpart, however often it is held, and the counterparts hold each other as the originals do |
| FakeFilesystem.FakeFilesystem.CopyNode | honeypot/shell/filesystem.py:234-251 | On every graph, each error is told apart, and on success exactly the final entry changes, to a deep copy of the source; on a tree, the tree afterwards is the old one with the source's old subtree grafted onto the final slot |
| FakeFilesystem.FakeFilesystem.MoveNode | honeypot/shell/filesystem.py:253-273 | On every graph, each outcome and the resulting graph are exactly: one entry stored, then the source's own entry deleted, if it is there. On a tree, unless the source ends in `root`, the objects still form a tree, the moved one; if it does and the slot is not that very entry, they form no tree at all |
| GraphAsTree.MoveBreaksTree | honeypot/shell/filesystem.py:253-273 | After moving a directory of a tree through a trailing `root`, the objects stand for no tree |
| FakeFilesystem.RootMoved | honeypot/shell/filesystem.py:253-273 | A session that runs `mkdir /tmp; mkdir /root; mv / /tmp/x` is left with directories that form no tree, the root lying inside /tmp |
| FakeFilesystem.LoopedWrites | honeypot/shell/filesystem.py:190-203 | After that session, what is written at /tmp/x/foo is read at /foo, and what is written at /tmp/x/tmp cannot be read there |
| FakeTree.MoveAgainstCopy | honeypot/shell/filesystem.py:211-273 | `mv` leaves the same tree as `cp` then `rm` if and only if the node does not move up over its own old path |
| FakeTree.ShadowedMove | honeypot/shell/filesystem.py:253-273 | With directories /a, /a/a and /a/a/a, `mv /a/a /` succeeds and leaves something at /a/a, which `cp` and `rm` would not |
| FakeTree.TrailingRootMove | honeypot/shell/filesystem.py:253-273 | `mv /root /tmp/x` succeeds with a slot that is not the source entry, or ends in a `KeyError` when there is no entry `root` |
| GraphAsTree.ReadIsTree | honeypot/shell/filesystem.py:157-197 | Where the objects form a tree, the walk through the objects reads what the tree says |
| GraphAsTree.WriteIsTree | honeypot/shell/filesystem.py:199-203 | Where the objects form a tree, changing one entry to a file replaces exactly the subtree at that slot, and they still form a tree |
| GraphAsTree.MakeDirIsTree | honeypot/shell/filesystem.py:205-209 | Where the objects form a tree, storing a new directory adds exactly one empty directory |
| GraphAsTree.CopyIsTree | honeypot/shell/filesystem.py:234-251 | Where the objects form a tree, storing a deep copy grafts the source's subtree onto the slot, and no directory is reached twice |
| GraphAsTree.MoveIsTree | honeypot/shell/filesystem.py:253-273 | Where the objects form a tree, storing a node and deleting its own entry gives the moved tree, also when it moves above or below itself |
| GraphAsTree.UsesBelow | honeypot/shell/filesystem.py:145-155 | In a tree a walk comes by an entry exactly when it leads to it or below it, so never on the way to the directory that holds it |
| GraphAsTree.RemoveIsTree | honeypot/shell/filesystem.py:211-215 | Where the objects form a tree, deleting an entry removes exactly the subtree at the slot |
| Telnet.IacFilter.Feed | honeypot/listeners/telnet.py:45-74 | The five-state filter makes the specified step for every byte |
| Telnet.StreamFiltered | honeypot/listeners/telnet.py:45-74 | A stream in the TELNET COMMAND STRUCTURE of RFC 854 comes out as exactly its data bytes, and the filter ends in its normal state |
| Telnet.AnyChunking | honeypot/listeners/telnet.py:45-74 | The same for every way of cutting the stream into reads |
| Telnet.Connection.ReadLine | honeypot/listeners/telnet.py:87-105 | A call returns what the specification of the reader gives and leaves filter, buffer and pending reads accordingly; the buffer never exceeds 8192 bytes |
| Telnet.LinesDelivered | honeypot/listeners/telnet.py:87-105 | Over a whole connection the lines delivered are those of the part of each read up to its first line feed, without CR, up to the first line over the limit |
| Telnet.LineByLine | honeypot/listeners/telnet.py:87-105 | When each read ends at its first line feed, that is every line the client sent |
| Telnet.NoLineLost | honeypot/listeners/telnet.py:87-105 | Over a whole connection, if whatever each read holds after its first line feed is only complete commands and carriage returns, every line the client sent is delivered, up to the first over the limit |
| Telnet.SecondLineLost | honeypot/listeners/telnet.py:94-101 | Two commands in one read: the second is lost |
| Telnet.DropHarmless | honeypot/listeners/telnet.py:94-101 | Dropping bytes after a line feed changes no later line if and only if they hold only complete commands and carriage returns |
| Quarantine.StepKeeps | honeypot/fetcher/fetcher.py:102-195 | Every step of every fetch keeps the invariant of the store and changes nothing already stored |
| Quarantine.OthersLeaveFetch | honeypot/fetcher/fetcher.py:102-131 | A run without steps of a fetch leaves it where it was and changes nothing already stored |
| Quarantine.QuarantineSafety | honeypot/fetcher/fetcher.py:72-197 | Over every interleaving of fetches with distinct job ids: each file is named by the digest of the whole payload it holds, is within the cap, and with its sidecar belongs to the first capture with that digest; the files are exactly the digests captured; nothing stored ever changes; ended fetches leave no temporary file |
| Quarantine.QuarantineDirectory.FetchAndQuarantine | honeypot/fetcher/fetcher.py:61-197 | With any steps of other fetches at each wait, a fetch reports refusal (a protocol not configured, or neither http nor https in any letter case), HTTP error, oversize, failure or capture exactly as its own response decides, a capture's digest and size are those of the joined chunks, the detector has seen the first 64 bytes of what is stored, the file is there, and no temporary file is left |
| Donut.Conserves | tools/dashboard.py:382-398 | The rows add up to the whole table |
| Donut.Capped | tools/dashboard.py:391-398 | A non-empty table gives at most `cap` rows if and only if the cap is at least one, and then as many as there are labels or exactly the cap |
| Donut.OtherLast | tools/dashboard.py:396-398 | Past the cap the last row is called `Other` and counts exactly what the rows before it leave out |
| Donut.StrLessIs | tools/dashboard.py:393 | The alphabetical order is decided by the first difference |
| Donut.RowsAreBiggest | tools/dashboard.py:391-398 | Kept rows carry their own counts, stand in the fixed order and then alphabetically, and each counts for more than every folded label, or as much and stands before it |
| Donut.SortedStable | tools/dashboard.py:391-395 | Sorting permutes the labels and puts each ahead of those ranking behind it, ties in their old order |

## Left out

- Real network and HTTP (aiohttp, asyncssh, redirects, DNS, the private-address guard): a response is an arbitrary status, list of chunks and possible failure.
- Real files, permissions, JSON and character decoding: only atomic rename, existence and whole-file content are kept; `Partial` marks a file being written.
- `shlex`, the plain-split fallback of `tokenize`, `urlsplit` and `splitlines`: functions the model is given, or text already cut into lines.
- `looks_like_script` and reading the quarantined file: a sample is a size, a verdict and its lines, or missing.
- `dispatch` and everything behind it (help text, banners, persona, grep, ls): an arbitrary function from the session's state and the command.
- Fields of logged events that take no part in any decision, and the `stage2_scan` events.
- File names of download requests and `DownloadJob` fields nothing here depends on.
- Session.SessionManager.Await: what other channels do during a fetch is an arbitrary function of the session and of the attempt's number, which no two waits share; steps that are not possible are skipped.
- `urlsplit` is taken not to raise. It does for a URL such as `http://[x/a`, and planning then gives no follow-up at all.
- Follow-up summaries and result files that lack a field, or hold one of another type, beyond the reading of a result file failing or raising; ids are sequences of Unicode scalar values.
- Exceptions caught around background tasks, and cancellation in the middle of a fetch, which can leave a temporary file behind.
- Floating-point rounding of times: times are reals, the clock never goes back, and the limiter's configuration does not change during a run.
- Job ids that collide: they are assumed unique, as the uuid in them intends.
- Limiter.Stage2Limiter.Admit: `perHost` is determined through the log it agrees with, not written out as a map, because entries whose times have all expired may linger with any expired times.
- QueueWorker.SharedDirectory.ClaimPendingJobs: the order in which pending files are tried is arbitrary, while the source sorts them by name, because no property here depends on it.
- QueueWorker.SharedDirectory.Others: stands, as do `OthersOf` and `Quarantine.QuarantineDirectory.Others`, for any steps of other processes; callers know only what `OthersLeaveWorker`, `OthersLeaveClient` and `OthersLeaveFetch` prove of every such run.
- FakeTree.MoveAgainstCopy: compares `mv` with `cp` and `rm` on trees; where objects are shared, `CopyNode` and `MoveNode` give each result exactly, and no comparison is made.
- FakeFilesystem.FakeFilesystem.constructor: starts from an empty root; seeding with persona files is left out.
- `listdir`, `exists`, `is_dir` and `listdir_nodes`: direct uses of resolve and lookup.
- File objects are values: the source shares a file object between no two entries either, so aliasing arises for directories only. `size_override` is not kept.
- Quarantine.Place: from the digest to the returned result is one step, as no other task of the process runs in between; several worker processes sharing one quarantine directory are not modelled.
- Quarantine.Lower: ASCII only.
- The MD5 digest, the ELF flag tables and the architecture verdict: part of the arbitrary detector.
- Credential policy, connection limiter, heartbeat, log sanitising, transcripts, GeoIP and the rest of the dashboard: only easy members.
