# Humanize in Dafny

The parts of Humanize in which several parties share something they can spoil for one another, or in
which a text has to come back as what it was written from, modelled and proved.

- **A sign-in lent to another machine** (`Lending.dfy`, `Drive.dfy`, `Landings.dfy`). A refresh token spends the one
  before it, and a spent one presented revokes the account. Turns here share a directory lock, a turn
  away holds it alone and sends a copy. The world is the vendor, the files, the locks and every copy,
  those read and not yet put anywhere among them; each step of each turn may fail. The theorem names
  the failures that can lose an account, and shows that each of them can. Where sign-ins land over
  one another is a theorem of its own.
- **A process standing in for one elsewhere** (`ExecProxy.dfy`, `ExecProxyRuns.dfy`). Five threads,
  one outbox, borrowed descriptors with somebody or nobody reading them, and one callback, in every
  interleaving.
- **The desktop app's children and its updater** (`Children.dfy`, `Updater.dfy`, `UpdaterRuns.dfy`).
  A registry and a flag under one lock, with the owners of the processes as programs of their own;
  and a stage moved by a timer, a menu, a fetch, a prompt, the main thread's jobs and the exit.
- **Terminal recordings** (`Recording.dfy`; `Display.dfy`, `Repaint.dfy`, `Redraw.dfy`). Leaving out
  redraws that change nothing, over any deterministic terminal; and drawing a screen from nothing,
  over an interpreter of what a redraw sends, a character at a time. Where a recording is cut into
  frames is a theorem of its own.
- **Two lines read and written** (`AgentSpec.dfy`, `AnchorLine.dfy`). An agent as
  `[NAME=]CLI[@PROVIDER]/MODEL[:EFFORT]`, and a session as the options of `hmz internal anchor`.
- **Whole-file writes** (`Atomic.dfy`, `AtomicWrites.dfy`). Writers and readers of one path over names
  and files, in every interleaving, and the two ways of writing as the programs they are.
- **Fast forms of simple specifications** (`Tail.dfy`, `AddedClis.dfy`, `Launchers.dfy`, `Unique.dfy`).
  The last of what a server said, the added CLIs held between reads, keys looked for level by level,
  and the first free name.

`Maybe.dfy`, `Strings.dfy`, `Decimal.dfy`, `Paths.dfy` and `Sets.dfy` are what the others share.

A concurrent part is a state and an event for every step of every party, with what is nondeterministic
in the event's parameters; `Possible` says a sequence of events is a run, `After` where it leads, and an
invariant is proved of every step and so of every run. Beside it a class holds the fields the source
holds, its methods doing what the source's do. Those of a turn away, of the children's registry and of
whole-file writes keep the run they have made of the machine and are proved to add their own steps to
it; those of the proxy and of the updater compute the functions the machine's steps are made of, and
the others the functions the theorems are about. Every call that may fail takes its outcome as a
parameter.

## What came out otherwise than the source says

Each is proved: as a concrete case in which the claim fails, as the exact condition under which it
holds, or as both.

- Finishing a process that stands in for another waits for whoever reads what it writes: a write to a
  descriptor with no room that nobody has closed holds the output pump, abandoned or not, and nothing
  the other threads do ends that (`ExecProxyRuns.NeverStuck`, `ExecProxyRuns.BlockedStays`,
  `ExecProxyRuns.AbandonedHangs`).
- A refreshed sign-in is compared with what was sent in one step and written over it in another. No
  refresh can come between them, of whatever failed before; a writer that is no refresh can, and what it
  wrote is lost (`Lending.WritesOnlyOverSent`, `Lending.OverwritesExactly`,
  `Lending.OverwritesAnything`, `Lending.OverwritesOther`).
- The pattern that decides whether a frame may be cut accepts `ESC [` and `ESC ]` by themselves, so a
  frame can end inside a control sequence or a system command. Output is cut outside every sequence
  exactly where no frame but the last ends in one of those two, opened and not ended
  (`Recording.CutOutsideExactly`), which is what what is kept needs to show the same
  (`Recording.SeenTheSame`); one sequence written in two pieces is shown in part as text
  (`Recording.CutInsideOne`, `Recording.CutInsideShows`).
- A redraw rebuilds only well-formed rows: the right half of a wide character left behind by its left
  half shifts the rest of its row, a colour there is no code for comes back as the default, one in
  capital hex digits in small ones, and a cursor past the last column comes back on it
  (`Redraw.RedrawnAs`, `Redraw.HalfLeftBehind`, `Repaint.ColourKept`).
- The stdin thread is named only once both pumps are running, and it is waited for only so long: either
  way a descriptor can be read after it is closed (`ExecProxyRuns.ReadsClosedWhereUnjoined`). Once the
  output pump has told it to stop, that may happen exactly where the stdin pump is between its last look
  at that and its read (`ExecProxyRuns.ReadsClosedExactly`).
- A session may be told to project one directory twice, or one inside another. Then one turn, under its
  own lock and with nothing failing, has two copies of a sign-in refresh apart, and the account is lost:
  a second copy is one of the failures the theorems name (`Lending.EachFailureMatters`).
- It may also be told to project two directories to one place, as one variable or as two alike but for
  case. The later sign-in then lands over the earlier and is brought back over both originals: each file
  ends as its own account, whatever is refreshed, exactly where the last to land in a place is the same
  file for all that land there (`Landings.OwnExactly`).
- A secret with a carriage return in it is not read back as it was written, since a file's text is read
  with every line ending made a line feed (`AnchorLine.UniversalKeeps`).
- A redirect or a bring with an `=` in what is left of it is split there (`AnchorLine.PairBack`), and a
  default the environment sets is not written out even where the session says the default
  (`AnchorLine.LineReadsBack`).
- A settings file that could not be read once is held as one with no CLIs in it until it is written
  again, whatever becomes of its permissions meanwhile (`AddedClis.Added.Speaking`,
  `AddedClis.HeldUntilWritten`).
- A workspace that is `/` has nothing above a session's directory looked at, nor that directory itself
  (`Launchers.FoundQuiet`).

## Model

| member | source | states |
|---|---|---|
| `Lending.SpentOnlyByFailure` | src/hmz/coganchor/_lending.py:97-144 | In every interleaving of turns here and turns away, each landing any file in any number of places of its own, and reading a sign-in, putting it on the target, reading it back, comparing and writing each a step of its own, the vendor sees a spent token of a sign-in only where the run holds a named failure of that very sign-in, a turn sending it twice among them; otherwise the original holds the current token whenever no copy is out |
| `Lending.NeverRefreshedBoth` | src/hmz/coganchor/anchor.py:1440-1447 | With no such failure, the original is found exactly as it was sent when a refreshed copy of it is compared with it, so that the branch for a sign-in refreshed both here and there is never taken |
| `Lending.WritesOnlyOverSent` | src/hmz/coganchor/anchor.py:1440-1448 | In every run, whatever has failed of locks, turns and refreshes outside, a copy is written only over an original that still holds exactly what was sent, though comparing and writing are two steps anybody may come between -- as long as nothing that is no refresh writes that file |
| `Lending.OverwritesExactly` | src/hmz/coganchor/anchor.py:1440-1448 | From an original found as it was sent, through anything anybody but the turn does and its own CLI, the write is still to come, of the same token over the same file; and it is over what was sent exactly where nothing wrote to that file in between or the last that did wrote the same again |
| `Lending.OverwritesAnything` | src/hmz/coganchor/anchor.py:1440-1448 | In any world in which a copy is about to be written, whatever token a writer that is no refresh puts in its original first, the write is still to come and that token is gone |
| `Lending.OverwritesOther` | src/hmz/coganchor/anchor.py:1440-1448 | That is reached: from before anything runs, with nothing failing but one such writer between comparing and writing |
| `Lending.StaleInHand` | src/hmz/coganchor/anchor.py:1293-1305 | A sign-in read and not yet put on the target counts as a copy that is out: refreshed outside meanwhile, which is then a failure named of it, it has a run in which nothing else fails and the family is revoked |
| `Lending.EachFailureMatters` | src/hmz/coganchor/anchor.py:1288-1306 | None of the seven kinds of failure could be left off the list: each alone, from a sound start, has a run that ends with the family revoked -- that of one turn told to project a sign-in twice with nothing going wrong at all |
| `Lending.BlamedExactly` | src/hmz/coganchor/anchor.py:1223-1450 | And which steps those failures are, of which sign-ins: a directory that could not be locked, a second copy fetched by one turn, a turn cut off or killed over its copies, a refreshed copy not read or not written back, a refresh outside while one is away, and a write outside the locks; no other step is one |
| `Lending.RunKeepsSafe` | src/hmz/coganchor/anchor.py:1223-1245 | What every step keeps over whole runs: the locks exclude as they should, and a sign-in no failure is named of is not revoked, has no turn with two copies of it, and is current in its file or in the one copy that is out, from its being read here to its being written back |
| `Lending.AloneWithIt` | src/hmz/coganchor/_lending.py:116-128 | Whoever has a copy of a sign-in out holds its directory alone: nobody else is past taking its locks, or has a copy of it out |
| `Lending.OrderedKept` | src/hmz/coganchor/_lending.py:113-133 | No step lets an exclusive holder of a directory share it, and every step keeps what a turn is recorded to have sent, to be owed and to be able to refresh |
| `Drive.CleanedUp` | src/hmz/coganchor/anchor.py:974-986 | However a turn that got its locks goes, every copy recorded as lent is read back after it was sent and before the private directory is swept, a private directory made is swept, and letting the locks go comes last of all |
| `Drive.Turns.Drive` | src/hmz/coganchor/anchor.py:927-986 | A turn is refused exactly where some directory is held the other way, and then nothing has changed; it is taken, and its CLI started, exactly where none is and everything up to the start goes well -- the road, what is ready, the private directory, every file and the home; otherwise its steps are those of a turn cleaned up after, and what is read back is what had been lent when it stopped, in its order |
| `Drive.Turns.Borrowed` | src/hmz/coganchor/anchor.py:1240-1245 | A turn away is refused exactly where a directory of its files is busy, and then the world is as it was; otherwise it holds each that can be locked |
| `Drive.Turns.Lent` | src/hmz/coganchor/_lending.py:113-144 | Directories are locked one at a time: refused, with what was held let go, exactly where one that can be locked is busy, and otherwise all of those that can be locked are held |
| `Drive.Turns.Hold` | src/hmz/coganchor/_lending.py:114-143 | One directory is gone without where it cannot be locked, refused where it is held the other way, and otherwise held |
| `Drive.Turns.Projected` | src/hmz/coganchor/anchor.py:1288-1307 | Every credential file is read and sent in order, each to a place of its own and the same one as often as it comes up, until one cannot be read or does not land; exactly the sign-ins among those that landed are recorded as lent, each copy what its file then holds, and nothing else of the world changes |
| `Drive.Turns.Projects` | src/hmz/coganchor/anchor.py:1293-1305 | One file: a sign-in is read in one step and lands in the next, or is left on the target unrecorded, and what is no sign-in is only sent; either failure gives the turn up |
| `Drive.Turns.Prepared` | src/hmz/coganchor/anchor.py:938-969 | Up to the CLI being started: it comes to that exactly where every call before it succeeds; the private directory is made before anything is sent, and wherever that stops, the sign-ins among what had landed, in their order, are what there is to read back |
| `Drive.Turns.Readied` | src/hmz/coganchor/anchor.py:938-957 | Before any file is sent: exactly where the target is reached and ready, and makes the private directory that is asked for, it goes on, with that directory and nothing else changed |
| `Drive.Turns.Driven` | src/hmz/coganchor/anchor.py:971-973 | The CLI is started; while it is going it refreshes, of what it would, exactly the copies it was lent, in that order; it ends, or is left going where the turn is cut off |
| `Drive.Turns.BroughtBack` | src/hmz/coganchor/anchor.py:1416-1450 | Every lent copy is read back, in order, whatever comes of each, and what is on disk is what they leave one after another; no other file or turn changes |
| `Drive.OneBrought` | src/hmz/coganchor/anchor.py:1416-1450 | Of that: a file with one copy ends as it exactly where it was still as sent and the copy could be read and written |
| `Drive.OthersLeft` | src/hmz/coganchor/anchor.py:1416-1450 | And a file none of the copies is of is as it was |
| `Landings.OwnExactly` | src/hmz/coganchor/anchor.py:1288-1306 | Sign-ins projected to any places at all, one over another or not: whatever the CLI refreshes, every original holds its own account afterwards exactly where, for every file, the last to land where it did is that file |
| `Landings.AnothersBack` | src/hmz/coganchor/anchor.py:1416-1450 | With nothing refreshed, a file ends as another's account exactly where another's landed over some copy of it, and is untouched otherwise |
| `Landings.FirstBack` | src/hmz/coganchor/anchor.py:1416-1450 | Of copies that differ from what their original held, the first recorded is what that original ends as: those after it find it changed, and are left |
| `Landings.ApartIsOwn` | src/hmz/coganchor/anchor.py:1288-1306 | Landing each in a place of its own is enough for that |
| `Landings.Project` | src/hmz/coganchor/anchor.py:1288-1307 | The loop leaves in each place the last to land there, and records each file with what it held |
| `Landings.BringBack` | src/hmz/coganchor/anchor.py:1416-1450 | The loop leaves on disk what bringing back one after another does |
| `Drive.Turns.BringsBack` | src/hmz/coganchor/anchor.py:1416-1450 | One copy, by up to three steps -- read there, compared here, written here -- stopping where it was not read or not refreshed, and where the original has changed |
| `Drive.Turns.Unwound` | src/hmz/coganchor/anchor.py:974-986 | The way out reads back all that was lent, then sweeps a private directory if there is one, then lets go; only a CLI left going outlives it |
| `ExecProxy.Proxy.PumpOutput` | src/hmz/coganchor/execproxy.py:176-192 | Of the chunks queued before the first end marker, standard error is sent those said to be standard error and standard output every other, in order, each as far as its descriptor takes it; that marker and what was before it are gone from the outbox and nothing after it; then the stdin pump is told to stop, the descriptors are let go and the result is handed over once |
| `ExecProxy.Proxy.Deliver` | src/hmz/coganchor/execproxy.py:180-184 | A chunk said to be standard error goes there and any other to standard output, as far as the descriptor takes it, and nowhere where there is none |
| `ExecProxy.Proxy.Drain` | src/hmz/coganchor/execproxy.py:176-184 | The pump's loop: so it does with every chunk before the first end marker |
| `ExecProxyRuns.AgentTold` | src/hmz/coganchor/execproxy.py:54-59 | In every run that has finished, the agent is told what the one exit said in it comes to as a shell tells it -- a signal before a code, 127 or 126 of a command that could not be run, 1 where nothing was said -- or, only where the proxy was abandoned before it heard, 1 |
| `ExecProxy.Proxy.OnExit` | src/hmz/coganchor/execproxy.py:159-166 | What an exit said, or why the command could not be run with its message queued first, becomes the result, and one end marker is queued after it |
| `ExecProxy.Proxy.ReportFailure` | src/hmz/coganchor/execproxy.py:168-172 | The message is queued for standard error and the result is what a shell gives for a command not found or not to be run |
| `ExecProxy.Proxy.OnOutput` | src/hmz/coganchor/execproxy.py:146-157 | Output is queued behind everything queued before it |
| `ExecProxy.Proxy.Abandon` | src/hmz/coganchor/execproxy.py:137-142 | The pumps are told to stop and an end marker is queued, and the command is killed where there is one |
| `ExecProxy.Proxy.ForwardSignal` | src/hmz/coganchor/execproxy.py:126-135 | A signal is relayed at most once, and only where there is a command to relay it to |
| `ExecProxy.WriteAll` | src/hmz/coganchor/execproxy.py:266-276 | A chunk is written whole, or exactly as far as the descriptor takes it |
| `ExecProxyRuns.FinishesOnce` | src/hmz/coganchor/execproxy.py:101-192 | In every interleaving of the five threads the finish callback is called at most once, never where the start failed, and only with all that was said before the first end was, of standard error there and of anything else on standard output, written in its order, unless a write failed, and then a subsequence of it; nothing is written where there is no descriptor; where nobody abandoned it, what it is handed is what the one exit said; the descriptors are closed exactly once by then |
| `ExecProxyRuns.FinishesInTime` | src/hmz/coganchor/execproxy.py:176-192 | Once an end marker is queued the output pump finishes within a number of its own steps fixed then, and by then has called back once, whatever the others do; whether it has a step to take is `ExecProxyRuns.NeverStuck` |
| `ExecProxyRuns.NeverStuck` | src/hmz/coganchor/execproxy.py:179-192 | Until it has finished it has a step it can take exactly where it is not writing to a descriptor that has no room and has not failed: it waits for no thread, and for as long as it must for whoever reads |
| `ExecProxyRuns.BlockedStays` | src/hmz/coganchor/execproxy.py:266-276 | Writing to such a descriptor, it stays there and calls nothing back through any run at all in which nobody at the descriptor's other end does anything |
| `ExecProxyRuns.AbandonedHangs` | src/hmz/coganchor/execproxy.py:137-142 | However much room a descriptor has to begin with, some run leaves a proxy abandoned, told to stop and with its end marker queued that in no run from there calls back until somebody reads or goes |
| `ExecProxyRuns.NeverUsedOnceClosed` | src/hmz/coganchor/execproxy.py:194-232 | No write is ever made to a closed descriptor, and no read where the output pump had waited for the stdin pump |
| `ExecProxyRuns.ReadsClosedExactly` | src/hmz/coganchor/execproxy.py:186-232 | In every run, from the output pump's having told the others to stop on: some run from there reads a closed descriptor if and only if the stdin pump is then between its last look at that and its read |
| `ExecProxyRuns.ReadsClosedWhereUnjoined` | src/hmz/coganchor/execproxy.py:120-124 | That can come about in both ways the wait is not made: two runs from the start, one in which the output pump is through before `start` has named the stdin thread and one in which the timed join gives up, read a closed descriptor |
| `ExecProxyRuns.RunKeepsGood` | src/hmz/coganchor/execproxy.py:62-232 | What every step of every thread keeps: what was queued is what was taken with what is still queued, what was written with what is about to be is a subsequence of what was taken for it and the whole of it where no write failed |
| `ExecProxyRuns.StepsFewer` | src/hmz/coganchor/execproxy.py:176-192 | Every step of the output pump brings its end nearer, and no step of another puts it off |
| `Children.DropsOnlyReaped` | desktop/src-tauri/src/install.rs:435-460 | In every interleaving, an owner -- a question, an install, a server being started or one shared -- drops a child only once that child is reaped |
| `Children.StartsNoMore` | desktop/src-tauri/src/child.rs:57-82 | Once the app is quitting no process is started, whatever anybody does |
| `Children.QuitStopsAll` | desktop/src-tauri/src/child.rs:134-143 | When quitting returns every process ever started is reaped, and none is started after it |
| `Children.QuitReturnsInTime` | desktop/src-tauri/src/child.rs:87-104 | Quitting always has a step it can take and takes at most three for each child and one more |
| `Children.RunKeepsBoth` | desktop/src-tauri/src/server.rs:306-365 | What every step keeps: an owner through with its child has reaped it, and a process not reaped is in the registry or in what quitting drained from it |
| `Children.Registry.Quit` | desktop/src-tauri/src/child.rs:134-143 | It takes the steps of quitting: the flag is set and the registry emptied in one, what was in it is ended one child after another, and when it returns every process ever started is reaped; a second call does nothing |
| `Children.Registry.Spawn` | desktop/src-tauri/src/child.rs:57-82 | An owner begins and starts a process that is kept in the registry, or is refused and is through, with neither; it is refused once the app is quitting |
| `Children.Registry.End` | desktop/src-tauri/src/child.rs:87-104 | Ending a child takes the steps of whoever ends it -- quitting, its owner or the exit of the app: it has exited, or exits in time, or is timed out, killed and waited for |
| `Children.EndsReaped` | desktop/src-tauri/src/child.rs:87-104 | Whichever of those it is, and whoever takes them, they are steps that can be taken and leave the child reaped, whoever ended it past that, and everything else as it was |
| `Children.Registry.Drop` | desktop/src-tauri/src/child.rs:47-53 | A child dropped has been reaped, in every run the registry can have come to, and only it is taken out |
| `Children.Registry.Goes` | desktop/src-tauri/src/server.rs:306-365 | Any other step of an owner with a child, as the machine has it: of the processes it changes the child's alone, and nothing of the registry |
| `Children.Registry.Asks` | desktop/src-tauri/src/install.rs:435-460 | A question put to a program, as a program of those steps: it runs exactly where it could be started and the app was not quitting, and whether it answers in time or is killed its process is reaped and out of the registry at the end |
| `UpdaterRuns.OneFetchOnePrompt` | desktop/src-tauri/src/update.rs:355-381 | Before exit a fetch is under way exactly while checking, and a prompt is up or on its way exactly while offering -- at most one where a job could not be queued |
| `UpdaterRuns.NoneDiscardedNorTwice` | desktop/src-tauri/src/update.rs:439-524 | In every run no update held is discarded, neither where a look settles over the stage nor where a prompt takes it; none is handed to be installed twice, and each downloaded is held, about to be installed or handed over |
| `UpdaterRuns.InstalledByExit` | desktop/src-tauri/src/update.rs:528-549 | What was downloaded and is still held at exit is handed over there, all of it but what a prompt has taken to install at once |
| `UpdaterRuns.ShownAsItStands` | desktop/src-tauri/src/update.rs:169-201 | Before exit, once every job has been done, the progress window is up exactly where a look asked by hand or an install is under way and it could be opened when last it was to be, and the menu item is off exactly where such a look is; a job that could not be queued matters only until the next is done |
| `UpdaterRuns.LookDoes` | desktop/src-tauri/src/update.rs:100-110 | What asking for a look does at every stage, by the timer or by hand: a fetch begins from idle alone, only a hand's look asks again about an update deferred, and one under way becomes a hand's once a hand asks |
| `UpdaterRuns.RunKeeps` | desktop/src-tauri/src/update.rs:355-549 | What every step of the timer, the menu, the fetch, the prompt, the main thread and the exit keeps, every run keeps |
| `Updater.Keeper.CheckNow` | desktop/src-tauri/src/update.rs:355-381 | A look asked for starts a fetch from idle and nowhere else, whoever asks; by hand it asks again of an update deferred and makes one under way its own; every other stage stays as it is, and nothing held is lost |
| `Updater.Keeper.Settle` | desktop/src-tauri/src/update.rs:439-471 | What a look found takes the stage, and is asked about only where it is an update; whether the look was by hand is read off the stage before |
| `Updater.Keeper.Answer` | desktop/src-tauri/src/update.rs:474-524 | A prompt answered keeps an offered update, deferred or, on Windows, to be installed at exit, or hands it over to be installed at once: one of those and never two; at any other stage it leaves the updater idle |
| `Updater.Keeper.OnExit` | desktop/src-tauri/src/update.rs:528-549 | At exit what an offer, a deferral or an install on Windows holds is handed over, and of every other stage nothing; the stage is idle |
| `Recording.ReplaysTheSame` | docs/tapes/cast.py:306-339 | For any deterministic terminal that is outside every escape sequence between frames, and events in time order, replaying what is kept up to any moment gives the very state replaying every frame up to it gives |
| `Recording.TextKept` | docs/tapes/cast.py:319-327 | Putting pieces together into frames loses no text and keeps its order |
| `Recording.EachChanges` | docs/tapes/cast.py:329-336 | Each frame kept changes what is seen, over all those kept before it |
| `Recording.LastsAsLong` | docs/tapes/cast.py:337-339 | What is kept ends at the last moment recorded, and is nothing only where nothing was: an empty event is put after the frames that change what is seen only where none of them is as late |
| `Recording.Change` | docs/tapes/cast.py:319-339 | The two passes, as they are made, keep of the frames exactly those that change what is seen, and the last moment |
| `Recording.Frame` | docs/tapes/cast.py:319-327 | The loop that puts pieces on the frame before them or begins another makes the frames of all of them |
| `Recording.FramesAre` | docs/tapes/cast.py:284-327 | What those are: the pieces cut into runs, in order and none left out, each a frame at its first piece's moment with all their text; and a piece begins a run exactly where it comes three hundredths of a second or more after the first of the run before it and the text of that ends in no sequence the pattern calls unfinished |
| `Recording.FrameEndsInside` | docs/tapes/cast.py:284-288 | A frame the pattern takes to end outside every escape sequence ends inside one exactly where its last ESC opens a control sequence or a system command that has not ended |
| `Recording.WholeIsShort` | docs/tapes/cast.py:288 | Every text the pattern accepts it accepts by its third alternative, which `[` and `]` satisfy: the other two add nothing |
| `Recording.CutOutsideExactly` | docs/tapes/cast.py:319-327 | Of any output at all: at every place it is cut into frames the stream is outside every escape sequence exactly where no frame but the last ends in a control sequence or a system command that has not ended |
| `Recording.SeenTheSame` | docs/tapes/cast.py:306-339 | For any deterministic terminal that follows the stream's escape sequences, and output in time order of which no frame but the last ends so, what is kept shows at every moment just what all of it shows |
| `Recording.CutInsideOne` | docs/tapes/cast.py:319-327 | A control sequence written in two pieces a second apart is two frames, of which the first passes the pattern and ends inside it |
| `Recording.CutInsideShows` | docs/tapes/cast.py:329-336 | And played on a terminal that shows all but escape sequences, what is kept of those two shows the end of the sequence as text, which playing both does not |
| `Redraw.RedrawnAs` | docs/tapes/cast.py:147-183 | Whatever was on a terminal, a redraw leaves every cell of the screen it was drawn from -- text, colours and attributes -- exactly where every row is well-formed; the cursor is back exactly where it was not past the last column, and shown or not as it was; the alternate screen is on where it was on on either, since a redraw never turns it off; nothing is selected and no escape sequence is open |
| `Redraw.RowDrawn` | docs/tapes/cast.py:150-179 | A well-formed row is drawn cell for cell although what is drawn like its left neighbour says nothing and a right half is skipped |
| `Redraw.RowsDrawn` | docs/tapes/cast.py:150-179 | Rows drawn one after another on an empty screen come out as they were exactly where each is well-formed: what does not fit, or comes out shifted, is never put right by a row after it |
| `Redraw.HalfLeftBehind` | docs/tapes/cast.py:156-157 | The right half of a wide character whose left half was drawn over is not drawn: what stands right of it comes out in its column, and the column it stood in comes out blank |
| `Redraw.SelectionSent` | docs/tapes/cast.py:158-178 | What is said of a cell selects its colours and attributes whatever was selected before, and saying nothing leaves the same ones selected |
| `Repaint.ColourKept` | docs/tapes/cast.py:61-74 | The colour a terminal reads back is the colour there was exactly where that is the default, one of the sixteen named or three pairs of small hex digits |
| `Repaint.ColourSelected` | docs/tapes/cast.py:61-74 | A colour of three numbers is read whole, whatever other code any of them looks like, and whatever is said after it |
| `Repaint.SixteenNumbers` | docs/tapes/cast.py:49 | The number each of the sixteen named colours is selected by, as foreground and as background, and that the default is said by none |
| `Repaint.PenSelected` | docs/tapes/cast.py:158-178 | The whole of what is said of a cell, read as numbers by a terminal with a table of its own, gives its two colours as they can be said and its five attributes |
| `Repaint.Repaint` | docs/tapes/cast.py:147-183 | The text put together a cell at a time is the text whose effect the theorems are about |
| `Repaint.OneScreen` | docs/tapes/cast.py:147-183 | One small screen redrawn, letter for letter: two cells alike in a named colour, one of three numbers and every attribute, a plain one, and a hidden cursor |
| `Display.SequenceObeyed` | docs/tapes/cast.py:149-182 | A control sequence sent a character at a time is obeyed with exactly its parameters |
| `Display.TextPlaced` | docs/tapes/cast.py:179 | A character of one column or two with its marks is drawn whole in one place, on the next line where it stands past the last column |
| `AgentSpec.RoundTrips` | src/hmz/coganchor/backends.py:5271-5332 | Whatever agent a spec is read as, writing it out and reading that gives the same place, backend, model, effort and account |
| `AgentSpec.ReadsBack` | src/hmz/coganchor/backends.py:5271-5332 | So does any agent at all whose parts are clear of the marks between them, with its backend by any of its spellings and a model holding `/`, `:` or a word after one |
| `AgentSpec.ReadSound` | src/hmz/coganchor/backends.py:5292-5332 | Everything a spec can be read as is such an agent: a spec that names no place holds no `=` at all |
| `AgentSpec.EffortParted` | src/hmz/coganchor/spelling.py:23-42 | An effort written after a model is the effort read, whatever the model ends in |
| `AgentSpec.LeftOff` | src/hmz/coganchor/backends.py:535-558 | Why no rung is written as a word: left off, it is read back exactly where the model does not itself end in what would be read as an effort |
| `AgentSpec.ReadsAs` | src/hmz/coganchor/backends.py:5292-5332 | What any spec is read as, by its parts: refused for a place that is no identifier, then for a comma after it, then for a blank account, then where no backend answers to its CLI or it names no model; otherwise the first backend that does, every part with the spaces off its ends, and no rung where it says none, nothing or `auto` |
| `AgentSpec.CutSomehow` | src/hmz/coganchor/backends.py:5292-5316 | And any spec at all has such parts: a place before its first `=`, an account after an `@` before its first `/`, an effort after the last `:` where that is spelled as one |
| `AgentSpec.NamedFirst` | src/hmz/coganchor/backends.py:4906-4915 | A name stands for the first backend that is called it, and for none exactly where none is |
| `AnchorLine.LineReadsBack` | src/hmz/coganchor/argv.py:228-347 | For every accepted session and any command after it, the options written and read again give back the session and the command exactly where the environment says nothing the session leaves unsaid, no redirect or bring is named with an `=`, and the secret holds no carriage return |
| `AnchorLine.LineParsed` | src/hmz/coganchor/argv.py:289-347 | Options are read in any kind, repeated ones in their order, up to the command, which comes back untouched |
| `AnchorLine.PairBack` | src/hmz/coganchor/argv.py:349-357 | A pair reads back exactly where what is left of it holds no `=` |
| `AnchorLine.UniversalKeeps` | src/hmz/coganchor/argv.py:402-406 | A secret is read from its file as it was written exactly where it holds no carriage return |
| `AnchorLine.WrittenSet` | src/hmz/coganchor/argv.py:306-337 | A value joined to its flag is read as that value of that flag, whatever is in it |
| `AnchorLine.WholeLine` | src/hmz/coganchor/argv.py:289-347 | The words of a line in their order, each under its own flag, for a session every one of whose settings is said once |
| `AnchorLine.RefusedExactly` | src/hmz/coganchor/anchor.py:276-377 | What a session is refused for, case by case, and nothing else |
| `AnchorLine.BroughtExactly` | src/hmz/coganchor/anchor.py:333-345 | What may be brought back: a path under a projected name and a slash, that is not empty, does not begin with another slash and has no piece that goes up, brought to an absolute path |
| `AnchorLine.Machine.Line` | src/hmz/coganchor/argv.py:289-347 | The options as they are appended, with the secret named by its file, which is written where it is not there yet and left alone where it is |
| `AnchorLine.Machine.Kept` | src/hmz/coganchor/argv.py:360-385 | A secret is in the file named by its digest, which holds it where every such file held its own, and no other file is changed; the file is staged under another name, which is gone after |
| `AnchorLine.Machine.Forget` | src/hmz/coganchor/argv.py:388-390 | A secret forgotten has no file, so that the next line to name it writes it anew; every secret with another digest is kept, or not, with what it was, and no other file changes |
| `Atomic.ReadsWhatWasThere` | src/hmz/coganchor/atomic.py:1-11 | Whatever every writer does meanwhile and whatever fails, somebody who opens the path reads, from its start, what was there when it was opened and nothing else |
| `Atomic.ChangesWhole` | src/hmz/coganchor/atomic.py:49-77 | What is at the path changes only as one writer's whole content is moved or linked there, to exactly that content, or as it is taken away |
| `Atomic.ReturnedWhole` | src/hmz/coganchor/atomic.py:27-77 | A writer that has returned has had all it was given at the path, with the permissions it was given; a replacement given none has those of the file it found there as it looked, and those a new file gets where it found none |
| `Atomic.AlwaysWhole` | src/hmz/coganchor/atomic.py:27-77 | In every reachable state what is at the path is what was there at first or all that some writer said |
| `Atomic.OneMakes` | src/hmz/coganchor/atomic.py:56-77 | Of any number making a file that is not there, with nobody replacing or removing it: once any has come to link its own exactly one has made it, all of what is there is what that one said, and no other returns |
| `Atomic.NothingLeft` | src/hmz/coganchor/atomic.py:80-110 | A writer that returned or raised has nothing of its own beside the path, unless taking it away failed or it was killed |
| `Atomic.ModeFirst` | src/hmz/coganchor/atomic.py:95-98 | A file that is to have permissions has them before it holds a byte, and has them at the path |
| `Atomic.SoundKept` | src/hmz/coganchor/atomic.py:27-134 | What every step of every writer and reader keeps: a writer's file is its own under a name nobody else has, holds what it has written so far, and is never touched once it has been at the path |
| `Atomic.PlacedUntouched` | src/hmz/coganchor/atomic.py:49-77 | No step changes a file that has been at the path |
| `AtomicWrites.Folder.Writes` | src/hmz/coganchor/atomic.py:27-53 | With anything the others do between its steps, a replacement returns exactly where none of its steps fails, and then all it was given has been at the path, with the permissions it was given, those of what was there as it looked, or those of a new file; otherwise it raises, with its file taken away where that can be done |
| `AtomicWrites.Folder.Creates` | src/hmz/coganchor/atomic.py:56-77 | A creation returns only where its own link made the file, whole and with the permissions it was given or a new file's, and its file beside it is gone; it raises otherwise |
| `AtomicWrites.Folder.Write` | src/hmz/coganchor/atomic.py:80-110 | The content is beside the path whole, written a piece at a time after its permissions are set, or what was made is taken away |
| `AtomicWrites.Folder.Fill` | src/hmz/coganchor/atomic.py:95-106 | Permissions are set first, then every piece is written in turn, and only all of it with none failing is enough |
| `AtomicWrites.Folder.Unlink` | src/hmz/coganchor/atomic.py:107-109 | What was made is taken away where it can be, and the call that could not raises |
| `AtomicWrites.Folder.Open` | src/hmz/coganchor/atomic.py:113-134 | Trying names ends, however many the others take meanwhile, with a new file under a name nothing had |
| `Tail.LongestSuffix` | desktop/src-tauri/src/server.rs:373-384 | What is kept is the longest suffix that begins on a character boundary and is within the limit, is valid UTF-8, and is at most three bytes short of the limit once there is more than that |
| `Tail.LastOfLast` | desktop/src-tauri/src/server.rs:374-384 | Keeping the last of what was kept and of more is keeping the last of it all: what was let go of earlier is never missed |
| `Tail.Log.Keep` | desktop/src-tauri/src/server.rs:374-384 | After every line, what is kept is the last 16384 bytes of everything said, less what would cut a character, shortened in place |
| `Tail.CutWhole` | desktop/src-tauri/src/server.rs:378-382 | Valid UTF-8 cut at a boundary is two valid strings |
| `AddedClis.Added.Speaking` | src/hmz/coganchor/backends.py:4535-4582 | What is held is answered only while the file is as it was, and is then what a fresh read would say, even where the file changed between being looked at and being read -- except that a read that failed is held as nothing until the file is next written |
| `AddedClis.Added.Declares` | src/hmz/coganchor/backends.py:4585-4602 | What an added CLI needs is what its entry says in the file as it is when it has been looked at, even where the file changed meanwhile, and nothing for one that is not there, where there is no file, or while a failed read is held |
| `AddedClis.HeldUntilWritten` | src/hmz/coganchor/backends.py:4553-4563 | A file that fails to be read once and can be read from then on is found to hold no CLIs both times, and those in it once it is written again as it was |
| `AddedClis.RemembersOne` | src/hmz/coganchor/backends.py:4605-4642 | Writing one down changes only its entry: it is started by what was given, needs what it needed, and every other CLI and setting is as it was |
| `AddedClis.ForgetsOne` | src/hmz/coganchor/backends.py:4605-4642 | Taking one away takes away only it |
| `AddedClis.AddedAndTaken` | src/hmz/coganchor/backends.py:4645-4708 | One added and taken away again leaves every CLI as it was |
| `AddedClis.SpokenIs` | src/hmz/coganchor/backends.py:4553-4576 | Which CLIs a file adds, and how each is started: an entry under `clis` that is a list that is not empty, or a table with one under `command`, by the text of its items |
| `AddedClis.NeedsAre` | src/hmz/coganchor/backends.py:4528-4580 | And what each needs: the lists under `hosts` and `state` of an entry that is a table, without the blank, and nothing where they are no lists |
| `AddedClis.NotBlankIs` | src/hmz/coganchor/backends.py:4528-4532 | Of a list as text, exactly what is more than spaces is left, in its order |
| `AddedClis.Added.Remember` | src/hmz/coganchor/backends.py:4645-4691 | Which of its refusals a CLI gets, in their order, and otherwise that it is called what it runs and written down, exactly where the file can be read and written; nothing is written where it is not |
| `AddedClis.Added.Forget` | src/hmz/coganchor/backends.py:4694-4708 | Whether there was one to take away, exactly, or that the file could not be read or written; and that nothing else changed |
| `AddedClis.Added.Write` | src/hmz/coganchor/settings.py:77-113 | The change is made to what the file holds now, a file that cannot be read is never written over, and no other file is |
| `Launchers.Holds` | src/hmz/coganchor/crossing.py:232-247 | Found a level at a time, a key is said exactly where some way down the tree, a part of the key a step and a star any value or item, comes to something said |
| `Launchers.SaysBelow` | src/hmz/coganchor/crossing.py:235-246 | What says something at a key does so through exactly the values its first part names |
| `Launchers.Held` | src/hmz/coganchor/crossing.py:60-96 | What a directory's files say, in order, which is nothing exactly where no file is there and starts something, or is there and cannot be read or parsed |
| `Launchers.OfIs` | src/hmz/coganchor/crossing.py:79-95 | What is found of one file: that it cannot be read or parsed, all of it where it has no keys, or just the keys it says something at |
| `Launchers.KeysFound` | src/hmz/coganchor/crossing.py:93-95 | Each key that says something is named, in the order they are written down |
| `Launchers.Upward` | src/hmz/coganchor/crossing.py:198-207 | The walk up ends, and is the chain of parents from where a session works to the workspace, or nothing outside it |
| `Launchers.ChainIs` | src/hmz/coganchor/crossing.py:198-207 | That chain goes through exactly the directories that hold where a session works and are within the workspace |
| `Launchers.ChainClimbs` | src/hmz/coganchor/crossing.py:202-207 | It begins where a session works and ends at the workspace, and each directory of it is one name above the one before it, so that none comes twice |
| `Launchers.RootIsNotWalked` | src/hmz/coganchor/crossing.py:200-201 | A workspace that is `/` is walked up to only from itself |
| `Launchers.FoundQuiet` | src/hmz/coganchor/crossing.py:99-166 | A project is found to start nothing exactly where no directory it is read in does; under a workspace that is `/`, only the root is ever read, and nothing of a session working below it |
| `Launchers.Found` | src/hmz/coganchor/crossing.py:151-166 | What is found is what each directory of the walk says, the deepest first |
| `Launchers.FoundThen` | src/hmz/coganchor/crossing.py:151-166 | One directory more is found after all those before it |
| `Unique.Unique` | desktop/src-tauri/src/lib.rs:350-366 | The loop ends within as many names as are taken, with the first of `name`, `stem (1)ext`, `stem (2)ext` and on that nothing there or going has |
| `Unique.TriedOnce` | desktop/src-tauri/src/lib.rs:359-364 | No name is tried twice |
| `Unique.TriedNumbered` | desktop/src-tauri/src/lib.rs:355-365 | A name is numbered before its last dot and what comes after it |
| `Unique.TriedPlain` | desktop/src-tauri/src/lib.rs:355-365 | One with no dot but where it begins is numbered at its end |
| `Unique.KeptNamed` | desktop/src-tauri/src/lib.rs:351-354 | The name kept is the last thing a path names, past slashes and single dots; `download` where that is the directory above |
| `Unique.KeptNothing` | desktop/src-tauri/src/lib.rs:351-354 | And `download` where a path names nothing |

## Left out

- The transport, the remote client, the supervisor, the shadow, homes and fences: calls into them succeed or fail, and are otherwise not part of this model. So are the virtual home's own steps inside `drive`, which come before the CLI starts and after what was lent is read back.
- Which files are sign-ins that refresh themselves: the scan that finds them is a fact of the turn. One that becomes a sign-in between the scan and its copy is not modelled.
- Whether what was read back looks like a sign-in: `ReadThere` is told whether the copy was read back whole. An original that cannot be read to be compared is one that cannot be written over.
- Drive.Turns.BroughtBack: nobody else steps between a turn's own steps here, so that what a file ends as is that of a turn not interrupted. What an interruption may change of it is in `Lending`, where anybody may step between any two: `WritesOnlyOverSent` and `OverwritesExactly`.
- Drive.Turns.Drive: neither does anybody while it takes its locks, for the same reason; `Lending` has turns asking for theirs in any order. No two of its files land in one place, as in `Drive.Turns.Projected`.
- Drive.Turns.Projected: no two files land in one place. What comes of two that do is in `Landings`, without the vendor, and a turn of `Lending` has each copy in a place of its own.
- Drive.Turns.Prepared: as `Drive.Turns.Projected`, no two files land in one place.
- ExecProxy.Proxy.PumpOutput: everything it takes is queued before it begins, and it does not wait for the stdin pump; what may come between its steps, and that wait, are in the machine of `ExecProxyRuns`.
- Clocks, timeouts and polling: a wait with a limit may end either way. How long a limit is, and the rounding of a recording's moments, are not modelled; moments are real numbers.
- Signals, descriptors and threads of a real kernel: `flock`, the queue, the event, a rename and a link each act in one step. A refresh of a file where it is reads and rewrites it in one step: the turns here are one holder of it, as the source has them.
- A wait or a kill that itself fails: `child.wait()` and `child.kill()` are taken to work, and a child's output pipes to be there where it was started with them.
- Windows: killing what `wsl.exe` runs, and questions put to a login shell, start processes outside the registry.
- The text the updater's window shows while a look or an install goes on, its downloads, and which release it takes.
- Blinking, which a redraw does not draw; the saved cursor and the main screen behind the alternate one. A cell's text is a character of one column or two with marks of none, and how wide each is is a parameter. What a terminal's copy of a screen does with the bytes it is fed is not part of this model.
- A mark drawn after a character in the last column joins it, as most terminals have it; some start a new line first. A character of two columns that comes in the last column stays there, as in the screen the recorder keeps; common terminals wrap it to the next line. Which of the two it is decides what counts as a well-formed row.
- Options of `argparse` the line is never written with: a value in a word of its own, a shortened flag, `--`. A command whose first word begins with `-` is not modelled, though some such words would be read as one.
- How a home and a fence are written as one word each: that each is read back as it was written is a hypothesis of `AnchorLine.LineReadsBack`.
- The targets a session may name, and what makes a fence levelled or online: facts given to what a session accepts.
- Digests of secrets that collide: a secret's file is taken to hold that secret where it is there. A secret that is only partly written, or that cannot be written as UTF-8, is not modelled.
- The order of a settings table's entries and the kinds of its scalars, which are text here. Two writers of one settings file that could not lock it are not modelled; each write is taken to give its file a moment and a size it has not had together before.
- A settings home that moves between being looked at and being read.
- A path that begins with two slashes, which `os.path.abspath` keeps: the walk up from one to `/` would not end.
- Reading a launcher file's bytes as TOML, YAML or JSON5: a parser is given, and says nothing of a file it cannot parse. The name a directory is reported by, relative to the workspace, is the directory itself here.
- A file made at a path after `unique` has looked at it.
- Names tried beside a path that come up twice: sixteen random hex digits are taken never to.
- Letters beyond ASCII in an identifier: which they are is a parameter; none is a space.
- The tables of backends, their sign-ins and clouds, the small scanners and choices of the updater, the installer and the server, and the user interface: each is read off one function's body.
