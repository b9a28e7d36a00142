# nextcloud-calendar-discord, modelled in Dafny

The program reads the calendars listed in its configuration from a Nextcloud
server over WebDAV. Every ten minutes it arms one one-shot job per upcoming
event. Each job posts "Calendar bot <calendar>" / "Event: <summary>" to the
calendar's Discord webhook when the event starts. This project models the
deterministic part of `cmd/main.go`:

- `parseCalendars` (module `Config`). It pairs `name|key` entries with
  `key|url` webhook entries. Go's `strings.Split` is modelled in `Strings`.
- `readEventsFromNextCloud` (module `Reader`). The WebDAV server and the
  iCalendar parser are replaced by a `Store` value. The store holds the
  connection error, if any. It maps each listable directory to its files in
  listing order. Each file is either unreadable or the list of events parsed
  from it. The clock is one `now` parameter.
- the message that `onEvent` builds (module `Notify`).
- the job registry that the refresh goroutine uses (class
  `Scheduling.Scheduler`: `NewJob`, `Start`, `Jobs`, `RemoveJob`).
- one pass of the refresh goroutine, and the loop over passes (module
  `Refresh`).

Each loop of the source is a method with loop invariants. Each method is
proved against a specification function (`CalendarsFrom`, `Fetch`, `Plan`,
`CyclePlan`). Lemmas state what those functions mean.

Three behaviours of this revision are worth stating:
- No file is skipped by its last-modified time. There is no recency window.
- A failed connection is only printed. The pass then creates a new scheduler
  and arms no job (cmd/main.go:170-177). It does not keep the previous jobs,
  and those were already removed after the previous sleep.
- Each pass creates a new scheduler (cmd/main.go:174). After the sleep it
  removes every job (cmd/main.go:203-205).

## Model

| member | source | states |
|---|---|---|
| Strings.Split | cmd/main.go:125-126 | `strings.Split` on one character: at least one piece, no piece contains the separator, and joining the pieces with the separator gives back the input |
| Strings.SplitJoin | cmd/main.go:130 | splitting text made of separator-free fields joined by the separator gives back exactly those fields |
| Config.ParseCalendars | cmd/main.go:124-156 | the loop's result is `CalendarsFrom` of the two comma-split lists; there are at most as many calendars as comma-separated entries; every calendar has a non-empty webhook and a name with no vertical bar |
| Config.CalendarsFromMembers | cmd/main.go:128-153 | a calendar is in the result iff some entry splits on the vertical bar into exactly two fields, the webhook found for its key (second field) is non-empty, and the calendar is that entry's first field with that webhook |
| Config.NoPairNoWebhook | cmd/main.go:134-147 | with no well-formed webhook pair for the key, the webhook is "", so the entry is dropped |
| Config.LastPairWins | cmd/main.go:136-145 | the last well-formed pair whose key matches decides the webhook, even when its URL is empty and an earlier pair's URL is not |
| Config.CalendarsFromAppend | cmd/main.go:128-154 | entry order is kept: the calendars of `a + b` are those of `a` followed by those of `b` |
| Config.CalendarsFromShape | cmd/main.go:127-155 | at most one calendar per entry; all webhooks are non-empty; a calendar is in the result iff some entry yields it |
| Config.TwoCalendarsExample | cmd/main.go:124-156 | the entries work/k1 and home/k2 with webhooks k1→a and k2→b give `[work→a, home→b]`; replacing `k1` by an unpaired `k3` drops `work` and keeps `home` |
| Reader.KeepUpcoming | cmd/main.go:99-106 | the filter loop returns `UpcomingEvents`; an event is kept iff it is in the input, has a start, and that start is not before `now` |
| Reader.UpcomingEventsMeaning | cmd/main.go:99-106 | filtering keeps exactly the events whose start is present and not before `now`, and never adds events |
| Reader.UpcomingEventsAppend | cmd/main.go:100-106 | filtering keeps the events' order |
| Reader.FilesEventsAppend | cmd/main.go:87-119 | a calendar's events are the filtered events of its files, in listing order, file after file |
| Reader.UnreadableFileSkipped | cmd/main.go:89-117 | a file whose read fails contributes nothing and does not stop the files after it |
| Reader.FilesEventsUpcoming | cmd/main.go:87-118 | every event a calendar contributes has a start not before `now` and comes from one of its readable files |
| Reader.FetchShape | cmd/main.go:68-122 | a connection failure gives that error and no batches; otherwise one batch per calendar, in order, batch i for calendar i, all events upcoming, and an empty batch when the calendar's directory cannot be listed |
| Reader.ReadEvents | cmd/main.go:68-122 | the nested loops return `Fetch`: an error iff connecting fails, otherwise one batch per calendar with only upcoming events |
| Notify.OnEvent | cmd/main.go:58-61 | the message for a fired job: sent to the calendar's webhook, with username "Calendar bot " followed by the calendar name and content "Event: " followed by the event's summary |
| Notify.OnEventInjective | cmd/main.go:60-61 | equal messages come from the same calendar and the same summary |
| Scheduling.WithoutMeaning | cmd/main.go:204 | removing a handle drops exactly the jobs with that handle, keeps the rest in order, and keeps handles ascending |
| Scheduling.Scheduler.constructor | cmd/main.go:174 | a new scheduler is stopped and holds no job |
| Scheduling.Scheduler.NewJob | cmd/main.go:181-190 | appends one job at the given time with the given task, under a handle above every earlier one |
| Scheduling.Scheduler.Start | cmd/main.go:199 | marks the scheduler started and leaves its jobs unchanged |
| Scheduling.Scheduler.Jobs | cmd/main.go:203 | lists the armed jobs |
| Scheduling.Scheduler.RemoveJob | cmd/main.go:204 | the remaining jobs are the old ones without the given handle |
| Refresh.PlanAppend | cmd/main.go:179-198 | jobs are armed batch after batch: the plan of `a + b` is the plan of `a` followed by the plan of `b` |
| Refresh.PlanMeaning | cmd/main.go:179-198 | exactly one job per event over all batches; each job fires at its event's start and carries that event and its batch's calendar |
| Refresh.CyclePlanJobs | cmd/main.go:170-198 | a failed fetch arms no job; every armed job fires at its event's start, not before `now`, for a configured calendar |
| Refresh.ArmAll | cmd/main.go:179-198 | the scheduler's entries become the old entries followed by `Plan(batches)`; the earlier jobs are unchanged and the new handles are fresh |
| Refresh.RemoveAll | cmd/main.go:203-205 | removing every listed job leaves the scheduler empty |
| Refresh.ArmCycle | cmd/main.go:170-199 | after fetching, creating a scheduler, arming and starting it, the fresh, started scheduler holds exactly the jobs of `CyclePlan` (none when the fetch fails) |
| Refresh.RefreshCycle | cmd/main.go:169-206 | a pass reports the jobs its scheduler held while it slept, which are exactly `CyclePlan`, and after the removal loop the scheduler holds no job |
| Refresh.Run | cmd/main.go:168-207 | in a run of passes, pass c arms exactly the plan of its own server state and `now` |

## Left out

- WebDAV client calls (`NewClient`, `Connect`, `ReadDir`, `Read`): the server is an input value. `filepath.Join` is also left out, so each listed file is its read outcome and has no name.
- The gocal parser and its window from `now` to `now` + 360 days: each readable file gives its parsed events directly.
- `discordwebhook.SendMessage` (a network call): the model stops at the message `OnEvent` builds.
- gocron's timed firing, goroutines and `Shutdown`: the scheduler is only its list of jobs. The schedulers of earlier passes are never shut down, and that is not modelled.
- gocron's `NewJob` error path (cmd/main.go:191-194), for example a start already in the past when the job is armed: in the model every event's job is armed.
- The order in which gocron's `Jobs` lists jobs is not modelled. The model lists them in arming order. `RemoveAll` is proved without relying on that order.
- Repeated `time.Now()` calls: one `now` per pass. The ten-minute sleep, `waitOnShutdown`, the signal handling, the five-second timeout and the unsynchronised `running` flag are left out. `Run` takes the finite list of passes made before the stop.
- The error printing (`printErr`, `fmt.Println`) and stack traces.
- The aliasing of the loop variables `c` and `ce` through `&c`/`&ce`: payloads are captured by value.
- The panic when `gocron.NewScheduler` fails (cmd/main.go:175-177): creating a scheduler always succeeds in the model.
