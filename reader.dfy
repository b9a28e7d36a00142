/** Reading one cycle's upcoming events from the calendar server
    (`readEventsFromNextCloud`), with the WebDAV client and the iCalendar
    parser given as data. */
module Reader {
  import opened Wrappers
  import opened Config

  /** A parsed calendar event: its summary and its start, if the parser found
      one. A start is an abstract timestamp at the resolution of Go's
      `time.Time`, compared as the source compares instants. */
  datatype Event = Event(summary: string, start: Option<int>)

  /** What reading one listed file gives: a read failure, or the events the
      parser found in its contents. */
  datatype File = Unreadable | Readable(events: seq<Event>)

  /** The calendar server as the client sees it in one cycle: whether
      connecting fails (with the error), and for each directory path that can
      be listed, its files in listing order. A path missing from `dirs` is a
      listing failure. */
  datatype Store = Store(connectError: Option<string>, dirs: map<string, seq<File>>)

  /** One calendar's events for this cycle. */
  datatype Batch = Batch(events: seq<Event>, calendar: Calendar)

  /** The directory the calendar's files are listed from. */
  function CalendarPath(c: Calendar): string
  {
    "/" + c.name
  }

  /** An event is kept when it has a start that is not before `now`. */
  predicate Upcoming(e: Event, now: int)
  {
    e.start.Some? && e.start.value >= now
  }

  /** The upcoming events of `events`, in their order. */
  function UpcomingEvents(events: seq<Event>, now: int): (kept: seq<Event>)
  {
    if events == [] then []
    else
      var last := events[|events| - 1];
      UpcomingEvents(events[..|events| - 1], now) + (if Upcoming(last, now) then [last] else [])
  }

  /** The upcoming events of the readable files, file after file. */
  function FilesEvents(files: seq<File>, now: int): (events: seq<Event>)
  {
    if files == [] then []
    else
      var last := files[|files| - 1];
      FilesEvents(files[..|files| - 1], now)
        + (if last.Readable? then UpcomingEvents(last.events, now) else [])
  }

  /** The events a calendar contributes: none when its directory cannot be listed. */
  function DirEvents(store: Store, path: string, now: int): (events: seq<Event>)
  {
    if path in store.dirs then FilesEvents(store.dirs[path], now) else []
  }

  /** The result of one fetch: the connection error, or one batch per calendar. */
  function Fetch(store: Store, calendars: seq<Calendar>, now: int): (r: Result<seq<Batch>, string>)
  {
    if store.connectError.Some? then Failure(store.connectError.value)
    else Success(seq(|calendars|, i requires 0 <= i < |calendars| =>
      Batch(DirEvents(store, CalendarPath(calendars[i]), now), calendars[i])))
  }

  /** Every event of every batch has a start that is not before `now`. */
  predicate AllUpcoming(batches: seq<Batch>, now: int)
  {
    forall i, k :: 0 <= i < |batches| && 0 <= k < |batches[i].events| ==>
      Upcoming(batches[i].events[k], now)
  }

  /** Filtering keeps exactly the upcoming events and keeps their order. */
  lemma {:induction false} UpcomingEventsMeaning(events: seq<Event>, now: int)
    ensures forall e :: e in UpcomingEvents(events, now) <==> e in events && Upcoming(e, now)
    ensures |UpcomingEvents(events, now)| <= |events|
  {
    if events != [] {
      var init := events[..|events| - 1];
      UpcomingEventsMeaning(init, now);
      assert events == init + [events[|events| - 1]];
    }
  }

  /** Filtering distributes over concatenation, so the kept events stay in order. */
  lemma {:induction false} UpcomingEventsAppend(a: seq<Event>, b: seq<Event>, now: int)
    ensures UpcomingEvents(a + b, now) == UpcomingEvents(a, now) + UpcomingEvents(b, now)
  {
    if b == [] {
      assert a + b == a;
    } else {
      assert (a + b)[..|a + b| - 1] == a + b[..|b| - 1];
      UpcomingEventsAppend(a, b[..|b| - 1], now);
    }
  }

  /** The events of the files of `a + b` are those of `a` followed by those of
      `b`; in particular an unreadable file contributes nothing and does not
      stop the files after it. */
  lemma {:induction false} FilesEventsAppend(a: seq<File>, b: seq<File>, now: int)
    ensures FilesEvents(a + b, now) == FilesEvents(a, now) + FilesEvents(b, now)
  {
    if b == [] {
      assert a + b == a;
    } else {
      assert (a + b)[..|a + b| - 1] == a + b[..|b| - 1];
      FilesEventsAppend(a, b[..|b| - 1], now);
    }
  }

  /** An unreadable file contributes no events. */
  lemma UnreadableFileSkipped(a: seq<File>, b: seq<File>, now: int)
    ensures FilesEvents(a + [Unreadable] + b, now) == FilesEvents(a, now) + FilesEvents(b, now)
  {
    FilesEventsAppend(a + [Unreadable], b, now);
    assert (a + [Unreadable])[..|a|] == a;
  }

  /** Every event a calendar contributes is upcoming, and is an event of one
      of its readable files. */
  lemma {:induction false} FilesEventsUpcoming(files: seq<File>, now: int)
    ensures forall e :: e in FilesEvents(files, now) ==> Upcoming(e, now)
    ensures forall e :: e in FilesEvents(files, now) ==>
      exists j :: 0 <= j < |files| && files[j].Readable? && e in files[j].events
  {
    if files != [] {
      var init := files[..|files| - 1];
      var last := files[|files| - 1];
      FilesEventsUpcoming(init, now);
      if last.Readable? {
        UpcomingEventsMeaning(last.events, now);
      }
      forall e | e in FilesEvents(files, now)
        ensures exists j :: 0 <= j < |files| && files[j].Readable? && e in files[j].events
      {
        if e in FilesEvents(init, now) {
          var j :| 0 <= j < |init| && init[j].Readable? && e in init[j].events;
          assert files[j] == init[j];
        } else {
          assert files[|files| - 1] == last;
        }
      }
    }
  }

  /** A connection failure is returned as the fetch's error, with no batches;
      otherwise there is one batch per calendar, in calendar order, each
      holding that calendar's upcoming events, and a calendar whose
      directory cannot be listed gets an empty batch. */
  lemma FetchShape(store: Store, calendars: seq<Calendar>, now: int)
    ensures Fetch(store, calendars, now).Failure? <==> store.connectError.Some?
    ensures Fetch(store, calendars, now).Failure? ==>
      Fetch(store, calendars, now).error == store.connectError.value
    ensures Fetch(store, calendars, now).Success? ==>
      && |Fetch(store, calendars, now).value| == |calendars|
      && AllUpcoming(Fetch(store, calendars, now).value, now)
      && forall i :: 0 <= i < |calendars| ==>
        && Fetch(store, calendars, now).value[i].calendar == calendars[i]
        && (CalendarPath(calendars[i]) !in store.dirs ==> Fetch(store, calendars, now).value[i].events == [])
  {
    if store.connectError.None? {
      var batches := Fetch(store, calendars, now).value;
      forall i, k | 0 <= i < |batches| && 0 <= k < |batches[i].events|
        ensures Upcoming(batches[i].events[k], now)
      {
        var path := CalendarPath(calendars[i]);
        assert path in store.dirs;
        FilesEventsUpcoming(store.dirs[path], now);
      }
    }
  }

  /** The filtering loop: keeps the events that have a start not before
      `now`, in order. */
  method KeepUpcoming(events: seq<Event>, now: int) returns (kept: seq<Event>)
    ensures kept == UpcomingEvents(events, now)
    ensures forall e :: e in kept <==> e in events && Upcoming(e, now)
  {
    kept := [];
    for k := 0 to |events|
      invariant kept == UpcomingEvents(events[..k], now)
    {
      assert events[..k + 1][..k] == events[..k];
      var e := events[k];
      if e.start.None? || now > e.start.value {
        continue;
      }
      kept := kept + [e];
    }
    assert events[..|events|] == events;
    UpcomingEventsMeaning(events, now);
  }

  /** `readEventsFromNextCloud`: connects once; then, per calendar, appends
      an empty batch, lists the calendar's directory (skipping the calendar
      on failure) and appends the upcoming events of each readable file
      (skipping files that cannot be read). */
  method ReadEvents(store: Store, calendars: seq<Calendar>, now: int)
    returns (r: Result<seq<Batch>, string>)
    ensures r == Fetch(store, calendars, now)
    ensures r.Failure? <==> store.connectError.Some?
    ensures r.Success? ==> |r.value| == |calendars| && AllUpcoming(r.value, now)
  {
    if store.connectError.Some? {
      return Failure(store.connectError.value);
    }
    var eventsMap: seq<Batch> := [];
    for i := 0 to |calendars|
      invariant |eventsMap| == i
      invariant forall k :: 0 <= k < i ==>
        eventsMap[k] == Batch(DirEvents(store, CalendarPath(calendars[k]), now), calendars[k])
    {
      var c := calendars[i];
      eventsMap := eventsMap + [Batch([], c)];
      var path := "/" + c.name;
      if path !in store.dirs {
        continue;
      }
      var files := store.dirs[path];
      for j := 0 to |files|
        invariant |eventsMap| == i + 1
        invariant forall k :: 0 <= k < i ==>
          eventsMap[k] == Batch(DirEvents(store, CalendarPath(calendars[k]), now), calendars[k])
        invariant eventsMap[i] == Batch(FilesEvents(files[..j], now), c)
      {
        assert files[..j + 1][..j] == files[..j];
        var f := files[j];
        if f.Readable? {
          var events := KeepUpcoming(f.events, now);
          eventsMap := eventsMap[i := Batch(eventsMap[i].events + events, c)];
        } else {
          continue;
        }
      }
      assert files[..|files|] == files;
    }
    assert eventsMap == Fetch(store, calendars, now).value;
    r := Success(eventsMap);
    FetchShape(store, calendars, now);
  }
}
