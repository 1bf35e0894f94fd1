/** The life of a background run as the store, the registry and its observers see it. */
module AsyncRun {
  import opened Options

  datatype Phase = Queued | Running | Aggregating | FailedPhase

  datatype Status = InProgress | Completed | Failed

  /** A registry entry; latest is the number of its latest interval, 0 if it has none. */
  datatype Live = Live(phase: Phase, latest: nat)

  datatype Stored = Stored(status: Status, iops: real, errors: seq<string>) {
    predicate Final() { status == Completed || status == Failed }
  }

  const PLACEHOLDER := Stored(InProgress, 0.0, [])

  // ----- The event stream -----

  datatype Sent =
    | Interval(number: nat)
    | Progress(live: Live)
    | Status(stored: Stored)
    | Done(stored: Stored)
    | NoRecord

  /** The stream handler between its reads. missed: the live lookup of the current poll found
      nothing and the store has not been read yet. */
  datatype Stream = Stream(last: nat, missed: bool, sent: seq<Sent>, ended: bool)

  const NEW_STREAM := Stream(0, false, [], false)

  function SeeLive(s: Stream, live: Option<Live>): Stream {
    if s.ended || s.missed then s
    else
      match live
      case None => s.(missed := true)
      case Some(l) =>
        if l.latest > s.last
        then s.(last := l.latest, sent := s.sent + [Interval(l.latest), Progress(l)])
        else s.(sent := s.sent + [Progress(l)])
  }

  function SeeStored(s: Stream, stored: Option<Stored>): Stream {
    if s.ended || !s.missed then s
    else
      match stored
      case None => s.(missed := false, sent := s.sent + [NoRecord], ended := true)
      case Some(r) =>
        if r.Final() then s.(missed := false, sent := s.sent + [Done(r)], ended := true)
        else s.(missed := false, sent := s.sent + [Status(r)])
  }

  /** What one tick of the handler reads. */
  datatype Poll = Poll(live: Option<Live>, stored: Option<Stored>)

  function Polled(polls: seq<Poll>): Stream {
    if polls == [] then NEW_STREAM
    else
      var p := polls[|polls| - 1];
      SeeStored(SeeLive(Polled(polls[..|polls| - 1]), p.live), p.stored)
  }

  method WriteStreamEvent(p: Poll, lastNumber: nat) returns (done: bool, latest: nat, failed: bool, events: seq<Sent>)
    ensures p.live.Some? ==>
      && !done && !failed && latest == (if p.live.value.latest > lastNumber then p.live.value.latest else 0)
      && events ==
           (if p.live.value.latest > lastNumber then [Interval(p.live.value.latest)] else [])
           + [Progress(p.live.value)]
    ensures p.live.None? ==>
      && latest == 0 && failed == p.stored.None? && done == (p.stored.Some? && p.stored.value.Final())
      && events ==
           if p.stored.None? then [NoRecord]
           else if done then [Done(p.stored.value)]
           else [Status(p.stored.value)]
  {
    done, latest, failed, events := false, 0, false, [];
    if p.live.Some? {
      if p.live.value.latest > lastNumber {
        events := events + [Interval(p.live.value.latest)];
        latest := p.live.value.latest;
      }
      events := events + [Progress(p.live.value)];
      return;
    }
    if p.stored.None? {
      failed, events := true, [NoRecord];
      return;
    }
    done := p.stored.value.status == Completed || p.stored.value.status == Failed;
    events := if done then [Done(p.stored.value)] else [Status(p.stored.value)];
  }

  method HandleRunStream(polls: seq<Poll>) returns (sent: seq<Sent>, ended: bool)
    ensures sent == Polled(polls).sent && ended == Polled(polls).ended
  {
    var lastNumber: nat := 0;
    sent, ended := [], false;
    for i := 0 to |polls|
      invariant !ended && Polled(polls[..i]) == Stream(lastNumber, false, sent, false)
    {
      assert polls[..i + 1][..i] == polls[..i];
      var done, latest, failed, events := WriteStreamEvent(polls[i], lastNumber);
      sent := sent + events;
      if latest > lastNumber {
        lastNumber := latest;
      }
      if failed || done {
        EndedStays(polls, i + 1);
        return sent, true;
      }
      assert Polled(polls[..i + 1]) == SeeStored(SeeLive(Polled(polls[..i]), polls[i].live), polls[i].stored);
    }
    assert polls[..|polls|] == polls;
  }

  lemma {:induction false} EndedStays(polls: seq<Poll>, n: nat)
    requires n <= |polls| && Polled(polls[..n]).ended
    ensures Polled(polls) == Polled(polls[..n])
    decreases |polls|
  {
    if n == |polls| {
      assert polls[..n] == polls;
    } else {
      var m := |polls| - 1;
      assert polls[..m][..n] == polls[..n];
      EndedStays(polls[..m], n);
    }
  }

  /** The interval numbers sent so far grow strictly, up to last. */
  predicate Increasing(sent: seq<Sent>, last: nat) {
    && (forall i :: 0 <= i < |sent| && sent[i].Interval? ==> 0 < sent[i].number <= last)
    && forall i, j :: 0 <= i < j < |sent| && sent[i].Interval? && sent[j].Interval? ==> sent[i].number < sent[j].number
  }

  lemma SeeKeepsIncreasing(s: Stream, live: Option<Live>, stored: Option<Stored>)
    requires Increasing(s.sent, s.last)
    ensures Increasing(SeeLive(s, live).sent, SeeLive(s, live).last)
    ensures Increasing(SeeStored(s, stored).sent, SeeStored(s, stored).last)
  {
  }

  /** Whatever the polls read, no interval number is repeated or sent out of order. */
  lemma {:induction false} StreamedNumbersIncrease(polls: seq<Poll>)
    ensures Increasing(Polled(polls).sent, Polled(polls).last)
  {
    if polls != [] {
      var before, p := Polled(polls[..|polls| - 1]), polls[|polls| - 1];
      StreamedNumbersIncrease(polls[..|polls| - 1]);
      SeeKeepsIncreasing(before, p.live, None);
      SeeKeepsIncreasing(SeeLive(before, p.live), None, p.stored);
    }
  }

  // ----- The stream, poll by poll -----

  /** A poll after which nothing is read: no live entry, and no record or a final one. */
  predicate Ends(p: Poll) {
    p.live.None? && (p.stored.None? || p.stored.value.status == Completed || p.stored.value.status == Failed)
  }

  /** The live entry's interval is newer than all that were live before. */
  predicate NewHigh(polls: seq<Poll>, i: nat)
    requires i < |polls|
  {
    && polls[i].live.Some? && polls[i].live.value.latest > 0
    && forall j :: 0 <= j < i && polls[j].live.Some? ==> polls[j].live.value.latest < polls[i].live.value.latest
  }

  /** Poll i sends a new interval before the progress, or the stored record, or the error. */
  predicate SendsAt(polls: seq<Poll>, i: nat, events: seq<Sent>)
    requires i < |polls|
  {
    var p := polls[i];
    && (NewHigh(polls, i) ==> events == [Interval(p.live.value.latest), Progress(p.live.value)])
    && (p.live.Some? && !NewHigh(polls, i) ==> events == [Progress(p.live.value)])
    && (p.live.None? && p.stored.None? ==> events == [NoRecord])
    && (p.live.None? && p.stored.Some? && Ends(p) ==> events == [Done(p.stored.value)])
    && (p.live.None? && p.stored.Some? && !Ends(p) ==> events == [Status(p.stored.value)])
  }

  predicate IsHigh(polls: seq<Poll>, x: nat) {
    && (forall j :: 0 <= j < |polls| && polls[j].live.Some? ==> polls[j].live.value.latest <= x)
    && (x == 0 || exists j :: 0 <= j < |polls| && polls[j].live.Some? && polls[j].live.value.latest == x)
  }

  /** The last of the polls that are handled, with the stream before it. */
  lemma {:induction false} StreamStep(polls: seq<Poll>)
    requires forall i :: 0 <= i < |polls| ==> !Ends(polls[i])
    ensures
      var s := Polled(polls);
      !s.ended && !s.missed && IsHigh(polls, s.last)
  {
    if polls != [] {
      var n := |polls| - 1;
      StreamStep(polls[..n]);
      HighAppend(polls[..n], Polled(polls[..n]).last, polls[n]);
      assert polls == polls[..n] + [polls[n]];
    }
  }

  lemma HighAppend(polls: seq<Poll>, x: nat, p: Poll)
    requires IsHigh(polls, x)
    ensures IsHigh(polls + [p], if p.live.Some? && p.live.value.latest > x then p.live.value.latest else x)
  {
    var more := polls + [p];
    assert more[|polls|] == p;
    if x != 0 {
      var j :| 0 <= j < |polls| && polls[j].live.Some? && polls[j].live.value.latest == x;
      assert more[j] == polls[j];
    }
  }

  /** While no poll has ended the stream, each one adds its own events, and the stream is ended
      exactly once a poll ends it; after that nothing is sent. */
  lemma EachPollSends(polls: seq<Poll>, k: nat) returns (events: seq<Sent>)
    requires k < |polls| && forall i :: 0 <= i < k ==> !Ends(polls[i])
    ensures SendsAt(polls, k, events)
    ensures Polled(polls[..k + 1]).sent == Polled(polls[..k]).sent + events
    ensures Polled(polls[..0]).sent == []
    ensures !Polled(polls[..k]).ended && Polled(polls[..k + 1]).ended == Ends(polls[k])
    ensures Ends(polls[k]) ==> Polled(polls) == Polled(polls[..k + 1])
  {
    var p := polls[k];
    assert polls[..k + 1][..k] == polls[..k];
    assert forall i :: 0 <= i < k ==> polls[..k][i] == polls[i];
    StreamStep(polls[..k]);
    var s := Polled(polls[..k]);
    assert NewHigh(polls, k) <==> p.live.Some? && p.live.value.latest > s.last by { HighMeans(polls, k, s.last); }
    events :=
      if p.live.Some? then (if p.live.value.latest > s.last then [Interval(p.live.value.latest)] else [])
        + [Progress(p.live.value)]
      else if p.stored.None? then [NoRecord]
      else if Ends(p) then [Done(p.stored.value)]
      else [Status(p.stored.value)];
    if Ends(p) { EndedStays(polls, k + 1); }
  }

  lemma HighMeans(polls: seq<Poll>, k: nat, x: nat)
    requires k < |polls| && IsHigh(polls[..k], x)
    ensures NewHigh(polls, k) <==> polls[k].live.Some? && polls[k].live.value.latest > x
  {
    assert forall j :: 0 <= j < k ==> polls[..k][j] == polls[j];
    if NewHigh(polls, k) && x != 0 {
      var j :| 0 <= j < k && polls[..k][j].live.Some? && polls[..k][j].live.value.latest == x;
      assert polls[j].live.value.latest < polls[k].live.value.latest;
    }
  }

  // ----- The command-line watcher -----

  datatype Verdict = Watching | Nil | RunFailed(errors: seq<string>) | LookupFailed

  function Judge(stored: Option<Stored>): Verdict {
    match stored
    case None => LookupFailed
    case Some(r) =>
      match r.status
      case InProgress => Watching
      case Completed => Nil
      case Failed => RunFailed(r.errors)
  }

  /** A tick of WatchRun: the status line it formats and the record it then reads. */
  datatype Tick = Tick(line: string, stored: Option<Stored>)

  /** How many ticks are handled: up to and including the first with a verdict. */
  function Handled(ticks: seq<Tick>): (n: nat)
    ensures n <= |ticks|
    ensures forall i :: 0 <= i < n - 1 ==> Judge(ticks[i].stored) == Watching
    ensures n < |ticks| ==> n > 0 && Judge(ticks[n - 1].stored) != Watching
  {
    if ticks == [] then 0 else if Judge(ticks[0].stored) != Watching then 1 else 1 + Handled(ticks[1..])
  }

  lemma {:induction false} HandledUntil(ticks: seq<Tick>, n: nat)
    requires n < |ticks| && Judge(ticks[n].stored) != Watching
    requires forall i :: 0 <= i < n ==> Judge(ticks[i].stored) == Watching
    ensures Handled(ticks) == n + 1
  {
    if n > 0 { HandledUntil(ticks[1..], n - 1); }
  }

  lemma {:induction false} HandledAll(ticks: seq<Tick>)
    requires forall i :: 0 <= i < |ticks| ==> Judge(ticks[i].stored) == Watching
    ensures Handled(ticks) == |ticks|
  {
    if ticks != [] { HandledAll(ticks[1..]); }
  }

  /** Lines without immediate repetitions; nothing counts as printed before the empty line. */
  function Destuttered(ticks: seq<Tick>): seq<string> {
    if ticks == [] then []
    else
      var n := |ticks| - 1;
      Destuttered(ticks[..n]) + if ticks[n].line == LineBefore(ticks, n) then [] else [ticks[n].line]
  }

  function LineBefore(ticks: seq<Tick>, n: nat): string
    requires n <= |ticks|
  {
    if n == 0 then "" else ticks[n - 1].line
  }

  /** Nothing counts as printed before the empty line. */
  function LastPrinted(printed: seq<string>): string {
    if printed == [] then "" else printed[|printed| - 1]
  }

  /** After every tick the last printed line is the tick's, no line is printed twice in a row, and
      each tick prints its own line or none. */
  lemma {:induction false} PrintedFollowsTicks(ticks: seq<Tick>)
    ensures
      var printed := Destuttered(ticks);
      && LastPrinted(printed) == (if ticks == [] then "" else ticks[|ticks| - 1].line)
      && forall i :: 0 <= i < |printed| ==> printed[i] != LastPrinted(printed[..i])
    ensures ticks != [] ==>
      var before, line := Destuttered(ticks[..|ticks| - 1]), ticks[|ticks| - 1].line;
      Destuttered(ticks) == before || Destuttered(ticks) == before + [line]
  {
    if ticks != [] {
      var n := |ticks| - 1;
      var before, line := Destuttered(ticks[..n]), ticks[n].line;
      PrintedFollowsTicks(ticks[..n]);
      assert LineBefore(ticks, n) == LastPrinted(before);
      if line != LineBefore(ticks, n) {
        assert (before + [line])[..|before|] == before;
        assert forall i :: 0 <= i < |before| ==> (before + [line])[..i] == before[..i];
      } else {
        assert before + [] == before;
      }
    }
  }

  /** It returns nil exactly when the first final record it reads is a completed one. */
  method WatchRun(ticks: seq<Tick>) returns (verdict: Verdict, printed: seq<string>)
    ensures verdict == (if Handled(ticks) == 0 then Watching else Judge(ticks[Handled(ticks) - 1].stored))
    ensures printed == Destuttered(ticks[..Handled(ticks)])
  {
    var lastLine := "";
    printed := [];
    for i := 0 to |ticks|
      invariant forall j :: 0 <= j < i ==> Judge(ticks[j].stored) == Watching
      invariant printed == Destuttered(ticks[..i])
      invariant lastLine == LineBefore(ticks, i)
    {
      assert ticks[..i + 1][..i] == ticks[..i] && LineBefore(ticks[..i + 1], i) == LineBefore(ticks, i);
      if ticks[i].line != lastLine {
        printed := printed + [ticks[i].line];
        lastLine := ticks[i].line;
      }
      verdict := Judge(ticks[i].stored);
      if verdict != Watching {
        HandledUntil(ticks, i);
        return;
      }
    }
    HandledAll(ticks);
    return Watching, printed;
  }

  // ----- The run and its observers, step by step -----

  /** Where the run is. Launched: the id has been returned and the goroutine has begun.
      Failing: Service.Run has returned an error. */
  datatype Place =
    | Starting | Rejected | Saved | Launched | Executing | Publishing | Published | Annotated | Succeeded
    | Failing(error: string) | FailureSaved(error: string) | Ended

  /** started: the run got as far as its own first progress entry. lostWrite: history, some
      write to the store failed. */
  datatype State = State(
    place: Place, live: Option<Live>, stored: Option<Stored>, started: bool, lostWrite: bool,
    stream: Stream, watch: Verdict)

  datatype Event =
    | SavePlaceholder(ok: bool)
    | Launch
    | Refuse(error: string)
    | Start
    | Callback(number: nat)
    | AllFailed(error: string)
    | Aggregate
    | Publish(ok: bool, iops: real, error: string)
    | Annotate(ok: bool)
    | ClearEntry
    | SaveFailure(ok: bool)
    | ShowFailure
    | PollLive
    | PollStored
    | Watch

  const INITIAL := State(Starting, None, None, false, false, NEW_STREAM, Watching)

  function StepStart(s: State, e: Event): State
    requires e.SavePlaceholder? || e.Launch? || e.Refuse? || e.Start? || e.Callback?
  {
    match e
    case SavePlaceholder(ok) =>
      if s.place != Starting then s
      else if ok then s.(place := Saved, stored := Some(PLACEHOLDER))
      else s.(place := Rejected, lostWrite := true)
    case Launch => if s.place == Saved then s.(place := Launched, live := Some(Live(Queued, 0))) else s
    case Refuse(error) => if s.place == Launched then s.(place := Failing(error)) else s
    case Start =>
      if s.place == Launched then s.(place := Executing, started := true, live := Some(Live(Running, 0))) else s
    case Callback(number) =>
      if s.place == Executing && s.live.Some? then s.(live := Some(Live(s.live.value.phase, number))) else s
  }

  function StepFinish(s: State, e: Event): State
    requires
      || e.AllFailed? || e.Aggregate? || e.Publish? || e.Annotate?
      || e.ClearEntry? || e.SaveFailure? || e.ShowFailure?
  {
    match e
    case AllFailed(error) => if s.place == Executing then s.(place := Failing(error), live := None) else s
    case Aggregate => if s.place == Executing then s.(place := Publishing, live := Some(Live(Aggregating, 0))) else s
    case Publish(ok, iops, error) =>
      if s.place != Publishing then s
      else if ok then s.(place := Published, stored := Some(Stored(Completed, iops, [])))
      else s.(place := Failing(error), live := None, lostWrite := true)
    case Annotate(ok) =>
      if s.place == Published then s.(place := Annotated, lostWrite := s.lostWrite || !ok) else s
    case ClearEntry =>
      if s.place == Published || s.place == Annotated then s.(place := Succeeded, live := None) else s
    case SaveFailure(ok) =>
      if !s.place.Failing? then s
      else
        var s' := s.(place := FailureSaved(s.place.error), lostWrite := s.lostWrite || !ok);
        if ok then s'.(stored := Some(Stored(Failed, 0.0, [s.place.error]))) else s'
    case ShowFailure => if s.place.FailureSaved? then s.(place := Ended, live := Some(Live(FailedPhase, 0))) else s
  }

  predicate Known(place: Place) { place != Starting && place != Rejected && place != Saved }

  /** Observers know the id only once it has been returned. */
  function StepObserver(s: State, e: Event): State
    requires e.PollLive? || e.PollStored? || e.Watch?
  {
    if !Known(s.place) then s
    else
      match e
      case PollLive => s.(stream := SeeLive(s.stream, s.live))
      case PollStored => s.(stream := SeeStored(s.stream, s.stored))
      case Watch => if s.watch == Watching then s.(watch := Judge(s.stored)) else s
  }

  predicate Observes(e: Event) { e.PollLive? || e.PollStored? || e.Watch? }

  predicate Starts(e: Event) { e.SavePlaceholder? || e.Launch? || e.Refuse? || e.Start? || e.Callback? }

  function Step(s: State, e: Event): State {
    if Observes(e) then StepObserver(s, e) else if Starts(e) then StepStart(s, e) else StepFinish(s, e)
  }

  function Run(s: State, es: seq<Event>): State
    decreases |es|
  {
    if es == [] then s else Run(Step(s, es[0]), es[1..])
  }

  // ----- What a run shows on its way -----

  /** The placeholder, the queued, running and aggregating entries with the callbacks' numbers, and
      the completed record before the entry is taken away. */
  lemma SuccessShows(number: nat, iops: real)
    ensures
      var saved := Step(INITIAL, SavePlaceholder(true));
      var launched := Step(saved, Launch);
      var running := Step(launched, Start);
      var called := Step(running, Callback(number));
      var aggregating := Step(called, Aggregate);
      var published := Step(aggregating, Publish(true, iops, ""));
      var annotated := Step(published, Annotate(true));
      && saved.live == None && saved.stored == Some(Stored(InProgress, 0.0, []))
      && launched.live == Some(Live(Queued, 0)) && running.live == Some(Live(Running, 0))
      && called.live == Some(Live(Running, number)) && aggregating.live == Some(Live(Aggregating, 0))
      && aggregating.stored == Some(Stored(InProgress, 0.0, []))
      && published.live == Some(Live(Aggregating, 0)) && published.stored == Some(Stored(Completed, iops, []))
      && Step(published, ClearEntry).place == Step(annotated, ClearEntry).place == Succeeded
      && Step(annotated, ClearEntry).live == None
      && Step(annotated, ClearEntry).stored == Some(Stored(Completed, iops, []))
      && !Step(annotated, ClearEntry).lostWrite && Step(published, Annotate(false)).lostWrite
  {
  }

  /** A run that is refused, of which every assignment failed, or that could not be published ends with
      its error in the record, unless that write fails too, and then with a failed entry. */
  lemma FailureShows(e: Event, error: string, ok: bool)
    requires e == Refuse(error) || e == AllFailed(error) || e == Publish(false, 0.0, error)
    ensures
      var launched := Step(Step(INITIAL, SavePlaceholder(true)), Launch);
      var running := Step(launched, Start);
      var before := if e.Refuse? then launched else if e.AllFailed? then running else Step(running, Aggregate);
      var failing := Step(before, e);
      var saved := Step(failing, SaveFailure(ok));
      && failing.live == (if e.Refuse? then Some(Live(Queued, 0)) else None)
      && failing.stored == Some(Stored(InProgress, 0.0, []))
      && saved.live == failing.live
      && saved.stored == Some(if ok then Stored(Failed, 0.0, [error]) else Stored(InProgress, 0.0, []))
      && saved.lostWrite == (e.Publish? || !ok)
      && Step(saved, ShowFailure) == saved.(place := Ended, live := Some(Live(FailedPhase, 0)))
  {
  }

  /** Without a placeholder there is no run. */
  lemma {:induction false} UnsavedShowsNothing(es: seq<Event>)
    ensures
      var s := Run(Step(INITIAL, SavePlaceholder(false)), es);
      s.place == Rejected && s.live == None && s.stored == None && s.stream == NEW_STREAM && s.watch == Watching
  {
    StaysRejected(Step(INITIAL, SavePlaceholder(false)), es);
  }

  lemma {:induction false} StaysRejected(s: State, es: seq<Event>)
    requires s.place == Rejected
    ensures Run(s, es) == s
    decreases |es|
  {
    if es != [] { StaysRejected(s, es[1..]); }
  }

  predicate StatusIs(stored: Option<Stored>, status: Status) { stored.Some? && stored.value.status == status }

  predicate IsFinal(stored: Option<Stored>) { stored.Some? && stored.value.Final() }

  predicate PlaceInv(s: State) {
    match s.place
    case Starting => s.live == None && s.stored == None && !s.started
    case Rejected => s.live == None && s.stored == None && s.lostWrite && !s.started
    case Saved => s.live == None && s.stored == Some(PLACEHOLDER) && !s.started
    case Launched => s.live == Some(Live(Queued, 0)) && s.stored == Some(PLACEHOLDER) && !s.started
    case Executing => s.live.Some? && s.live.value.phase == Running && s.stored == Some(PLACEHOLDER) && s.started
    case Publishing => s.live == Some(Live(Aggregating, 0)) && s.stored == Some(PLACEHOLDER) && s.started
    case Published => s.live.Some? && StatusIs(s.stored, Completed) && s.started
    case Annotated => s.live.Some? && StatusIs(s.stored, Completed) && s.started
    case Succeeded => s.live == None && StatusIs(s.stored, Completed) && s.started
    case Failing(error) => s.stored == Some(PLACEHOLDER) && (s.live == None <==> s.started)
    case FailureSaved(error) =>
      && (s.live == None <==> s.started)
      && (s.stored == Some(Stored(Failed, 0.0, [error])) || (s.stored == Some(PLACEHOLDER) && s.lostWrite))
    case Ended =>
      && s.live == Some(Live(FailedPhase, 0))
      && (StatusIs(s.stored, Failed) || (s.stored == Some(PLACEHOLDER) && s.lostWrite))
  }

  predicate PastGap(place: Place) { place == Succeeded || place.Failing? || place.FailureSaved? || place == Ended }

  predicate ObserverInv(s: State) {
    && Increasing(s.stream.sent, s.stream.last)
    && (!Known(s.place) ==> s.stream == NEW_STREAM && s.watch == Watching)
    && (s.stream.missed || s.stream.ended ==> s.started && PastGap(s.place))
    && (s.stream.ended ==>
          && !s.stream.missed && IsFinal(s.stored)
          && s.stream.sent != [] && s.stream.sent[|s.stream.sent| - 1] == Done(s.stored.value))
    && (s.watch != Watching ==> IsFinal(s.stored) && s.watch == Judge(s.stored))
  }

  predicate Inv(s: State) { PlaceInv(s) && ObserverInv(s) }

  lemma ObserverKeepsInv(s: State, e: Event)
    requires Inv(s) && Observes(e)
    ensures Inv(StepObserver(s, e))
  {
    SeeKeepsIncreasing(s.stream, s.live, s.stored);
  }

  lemma StartKeepsInv(s: State, e: Event)
    requires Inv(s) && Starts(e)
    ensures Inv(StepStart(s, e))
  {
  }

  lemma SuccessKeepsInv(s: State, e: Event)
    requires Inv(s) && (e.Aggregate? || e.Publish? || e.Annotate? || e.ClearEntry?)
    ensures Inv(StepFinish(s, e))
  {
  }

  lemma FailureKeepsInv(s: State, e: Event)
    requires Inv(s) && (e.AllFailed? || e.SaveFailure? || e.ShowFailure?)
    ensures Inv(StepFinish(s, e))
  {
  }

  lemma StepKeepsInv(s: State, e: Event)
    requires Inv(s)
    ensures Inv(Step(s, e))
  {
    hide Inv;
    if Observes(e) {
      ObserverKeepsInv(s, e);
    } else if Starts(e) {
      StartKeepsInv(s, e);
    } else if e.AllFailed? || e.SaveFailure? || e.ShowFailure? {
      FailureKeepsInv(s, e);
    } else {
      SuccessKeepsInv(s, e);
    }
  }

  lemma {:induction false} RunKeepsInv(s: State, es: seq<Event>)
    requires Inv(s)
    ensures Inv(Run(s, es))
    decreases |es|
  {
    hide Inv, Step;
    if es != [] {
      StepKeepsInv(s, es[0]);
      RunKeepsInv(Step(s, es[0]), es[1..]);
    }
  }

  lemma {:induction false} RunConcat(s: State, a: seq<Event>, b: seq<Event>)
    ensures Run(s, a + b) == Run(Run(s, a), b)
    decreases |a|
  {
    if a == [] {
      assert a + b == b;
    } else {
      RunConcat(Step(s, a[0]), a[1..], b);
      assert (a + b)[1..] == a[1..] + b;
    }
  }

  // ----- What the store shows -----

  lemma FinalStaysOneStep(s: State, e: Event)
    requires Inv(s) && IsFinal(s.stored)
    ensures Step(s, e).stored == s.stored
  {
  }

  lemma {:induction false} FinalPersists(s: State, es: seq<Event>)
    requires Inv(s) && IsFinal(s.stored)
    ensures Run(s, es).stored == s.stored
    decreases |es|
  {
    hide Inv, Step;
    if es != [] {
      StepKeepsInv(s, es[0]);
      FinalStaysOneStep(s, es[0]);
      FinalPersists(Step(s, es[0]), es[1..]);
    }
  }

  /** From the placeholder on there is always a record; once it is completed or failed it never
      changes again, whichever writes fail; and a finished run has the matching final record
      unless a write was lost. */
  lemma StoredStatusSettlesOnce(es: seq<Event>, more: seq<Event>)
    ensures var s, t := Run(INITIAL, es), Run(INITIAL, es + more);
      && (Known(s.place) ==> s.stored.Some?)
      && (IsFinal(s.stored) ==> t.stored == s.stored)
      && (s.place == Succeeded ==> StatusIs(s.stored, Completed))
      && (s.place == Ended && !s.lostWrite ==> StatusIs(s.stored, Failed))
  {
    RunKeepsInv(INITIAL, es);
    RunConcat(INITIAL, es, more);
    if IsFinal(Run(INITIAL, es).stored) { FinalPersists(Run(INITIAL, es), more); }
  }

  /** Once the id is known a run has a registry entry or a final record at every moment, except
      exactly while a run that had started has failed and its failure is not stored. */
  lemma VisibleExceptInFailureGap(es: seq<Event>)
    ensures var s := Run(INITIAL, es);
      Known(s.place) ==>
        ((s.live == None && !IsFinal(s.stored))
          <==> s.started && (s.place.Failing? || (s.place.FailureSaved? && !StatusIs(s.stored, Failed))))
  {
    RunKeepsInv(INITIAL, es);
  }

  /** The gap cannot be reached by a run that ends well: at every moment before its success
      someone who knows the id finds it live or completed. */
  lemma SuccessIsNeverInvisible(es: seq<Event>, more: seq<Event>)
    requires Known(Run(INITIAL, es).place) && Run(INITIAL, es + more).place == Succeeded
    ensures Run(INITIAL, es).live.Some? || StatusIs(Run(INITIAL, es).stored, Completed)
  {
    var s := Run(INITIAL, es);
    RunKeepsInv(INITIAL, es);
    RunConcat(INITIAL, es, more);
    if s.place.Failing? || s.place.FailureSaved? || s.place == Ended { FailureStays(s, more); }
  }

  lemma {:induction false} FailureStays(s: State, es: seq<Event>)
    requires s.place.Failing? || s.place.FailureSaved? || s.place == Ended
    ensures Run(s, es).place.Failing? || Run(s, es).place.FailureSaved? || Run(s, es).place == Ended
    decreases |es|
  {
    if es != [] { FailureStays(Step(s, es[0]), es[1..]); }
  }

  // ----- What the observers conclude -----

  /** Interval numbers increase; a stream ends only with the final record, which stays; the
      watcher returns nil only if the run completed and an error only if it failed. */
  lemma ObserversAreRight(es: seq<Event>, more: seq<Event>)
    ensures var s, t := Run(INITIAL, es), Run(INITIAL, es + more);
      && Increasing(s.stream.sent, s.stream.last)
      && (s.stream.ended ==>
            && IsFinal(t.stored) && |s.stream.sent| > 0
            && s.stream.sent[|s.stream.sent| - 1] == Done(t.stored.value))
      && (s.watch == Nil ==> StatusIs(t.stored, Completed))
      && (s.watch.RunFailed? ==> StatusIs(t.stored, Failed) && t.stored.value.errors == s.watch.errors)
      && s.watch != LookupFailed
  {
    RunKeepsInv(INITIAL, es);
    RunConcat(INITIAL, es, more);
    if IsFinal(Run(INITIAL, es).stored) { FinalPersists(Run(INITIAL, es), more); }
  }

  /** After success the next complete poll ends the stream, and the next look ends the watch. */
  lemma SuccessIsNoticed(es: seq<Event>)
    requires Run(INITIAL, es).place == Succeeded
    ensures Run(INITIAL, es + [PollLive, PollStored]).stream.ended
    ensures Run(INITIAL, es + [Watch]).watch == Nil
  {
    var s := Run(INITIAL, es);
    RunKeepsInv(INITIAL, es);
    RunConcat(INITIAL, es, [PollLive, PollStored]);
    RunConcat(INITIAL, es, [Watch]);
    assert [PollLive, PollStored][1..] == [PollStored] && [PollStored][1..] == [] && [Watch][1..] == [];
    assert Run(s, [PollLive, PollStored]) == Run(Step(s, PollLive), [PollStored]);
    assert Run(Step(s, PollLive), [PollStored]) == Step(Step(s, PollLive), PollStored);
    assert Run(s, [Watch]) == Step(s, Watch);
  }

  lemma {:induction false} EndedIsStuck(s: State, es: seq<Event>)
    requires Inv(s) && s.place == Ended && !s.stream.missed && !s.stream.ended
    ensures !Run(s, es).stream.ended
    decreases |es|
  {
    hide Increasing;
    if es != [] {
      StepKeepsInv(s, es[0]);
      EndedIsStuck(Step(s, es[0]), es[1..]);
    }
  }

  /** A started run has failed and its entry is gone: nobody sees it until the failed entry. */
  predicate InGap(s: State) { s.started && (s.place.Failing? || s.place.FailureSaved?) }

  /** Event i is a live lookup in the gap, and every read of the store after it, so also the
      first, finds a final record. */
  predicate GapPoll(es: seq<Event>, i: nat)
    requires i < |es|
  {
    && es[i] == PollLive && InGap(Run(INITIAL, es[..i]))
    && forall j :: i < j < |es| && es[j] == PollStored ==> IsFinal(Run(INITIAL, es[..j]).stored)
  }

  predicate PolledInGap(es: seq<Event>) { exists i :: 0 <= i < |es| && GapPoll(es, i) }

  lemma RunAppend(es: seq<Event>, e: Event)
    ensures Run(INITIAL, es + [e]) == Step(Run(INITIAL, es), e)
  {
    RunConcat(INITIAL, es, [e]);
    assert [e][1..] == [];
    assert Run(Run(INITIAL, es), [e]) == Run(Step(Run(INITIAL, es), e), []);
  }

  /** A further event that is no bad read of the store keeps a lookup good. */
  lemma GapPollKept(es: seq<Event>, e: Event, i: nat)
    requires i < |es|
    ensures GapPoll(es + [e], i) <==> GapPoll(es, i) && (e == PollStored ==> IsFinal(Run(INITIAL, es).stored))
  {
    var all := es + [e];
    assert all[..i] == es[..i] && all[..|es|] == es && all[|es|] == e;
    assert forall j :: i < j < |es| ==> all[..j] == es[..j] && all[j] == es[j];
    if GapPoll(all, i) {
      forall j | i < j < |es| && es[j] == PollStored ensures IsFinal(Run(INITIAL, es[..j]).stored) {
        assert all[j] == PollStored && all[..j] == es[..j];
      }
    }
  }

  lemma NewGapPoll(es: seq<Event>, e: Event)
    ensures GapPoll(es + [e], |es|) <==> e == PollLive && InGap(Run(INITIAL, es))
  {
    assert (es + [e])[..|es|] == es && (es + [e])[|es|] == e;
  }

  lemma PolledInGapAppend(es: seq<Event>, e: Event)
    ensures PolledInGap(es + [e]) <==>
      || (PolledInGap(es) && (e == PollStored ==> IsFinal(Run(INITIAL, es).stored)))
      || (e == PollLive && InGap(Run(INITIAL, es)))
  {
    NewGapPoll(es, e);
    forall i | 0 <= i < |es|
      ensures GapPoll(es + [e], i) <==> GapPoll(es, i) && (e == PollStored ==> IsFinal(Run(INITIAL, es).stored))
    {
      GapPollKept(es, e, i);
    }
    if PolledInGap(es + [e]) {
      var i :| 0 <= i < |es + [e]| && GapPoll(es + [e], i);
      assert i < |es| ==> GapPoll(es, i);
    }
    if PolledInGap(es) {
      var i :| 0 <= i < |es| && GapPoll(es, i);
      assert GapPoll(es + [e], i) <==> (e == PollStored ==> IsFinal(Run(INITIAL, es).stored));
    }
    if e == PollLive && InGap(Run(INITIAL, es)) { assert GapPoll(es + [e], |es|); }
  }

  predicate Caught(s: State) { s.stream.ended || s.stream.missed }

  lemma CaughtStep(s: State, e: Event)
    requires Inv(s) && Step(s, e).place != Succeeded
    ensures Caught(Step(s, e)) <==>
      || (Caught(s) && (e == PollStored ==> IsFinal(s.stored)))
      || (e == PollLive && InGap(s))
  {
  }

  /** While a run has not succeeded, its stream has ended or is about to exactly if it was polled
      in the gap. */
  lemma {:induction false} CaughtIff(es: seq<Event>)
    requires Run(INITIAL, es).place != Succeeded
    ensures Caught(Run(INITIAL, es)) <==> PolledInGap(es)
    decreases |es|
  {
    if es != [] {
      var n := |es| - 1;
      var before, e := es[..n], es[n];
      assert es == before + [e];
      RunAppend(before, e);
      RunKeepsInv(INITIAL, before);
      if Run(INITIAL, before).place == Succeeded { SuccessStays(Run(INITIAL, before), e); }
      CaughtIff(before);
      CaughtStep(Run(INITIAL, before), e);
      PolledInGapAppend(before, e);
    }
  }

  lemma SuccessStays(s: State, e: Event)
    requires s.place == Succeeded
    ensures Step(s, e).place == Succeeded
  {
  }

  /** The failed entry stays in the registry for ever, so the stream of a failed run ends, now or
      later, exactly if some live lookup fell into the gap between the end of Service.Run and
      the failed entry and the store was not read before it held the failure. */
  lemma FailedStreamEndsIff(es: seq<Event>)
    requires Run(INITIAL, es).place == Ended && !Run(INITIAL, es).lostWrite
    ensures (exists more :: Run(INITIAL, es + more).stream.ended) <==> PolledInGap(es)
  {
    CaughtIff(es);
    CaughtEndsIff(es);
  }

  lemma CaughtEndsIff(es: seq<Event>)
    requires Run(INITIAL, es).place == Ended && !Run(INITIAL, es).lostWrite
    ensures (exists more :: Run(INITIAL, es + more).stream.ended) <==> Caught(Run(INITIAL, es))
  {
    var s := Run(INITIAL, es);
    RunKeepsInv(INITIAL, es);
    if s.stream.ended {
      assert es + [] == es;
      assert Run(INITIAL, es + []).stream.ended;
    } else if s.stream.missed {
      RunAppend(es, PollStored);
      assert Run(INITIAL, es + [PollStored]).stream.ended;
    } else {
      forall more ensures !Run(INITIAL, es + more).stream.ended {
        RunConcat(INITIAL, es, more);
        EndedIsStuck(s, more);
      }
    }
  }

  /** A run refused before it started keeps an entry throughout, so its stream never ends. */
  lemma RefusedStreamNeverEnds(es: seq<Event>)
    requires Run(INITIAL, es).place == Ended && !Run(INITIAL, es).started
    ensures !Run(INITIAL, es).stream.ended && !Run(INITIAL, es).stream.missed
  {
    RunKeepsInv(INITIAL, es);
  }

  /** A run that has started and not yet failed. */
  const BEGUN := State(Executing, Some(Live(Running, 0)), Some(PLACEHOLDER), true, false, NEW_STREAM, Watching)

  function FailingAfter(first: Event, second: Event): seq<Event> {
    [SavePlaceholder(true), Launch, Start] + ([first, second] + [SaveFailure(true), ShowFailure])
  }

  lemma RunTwo(s: State, a: Event, b: Event)
    ensures Run(s, [a, b]) == Step(Step(s, a), b)
  {
    assert [a, b][1..] == [b] && [b][1..] == [];
    assert Run(Step(s, a), [b]) == Run(Step(Step(s, a), b), []);
  }

  lemma ReachesBegun()
    ensures Run(INITIAL, [SavePlaceholder(true), Launch, Start]) == BEGUN
  {
    assert [SavePlaceholder(true), Launch, Start][1..] == [Launch, Start];
    RunTwo(Step(INITIAL, SavePlaceholder(true)), Launch, Start);
  }

  lemma RunFailingAfter(first: Event, second: Event)
    ensures Run(INITIAL, FailingAfter(first, second))
      == Step(Step(Step(Step(BEGUN, first), second), SaveFailure(true)), ShowFailure)
  {
    ReachesBegun();
    RunConcat(INITIAL, [SavePlaceholder(true), Launch, Start], [first, second] + [SaveFailure(true), ShowFailure]);
    RunConcat(BEGUN, [first, second], [SaveFailure(true), ShowFailure]);
    RunTwo(BEGUN, first, second);
    RunTwo(Step(Step(BEGUN, first), second), SaveFailure(true), ShowFailure);
  }

  /** Polled before the gap, the stream of a failed run never ends ... */
  lemma FailedStreamCanHang(error: string)
    ensures var s := Run(INITIAL, FailingAfter(PollLive, AllFailed(error)));
      s.place == Ended && s.started && !s.lostWrite && !s.stream.ended && !s.stream.missed
  {
    RunFailingAfter(PollLive, AllFailed(error));
  }

  /** ... polled inside it, the next read ends it. */
  lemma FailedStreamCanEnd(error: string)
    ensures var s := Run(INITIAL, FailingAfter(AllFailed(error), PollLive));
      s.place == Ended && s.started && !s.lostWrite && s.stream.missed
  {
    RunFailingAfter(AllFailed(error), PollLive);
  }
}
