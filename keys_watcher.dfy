/** The credentials facade's WatchAuthorisedKeys call and the notify watcher
    it returns. The watcher is a single-slot mailbox: it remembers the last
    value of the `authorized-keys` setting it saw, whether a notification is
    waiting to be read, and whether it has been stopped. A notification
    carries no value; the reader fetches the keys again. */
module KeysWatcher {
  import opened Results
  import opened Credentials

  /** What one read of the watcher's stream observes: a notification,
      nothing (yet), or the end of a stopped stream. */
  datatype Event = Change | NoChange | Closed

  /** The watcher's state. */
  datatype WatcherState = WatcherState(last: string, pending: bool, stopped: bool)

  /** A new watcher knows the current value and holds the initial
      notification. */
  function Started(current: string): WatcherState
  {
    WatcherState(current, true, false)
  }

  /** The backing state reports the setting's value `v`: a value that differs
      from the last one seen fills the slot; the same value again, or any
      value once stopped, changes nothing. */
  function Observed(w: WatcherState, v: string): WatcherState
  {
    if w.stopped || v == w.last then w else WatcherState(v, true, false)
  }

  /** A read takes the waiting notification; with none waiting it sees the
      end of a stopped stream, or nothing. */
  function Read(w: WatcherState): (Event, WatcherState)
  {
    if w.pending then (Change, w.(pending := false))
    else if w.stopped then (Closed, w)
    else (NoChange, w)
  }

  /** Stopping ends the stream once the waiting notification is read. */
  function Stopped(w: WatcherState): WatcherState
  {
    w.(stopped := true)
  }

  /** The backing state reports the values `vs`, one after another, with no
      read in between. */
  function ObservedAll(w: WatcherState, vs: seq<string>): WatcherState
    decreases |vs|
  {
    if vs == [] then w else ObservedAll(Observed(w, vs[0]), vs[1..])
  }

  /** A burst of reports with no read in between leaves the last reported
      value and fills the slot exactly when some value differs from the one
      seen before the burst. */
  lemma {:induction false} ObservedAllCoalesces(w: WatcherState, vs: seq<string>)
    requires !w.stopped
    ensures var w' := ObservedAll(w, vs);
            !w'.stopped && w'.last == (if vs == [] then w.last else vs[|vs| - 1])
    ensures ObservedAll(w, vs).pending <==> w.pending || exists i :: 0 <= i < |vs| && vs[i] != w.last
    decreases |vs|
  {
    if vs != [] {
      var w1 := Observed(w, vs[0]);
      ObservedAllCoalesces(w1, vs[1..]);
      if vs[0] == w.last {
        if exists i :: 0 <= i < |vs| && vs[i] != w.last {
          var i :| 0 <= i < |vs| && vs[i] != w.last;
          assert vs[1..][i - 1] == vs[i];
        }
        assert forall i :: 0 <= i < |vs| - 1 ==> vs[1..][i] == vs[i + 1];
      }
    }
  }

  /** Reports arriving after Stop change nothing. */
  lemma {:induction false} ObservedAllAfterStop(w: WatcherState, vs: seq<string>)
    requires w.stopped
    ensures ObservedAll(w, vs) == w
    decreases |vs|
  {
    if vs != [] {
      ObservedAllAfterStop(w, vs[1..]);
    }
  }

  /** After a burst of reports the reader sees exactly one notification if
      the value changed (or one was already waiting), none otherwise, and
      nothing more until the next report. */
  lemma BurstYieldsAtMostOneChange(w: WatcherState, vs: seq<string>)
    requires !w.stopped
    ensures var (e1, w1) := Read(ObservedAll(w, vs));
            (e1 == Change <==> w.pending || exists i :: 0 <= i < |vs| && vs[i] != w.last)
            && (e1 != Change ==> e1 == NoChange)
            && Read(w1).0 == NoChange
  {
    ObservedAllCoalesces(w, vs);
  }

  /** A new watcher gives one notification before any report, then nothing. */
  lemma StartedDeliversOneChange(current: string)
    ensures Read(Started(current)).0 == Change
    ensures Read(Read(Started(current)).1).0 == NoChange
    ensures Read(Read(Started(current)).1).1 == WatcherState(current, false, false)
  {
  }

  /** Stop may be called again: a second Stop changes nothing. A stopped
      watcher hands out a waiting notification, then reports the end of the
      stream on every read. */
  lemma StopDrainsThenCloses(w: WatcherState)
    ensures Stopped(Stopped(w)) == Stopped(w)
    ensures var s := Stopped(w);
            if w.pending then Read(s).0 == Change && Read(Read(s).1).0 == Closed
            else Read(s).0 == Closed && Read(s).1 == s
  {
  }

  /** How many times the value changes along `vs`, starting from `from`. */
  function ValueChanges(from: string, vs: seq<string>): nat
    decreases |vs|
  {
    if vs == [] then 0
    else (if vs[0] != from then 1 else 0) + ValueChanges(vs[0], vs[1..])
  }

  /** The notifications a reader that reads after every report gets. */
  function PromptReadChanges(w: WatcherState, vs: seq<string>): nat
    decreases |vs|
  {
    if vs == [] then 0
    else
      var r := Read(Observed(w, vs[0]));
      (if r.0 == Change then 1 else 0) + PromptReadChanges(r.1, vs[1..])
  }

  /** A reader that reads after every report sees one notification per
      change of value, no more and no fewer: no distinct value is skipped and
      no repeat is reported. */
  lemma {:induction false} PromptReadsSeeEveryChange(w: WatcherState, vs: seq<string>)
    requires !w.stopped && !w.pending
    ensures PromptReadChanges(w, vs) == ValueChanges(w.last, vs)
    decreases |vs|
  {
    if vs != [] {
      var r := Read(Observed(w, vs[0]));
      assert r.1 == WatcherState(vs[0], false, false);
      PromptReadsSeeEveryChange(r.1, vs[1..]);
    }
  }

  /** The watcher object: the three fields of `WatcherState`, updated in
      place. */
  class NotifyWatcher {
    var last: string
    var pending: bool
    var stopped: bool

    function State(): WatcherState
      reads this
    {
      WatcherState(last, pending, stopped)
    }

    constructor (current: string)
      ensures State() == Started(current)
    {
      last := current;
      pending := true;
      stopped := false;
    }

    /** The backing state reports the setting's value `v`. */
    method Observe(v: string)
      modifies this
      ensures State() == Observed(old(State()), v)
    {
      if !stopped && v != last {
        last := v;
        pending := true;
      }
    }

    /** One read of the stream. */
    method Next() returns (e: Event)
      modifies this
      ensures (e, State()) == Read(old(State()))
    {
      if pending {
        e := Change;
        pending := false;
      } else if stopped {
        e := Closed;
      } else {
        e := NoChange;
      }
    }

    /** Stops the watcher; it never fails, however often it is called. */
    method Stop() returns (err: Option<ApiError>)
      modifies this
      ensures err == None
      ensures State() == Stopped(old(State()))
    {
      stopped := true;
      err := None;
    }
  }

  /** Starts a watcher on the authorised keys of the machine `tag`, behind
      the same gate as AuthorisedKeys. */
  method WatchAuthorisedKeys(caller: Caller, store: Store, tag: string) returns (r: Result<NotifyWatcher, ApiError>)
    ensures r.Ok? <==> Authorise(caller, store, tag).Ok?
    ensures r.Err? ==> r.error == Authorise(caller, store, tag).error
    ensures r.Ok? ==> fresh(r.value) && r.value.State() == Started(store.authorizedKeys)
  {
    match Authorise(caller, store, tag)
    case Err(e) =>
      r := Err(e);
    case Ok(_) =>
      var w := new NotifyWatcher(store.authorizedKeys);
      r := Ok(w);
  }

  /** The facade's watcher test: the state server watches machine 1; it
      reads the initial notification, sets the keys to "key1\nkey2" and reads
      one notification, sets the same value and reads none, sets
      "key1\nkey2\nkey3" and reads one, stops the watcher twice and finds the
      stream closed. Each "one notification" is a read that sees a Change
      followed by a read that sees nothing. The suite starts from an
      `authorized-keys` value `initial` other than "key1\nkey2"; were it that
      value, the first write would repeat it and raise no notification. */
  method WatchAuthorisedKeysExample(initial: string) returns (events: seq<Event>, stops: seq<Option<ApiError>>)
    requires initial != "key1\nkey2"
    ensures events == [Change, NoChange, Change, NoChange, NoChange, Change, NoChange, Closed]
    ensures stops == [None, None]
  {
    var server := Caller({JobManageEnviron, JobManageState});
    var store := Store({"0", "1"}, initial);
    assert IsMachineId("1");
    assert "machine-1" == MachineTag("1");
    ParseMachineTagRoundTrip("1");
    var r := WatchAuthorisedKeys(server, store, "machine-1");
    var w := r.value;
    var e1 := w.Next();
    var e2 := w.Next();
    w.Observe("key1\nkey2");
    var e3 := w.Next();
    var e4 := w.Next();
    w.Observe("key1\nkey2");
    var e5 := w.Next();
    w.Observe("key1\nkey2\nkey3");
    var e6 := w.Next();
    var e7 := w.Next();
    var s1 := w.Stop();
    var e8 := w.Next();
    var s2 := w.Stop();
    events := [e1, e2, e3, e4, e5, e6, e7, e8];
    stops := [s1, s2];
  }
}
