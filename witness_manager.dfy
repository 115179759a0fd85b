/**
 * The witness lifecycle controller (internal/witness/manager.go).
 *
 * A `Manager` is bound to one rig. Every operation loads the rig's record
 * from its state file, changes it, and writes the whole record back. The
 * file system is an abstract store from paths to stored files; the process
 * table is the set `live` of process ids that exist; the caller's own
 * process id and the current time are parameters.
 */
module WitnessManager {
  import opened Wrappers
  import opened WitnessTypes

  /** What the manager needs of its rig: name, root directory, current roster of polecats. */
  datatype Rig = Rig(name: string, path: string, polecats: seq<string>)

  /** What reading a path yields: a persisted record, bytes that do not parse, or a read error. */
  datatype StoredFile = Encoded(doc: Document) | Unparseable | Unreadable

  /** The errors the controller returns. */
  datatype Error =
    | ErrNotRunning      // stop requested while no instance is recorded as running
    | ErrAlreadyRunning  // start requested while a live instance is recorded
    | DecodeError        // the state file exists but does not hold a record
    | IOError            // a read, directory-creation or write failure

  const STATE_DIR := ".gastown"
  const STATE_FILE_NAME := "witness.json"
  const STATE_SUFFIX := "/" + STATE_DIR + "/" + STATE_FILE_NAME

  /** The state file of the rig rooted at `root`. */
  function StatePath(root: string): (p: string)
    ensures |p| == |root| + |STATE_SUFFIX|
    ensures p[..|root|] == root && p[|root|..] == STATE_SUFFIX
  {
    root + STATE_SUFFIX
  }

  /** Segment `i..` of `root` starts at a separator boundary and is `.` or `..`. */
  predicate DotSegmentAt(root: string, i: int)
    requires 0 <= i < |root|
  {
    && (i == 0 || root[i - 1] == '/')
    && root[i] == '.'
    && (i + 1 == |root| || root[i + 1] == '/' ||
        (root[i + 1] == '.' && (i + 2 == |root| || root[i + 2] == '/')))
  }

  /**
   * A root that path cleaning leaves as it is: non-empty, no trailing
   * separator, no doubled separator, no `.` or `..` segment. For such a root,
   * joining it with the state directory and file name is plain concatenation.
   */
  predicate CleanRoot(root: string) {
    && root != []
    && root[|root| - 1] != '/'
    && (forall i :: 0 <= i < |root| - 1 ==> !(root[i] == '/' && root[i + 1] == '/'))
    && (forall i :: 0 <= i < |root| ==> !DotSegmentAt(root, i))
  }

  /** Distinct clean rig roots have distinct state files. */
  lemma StatePathInjective(root1: string, root2: string)
    requires CleanRoot(root1) && CleanRoot(root2)
    requires StatePath(root1) == StatePath(root2)
    ensures root1 == root2
  {
    var p := StatePath(root1);
    assert |root1| == |root2|;
    assert root1 == p[..|root1|] == root2;
  }

  /** The record synthesised for a rig whose state file does not exist. */
  function Fresh(rigName: string): (w: Witness)
    ensures w.rigName == rigName && w.state == Stopped && w.pid == 0
    ensures w.startedAt.None? && w.lastCheckAt.None? && w.monitoredPolecats == []
    ensures w.stats == ZERO_STATS
  {
    Witness(rigName, Stopped, 0, None, [], None, ZERO_STATS)
  }

  /**
   * What loading the state file `path` of rig `rigName` yields: a missing
   * file is a fresh stopped record, a read failure is an I/O error, and a
   * file that does not decode is a decode error.
   */
  function Load(files: map<string, StoredFile>, path: string, rigName: string): (r: Result<Witness, Error>)
    ensures r.Err? ==> r.error == IOError || r.error == DecodeError
    ensures r.Ok? ==> Canonical(r.value.state)
    ensures path !in files ==> r == Ok(Fresh(rigName))
    ensures path in files && files[path].Unreadable? ==> r == Err(IOError)
    ensures path in files && files[path].Unparseable? ==> r == Err(DecodeError)
    ensures path in files && files[path].Encoded? && !WellTyped(files[path].doc) ==> r == Err(DecodeError)
    ensures path in files && files[path].Encoded? ==> (r.Ok? <==> WellTyped(files[path].doc))
    ensures path in files && files[path].Encoded? && r.Ok? ==> Decode(files[path].doc) == Some(r.value)
  {
    if path !in files then Ok(Fresh(rigName))
    else match files[path]
      case Unreadable => Err(IOError)
      case Unparseable => Err(DecodeError)
      case Encoded(doc) =>
        match Decode(doc)
        case None => Err(DecodeError)
        case Some(w) => Ok(w)
  }

  /** A record written to `path` is the record loaded from it afterwards. */
  lemma SaveThenLoad(files: map<string, StoredFile>, path: string, rigName: string, w: Witness)
    requires Canonical(w.state)
    ensures Load(files[path := Encoded(Encode(w))], path, rigName) == Ok(w)
  {
    RoundTrip(w);
  }

  /** The record shows a running witness whose process exists. */
  predicate RecordedAlive(w: Witness, live: set<int>) {
    w.state == Running && w.pid > 0 && w.pid in live
  }

  /** The record shows a running witness whose process no longer exists. */
  predicate RecordedDead(w: Witness, live: set<int>) {
    w.state == Running && w.pid > 0 && w.pid !in live
  }

  /** A process id is recorded only for a running witness. */
  predicate PidMeansRunning(w: Witness) {
    w.pid > 0 ==> w.state == Running
  }

  /** The record marked stopped, with no process id and every other field kept; self-healing and `Stop` both produce it. */
  function Halted(w: Witness): (h: Witness)
    ensures h.state == Stopped && h.pid == 0
    ensures h.rigName == w.rigName && h.startedAt == w.startedAt && h.lastCheckAt == w.lastCheckAt
    ensures h.monitoredPolecats == w.monitoredPolecats && h.stats == w.stats
  {
    w.(state := Stopped, pid := 0)
  }

  /** The record after a start by process `pid` at `now` with roster `roster`. */
  function Started(w: Witness, pid: int, now: Time, roster: seq<string>): (s: Witness)
    ensures s.state == Running && s.pid == pid && s.startedAt == Some(now) && s.monitoredPolecats == roster
    ensures s.rigName == w.rigName && s.lastCheckAt == w.lastCheckAt && s.stats == w.stats
  {
    w.(state := Running, startedAt := Some(now), pid := pid, monitoredPolecats := roster)
  }

  /** The record after one health check at `now`: both check counters up by one. */
  function Checked(w: Witness, now: Time): (c: Witness)
    ensures c.lastCheckAt == Some(now)
    ensures c.stats.totalChecks == w.stats.totalChecks + 1 && c.stats.todayChecks == w.stats.todayChecks + 1
    ensures c.stats.totalNudges == w.stats.totalNudges && c.stats.totalEscalations == w.stats.totalEscalations
    ensures c.stats.todayNudges == w.stats.todayNudges
    ensures c.rigName == w.rigName && c.state == w.state && c.pid == w.pid
    ensures c.startedAt == w.startedAt && c.monitoredPolecats == w.monitoredPolecats
  {
    var stats := w.stats.(totalChecks := w.stats.totalChecks + 1, todayChecks := w.stats.todayChecks + 1);
    w.(lastCheckAt := Some(now), stats := stats)
  }

  /** Every transition keeps "a process id is recorded only while running". */
  lemma TransitionsKeepPidMeansRunning(w: Witness, pid: int, now: Time, roster: seq<string>)
    requires PidMeansRunning(w)
    ensures PidMeansRunning(Halted(w))
    ensures PidMeansRunning(Started(w, pid, now, roster))
    ensures PidMeansRunning(Checked(w, now))
  {
  }

  /** A start followed by a stop leaves a stopped record that remembers when it was started. */
  lemma StartThenStop(w: Witness, pid: int, now: Time, roster: seq<string>)
    ensures Halted(Started(w, pid, now, roster)).state == Stopped
    ensures Halted(Started(w, pid, now, roster)).pid == 0
    ensures Halted(Started(w, pid, now, roster)).startedAt == Some(now)
    ensures Halted(Started(w, pid, now, roster)).stats == w.stats
  {
  }

  /** Health checks never decrease a counter. */
  lemma {:induction false} ChecksNeverDecrease(w: Witness, times: seq<Time>)
    ensures ManyChecks(w, times).stats.totalChecks == w.stats.totalChecks + |times|
    ensures ManyChecks(w, times).stats.todayChecks == w.stats.todayChecks + |times|
    ensures ManyChecks(w, times).stats.totalNudges == w.stats.totalNudges
    ensures ManyChecks(w, times).stats.totalEscalations == w.stats.totalEscalations
    ensures ManyChecks(w, times).stats.todayNudges == w.stats.todayNudges
    decreases |times|
  {
    if times != [] {
      ChecksNeverDecrease(Checked(w, times[0]), times[1..]);
    }
  }

  /**
   * The record the monitoring loop holds after health checks at each of
   * `times` in turn: the last check time is the last tick's, and nothing but
   * the check time and the counters changes.
   */
  function ManyChecks(w: Witness, times: seq<Time>): (r: Witness)
    ensures r.lastCheckAt == if times == [] then w.lastCheckAt else Some(times[|times| - 1])
    ensures r.rigName == w.rigName && r.state == w.state && r.pid == w.pid
    ensures r.startedAt == w.startedAt && r.monitoredPolecats == w.monitoredPolecats
    decreases |times|
  {
    if times == [] then w else ManyChecks(Checked(w, times[0]), times[1..])
  }

  /** The lifecycle controller of one rig, over the file store and process table it sees. */
  class Manager {
    const rig: Rig
    const workDir: string
    /** The file store: what reading each path yields. */
    var files: map<string, StoredFile>
    /** Paths whose directory creation or write fails. */
    var readOnly: set<string>
    /** The process ids that currently exist. */
    var live: set<int>
    /** The process ids `Stop` has sent an interrupt to, in order. */
    var interrupted: seq<int>
    /** Every record a save was attempted for, in order, whether or not the write succeeded. */
    ghost var saveLog: seq<Witness>

    constructor (r: Rig, files0: map<string, StoredFile>, readOnly0: set<string>, live0: set<int>)
      ensures rig == r && workDir == r.path
      ensures files == files0 && readOnly == readOnly0 && live == live0
      ensures interrupted == [] && saveLog == []
    {
      rig := r;
      workDir := r.path;
      files := files0;
      readOnly := readOnly0;
      live := live0;
      interrupted := [];
      saveLog := [];
    }

    /** The state file of this rig. */
    function StateFile(): string {
      StatePath(rig.path)
    }

    /** The file store after an attempt to save `w`: replaced when the path is writable, unchanged otherwise. */
    function AfterSave(before: map<string, StoredFile>, w: Witness): map<string, StoredFile>
      reads this
    {
      if StateFile() in readOnly then before else before[StateFile() := Encoded(Encode(w))]
    }

    /** What an attempt to save reports. */
    function SaveOutcome(): Outcome<Error>
      reads this
    {
      if StateFile() in readOnly then Fail(IOError) else Pass
    }

    method LoadState() returns (r: Result<Witness, Error>)
      ensures r == Load(files, StateFile(), rig.name)
    {
      r := Load(files, StateFile(), rig.name);
    }

    method SaveState(w: Witness) returns (r: Outcome<Error>)
      modifies this`files, this`saveLog
      ensures saveLog == old(saveLog) + [w]
      ensures files == AfterSave(old(files), w)
      ensures r == SaveOutcome()
    {
      saveLog := saveLog + [w];
      var path := StateFile();
      if path in readOnly {
        return Fail(IOError);
      }
      files := files[path := Encoded(Encode(w))];
      r := Pass;
    }

    /**
     * The current record. A running record whose process has died is healed
     * to stopped and saved (a failed save is ignored); the polecat list is
     * always the rig's current roster, and is not saved.
     */
    method Status() returns (r: Result<Witness, Error>)
      modifies this`files, this`saveLog
      ensures var loaded := Load(old(files), StateFile(), rig.name);
        && (loaded.Err? ==> r == Err(loaded.error) && files == old(files) && saveLog == old(saveLog))
        && (loaded.Ok? && RecordedDead(loaded.value, live) ==>
              && r == Ok(Halted(loaded.value).(monitoredPolecats := rig.polecats))
              && saveLog == old(saveLog) + [Halted(loaded.value)]
              && files == AfterSave(old(files), Halted(loaded.value)))
        && (loaded.Ok? && !RecordedDead(loaded.value, live) ==>
              && r == Ok(loaded.value.(monitoredPolecats := rig.polecats))
              && files == old(files) && saveLog == old(saveLog))
    {
      var loaded := LoadState();
      if loaded.Err? {
        return Err(loaded.error);
      }
      var w := loaded.value;
      if w.state == Running && w.pid > 0 {
        if w.pid !in live {
          w := w.(state := Stopped);
          w := w.(pid := 0);
          var _ := SaveState(w);
        }
      }
      w := w.(monitoredPolecats := rig.polecats);
      r := Ok(w);
    }

    /**
     * Marks the witness running in process `ownPid` from `now`, unless a live
     * instance is already recorded. The hand-off to the monitoring loop is
     * not part of this model.
     */
    method Start(ownPid: int, now: Time) returns (r: Outcome<Error>)
      modifies this`files, this`saveLog
      ensures var loaded := Load(old(files), StateFile(), rig.name);
        && (loaded.Err? ==> r == Fail(loaded.error) && files == old(files) && saveLog == old(saveLog))
        && (loaded.Ok? && RecordedAlive(loaded.value, live) ==>
              r == Fail(ErrAlreadyRunning) && files == old(files) && saveLog == old(saveLog))
        && (loaded.Ok? && !RecordedAlive(loaded.value, live) ==>
              var started := Started(loaded.value, ownPid, now, rig.polecats);
              && r == SaveOutcome()
              && saveLog == old(saveLog) + [started]
              && files == AfterSave(old(files), started))
    {
      var loaded := LoadState();
      if loaded.Err? {
        return Fail(loaded.error);
      }
      var w := loaded.value;
      if w.state == Running && w.pid > 0 && w.pid in live {
        return Fail(ErrAlreadyRunning);
      }
      w := w.(state := Running);
      w := w.(startedAt := Some(now));
      w := w.(pid := ownPid);
      w := w.(monitoredPolecats := rig.polecats);
      r := SaveState(w);
    }

    /**
     * Marks a running witness stopped, first sending an interrupt to its
     * recorded process when that is another process.
     */
    method Stop(ownPid: int) returns (r: Outcome<Error>)
      modifies this`files, this`saveLog, this`interrupted
      ensures var loaded := Load(old(files), StateFile(), rig.name);
        && (loaded.Err? ==>
              r == Fail(loaded.error) && files == old(files) && saveLog == old(saveLog)
              && interrupted == old(interrupted))
        && (loaded.Ok? && loaded.value.state != Running ==>
              r == Fail(ErrNotRunning) && files == old(files) && saveLog == old(saveLog)
              && interrupted == old(interrupted))
        && (loaded.Ok? && loaded.value.state == Running ==>
              var w := loaded.value;
              && r == SaveOutcome()
              && saveLog == old(saveLog) + [Halted(w)]
              && files == AfterSave(old(files), Halted(w))
              && interrupted == old(interrupted) + (if w.pid > 0 && w.pid != ownPid then [w.pid] else []))
    {
      var loaded := LoadState();
      if loaded.Err? {
        return Fail(loaded.error);
      }
      var w := loaded.value;
      if w.state != Running {
        return Fail(ErrNotRunning);
      }
      if w.pid > 0 && w.pid != ownPid {
        interrupted := interrupted + [w.pid];
      }
      w := w.(state := Stopped);
      w := w.(pid := 0);
      r := SaveState(w);
    }

    /**
     * One tick of the monitoring loop on the record `w` it holds: stamps the
     * check time, counts the check and saves. The updated record is returned
     * whether or not the save succeeded, as the loop keeps it either way.
     */
    method HealthCheck(w: Witness, now: Time) returns (checked: Witness, r: Outcome<Error>)
      modifies this`files, this`saveLog
      ensures checked == Checked(w, now)
      ensures r == SaveOutcome()
      ensures saveLog == old(saveLog) + [checked]
      ensures files == AfterSave(old(files), checked)
    {
      checked := w.(lastCheckAt := Some(now));
      checked := checked.(stats := checked.stats.(totalChecks := checked.stats.totalChecks + 1));
      checked := checked.(stats := checked.stats.(todayChecks := checked.stats.todayChecks + 1));
      r := SaveState(checked);
    }
  }

  /**
   * Two starts in a row by a live process with a writable state file: when
   * the first succeeds, the second is refused and writes nothing.
   */
  method StartTwice(m: Manager, ownPid: int, t1: Time, t2: Time) returns (first: Outcome<Error>, second: Outcome<Error>)
    requires ownPid > 0 && ownPid in m.live && m.StateFile() !in m.readOnly
    modifies m
    ensures first == Pass ==> second == Fail(ErrAlreadyRunning)
    ensures first == Pass ==>
      var reloaded := Load(m.files, m.StateFile(), m.rig.name);
      reloaded.Ok? && reloaded.value.state == Running && reloaded.value.pid == ownPid
      && reloaded.value.startedAt == Some(t1)
  {
    var loadedBefore := Load(m.files, m.StateFile(), m.rig.name);
    first := m.Start(ownPid, t1);
    if first == Pass {
      var started := Started(loadedBefore.value, ownPid, t1, m.rig.polecats);
      SaveThenLoad(old(m.files), m.StateFile(), m.rig.name, started);
      var filesAfterFirst := m.files;
      second := m.Start(ownPid, t2);
      assert m.files == filesAfterFirst;
    } else {
      second := m.Start(ownPid, t2);
    }
  }

  /**
   * The process probe as written sends `Signal(nil)`, which the Unix process
   * API rejects because it is not a system signal number, so every pid reads
   * as dead. A manager using that probe is a manager whose `live` set is
   * empty: a running record is never alive and always heals.
   */
  lemma AsWrittenProbeSeesNoProcess(w: Witness)
    requires w.state == Running && w.pid > 0
    ensures RecordedDead(w, {}) && !RecordedAlive(w, {})
  {
  }

  /**
   * `StartTwice` with the probe as written: the second start is never
   * refused, and when the first succeeds the second succeeds too, although
   * the first start's process is still running.
   */
  method StartTwiceAsWritten(m: Manager, ownPid: int, t1: Time, t2: Time) returns (first: Outcome<Error>, second: Outcome<Error>)
    requires m.live == {} && m.StateFile() !in m.readOnly
    modifies m
    ensures second != Fail(ErrAlreadyRunning)
    ensures first == Pass ==> second == Pass
  {
    first := m.Start(ownPid, t1);
    var loaded := Load(m.files, m.StateFile(), m.rig.name);
    assert loaded.Ok? ==> !RecordedAlive(loaded.value, m.live);
    second := m.Start(ownPid, t2);
  }
}
