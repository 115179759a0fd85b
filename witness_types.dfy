/**
 * The witness record of one rig (internal/witness/types.go) and its
 * persisted key/value form.
 *
 * The persisted form follows the record's field tags: `rig_name`, `state`
 * and `stats` are always written, `stats` always with its five counters;
 * `pid`, `started_at`, `monitored_polecats` and `last_check_at` carry
 * `omitempty` and are left out when zero, absent or empty. Decoding starts
 * from the zero record, so a missing key (or an explicit null) leaves the
 * zero value in place, and a key holding a value of the wrong kind makes
 * the whole decode fail.
 */
module WitnessTypes {
  import opened Wrappers

  /** An instant, kept opaque: the model only stores and compares them. */
  type Time = int

  /**
   * The running state. In the source the type is a string with three
   * declared values; any other string read back from a file is kept as
   * `Unrecognised`, just as the source keeps it.
   */
  datatype State = Stopped | Running | Paused | Unrecognised(name: string)

  const STOPPED_NAME := "stopped"
  const RUNNING_NAME := "running"
  const PAUSED_NAME := "paused"

  /** The string a state is stored as. */
  function StateName(s: State): string {
    match s
    case Stopped => STOPPED_NAME
    case Running => RUNNING_NAME
    case Paused => PAUSED_NAME
    case Unrecognised(n) => n
  }

  /** A state in the form decoding produces: `Unrecognised` never holds a declared name. */
  predicate Canonical(s: State) {
    s.Unrecognised? ==> s.name != STOPPED_NAME && s.name != RUNNING_NAME && s.name != PAUSED_NAME
  }

  /** The state a stored string stands for. */
  function ParseState(name: string): (s: State)
    ensures Canonical(s)
    ensures StateName(s) == name
  {
    if name == STOPPED_NAME then Stopped
    else if name == RUNNING_NAME then Running
    else if name == PAUSED_NAME then Paused
    else Unrecognised(name)
  }

  /** The three declared states have three distinct names, and each name parses back to its state. */
  lemma DeclaredStates()
    ensures StateName(Stopped) != StateName(Running)
    ensures StateName(Running) != StateName(Paused)
    ensures StateName(Stopped) != StateName(Paused)
    ensures forall s: State :: !s.Unrecognised? ==> ParseState(StateName(s)) == s
  {
  }

  /** Storing a canonical state and reading it back gives the same state. */
  lemma StateRoundTrip(s: State)
    requires Canonical(s)
    ensures ParseState(StateName(s)) == s
  {
  }

  /** Cumulative statistics of a witness. */
  datatype WitnessStats = WitnessStats(
    totalChecks: int,
    totalNudges: int,
    totalEscalations: int,
    todayChecks: int,
    todayNudges: int)

  /** The statistics of a zero-valued record. */
  const ZERO_STATS := WitnessStats(0, 0, 0, 0, 0)

  /** The persisted lifecycle record of the witness of one rig. */
  datatype Witness = Witness(
    rigName: string,
    state: State,
    pid: int,
    startedAt: Option<Time>,
    monitoredPolecats: seq<string>,
    lastCheckAt: Option<Time>,
    stats: WitnessStats)

  /** A value in the persisted key/value form. */
  datatype Value =
    | Null
    | Str(text: string)
    | Num(number: int)
    | Stamp(at: Time)
    | List(items: seq<string>)
    | Object(members: map<string, Value>)

  /** A persisted record: its top-level keys and their values. */
  type Document = map<string, Value>

  const RIG_NAME_KEY := "rig_name"
  const STATE_KEY := "state"
  const PID_KEY := "pid"
  const STARTED_AT_KEY := "started_at"
  const POLECATS_KEY := "monitored_polecats"
  const LAST_CHECK_AT_KEY := "last_check_at"
  const STATS_KEY := "stats"

  const TOTAL_CHECKS_KEY := "total_checks"
  const TOTAL_NUDGES_KEY := "total_nudges"
  const TOTAL_ESCALATIONS_KEY := "total_escalations"
  const TODAY_CHECKS_KEY := "today_checks"
  const TODAY_NUDGES_KEY := "today_nudges"

  const RECORD_KEYS: set<string> :=
    {RIG_NAME_KEY, STATE_KEY, PID_KEY, STARTED_AT_KEY, POLECATS_KEY, LAST_CHECK_AT_KEY, STATS_KEY}
  const STATS_KEYS: set<string> :=
    {TOTAL_CHECKS_KEY, TOTAL_NUDGES_KEY, TOTAL_ESCALATIONS_KEY, TODAY_CHECKS_KEY, TODAY_NUDGES_KEY}

  /** The statistics object: every counter, always. */
  function EncodeStats(st: WitnessStats): (m: map<string, Value>)
    ensures m.Keys == STATS_KEYS
    ensures m[TOTAL_CHECKS_KEY] == Num(st.totalChecks)
    ensures m[TOTAL_NUDGES_KEY] == Num(st.totalNudges)
    ensures m[TOTAL_ESCALATIONS_KEY] == Num(st.totalEscalations)
    ensures m[TODAY_CHECKS_KEY] == Num(st.todayChecks)
    ensures m[TODAY_NUDGES_KEY] == Num(st.todayNudges)
  {
    map[TOTAL_CHECKS_KEY := Num(st.totalChecks),
        TOTAL_NUDGES_KEY := Num(st.totalNudges),
        TOTAL_ESCALATIONS_KEY := Num(st.totalEscalations),
        TODAY_CHECKS_KEY := Num(st.todayChecks),
        TODAY_NUDGES_KEY := Num(st.todayNudges)]
  }

  /** The persisted form of a record. */
  function Encode(w: Witness): (d: Document)
    ensures d.Keys <= RECORD_KEYS
    ensures RIG_NAME_KEY in d && d[RIG_NAME_KEY] == Str(w.rigName)
    ensures STATE_KEY in d && d[STATE_KEY] == Str(StateName(w.state))
    ensures STATS_KEY in d && d[STATS_KEY] == Object(EncodeStats(w.stats))
    ensures PID_KEY in d <==> w.pid != 0
    ensures PID_KEY in d ==> d[PID_KEY] == Num(w.pid)
    ensures STARTED_AT_KEY in d <==> w.startedAt.Some?
    ensures STARTED_AT_KEY in d ==> d[STARTED_AT_KEY] == Stamp(w.startedAt.value)
    ensures POLECATS_KEY in d <==> w.monitoredPolecats != []
    ensures POLECATS_KEY in d ==> d[POLECATS_KEY] == List(w.monitoredPolecats)
    ensures LAST_CHECK_AT_KEY in d <==> w.lastCheckAt.Some?
    ensures LAST_CHECK_AT_KEY in d ==> d[LAST_CHECK_AT_KEY] == Stamp(w.lastCheckAt.value)
  {
    var always := map[RIG_NAME_KEY := Str(w.rigName),
                      STATE_KEY := Str(StateName(w.state)),
                      STATS_KEY := Object(EncodeStats(w.stats))];
    var d1 := if w.pid != 0 then always[PID_KEY := Num(w.pid)] else always;
    var d2 := if w.startedAt.Some? then d1[STARTED_AT_KEY := Stamp(w.startedAt.value)] else d1;
    var d3 := if w.monitoredPolecats != [] then d2[POLECATS_KEY := List(w.monitoredPolecats)] else d2;
    if w.lastCheckAt.Some? then d3[LAST_CHECK_AT_KEY := Stamp(w.lastCheckAt.value)] else d3
  }

  /** The kind of value a field of the record is stored as. */
  datatype Kind = TextKind | NumberKind | StampKind | ListKind | ObjectKind

  predicate HasKind(v: Value, k: Kind) {
    match k
    case TextKind => v.Str?
    case NumberKind => v.Num?
    case StampKind => v.Stamp?
    case ListKind => v.List?
    case ObjectKind => v.Object?
  }

  /** Whether the value under `key`, if any, is null or of kind `k`. */
  predicate Fits(m: map<string, Value>, key: string, k: Kind) {
    key in m ==> m[key].Null? || HasKind(m[key], k)
  }

  /** Whether every known key holds a value decoding can store in its field. */
  predicate WellTyped(d: Document) {
    && Fits(d, RIG_NAME_KEY, TextKind)
    && Fits(d, STATE_KEY, TextKind)
    && Fits(d, PID_KEY, NumberKind)
    && Fits(d, STARTED_AT_KEY, StampKind)
    && Fits(d, POLECATS_KEY, ListKind)
    && Fits(d, LAST_CHECK_AT_KEY, StampKind)
    && Fits(d, STATS_KEY, ObjectKind)
    && (STATS_KEY in d && d[STATS_KEY].Object? ==> StatsWellTyped(d[STATS_KEY].members))
  }

  predicate StatsWellTyped(m: map<string, Value>) {
    && Fits(m, TOTAL_CHECKS_KEY, NumberKind)
    && Fits(m, TOTAL_NUDGES_KEY, NumberKind)
    && Fits(m, TOTAL_ESCALATIONS_KEY, NumberKind)
    && Fits(m, TODAY_CHECKS_KEY, NumberKind)
    && Fits(m, TODAY_NUDGES_KEY, NumberKind)
  }

  /*
   * What a decoded field holds for the value under `key`: the value itself
   * when it has the field's kind, the zero value when the key is missing or null.
   */

  predicate HoldsText(m: map<string, Value>, key: string, t: string) {
    if key in m && m[key].Str? then t == m[key].text else t == ""
  }

  predicate HoldsNumber(m: map<string, Value>, key: string, n: int) {
    if key in m && m[key].Num? then n == m[key].number else n == 0
  }

  predicate HoldsStamp(m: map<string, Value>, key: string, t: Option<Time>) {
    if key in m && m[key].Stamp? then t == Some(m[key].at) else t == None
  }

  predicate HoldsList(m: map<string, Value>, key: string, xs: seq<string>) {
    if key in m && m[key].List? then xs == m[key].items else xs == []
  }

  predicate HoldsStats(m: map<string, Value>, key: string, st: WitnessStats) {
    if key in m && m[key].Object? then
      var counters := m[key].members;
      && HoldsNumber(counters, TOTAL_CHECKS_KEY, st.totalChecks)
      && HoldsNumber(counters, TOTAL_NUDGES_KEY, st.totalNudges)
      && HoldsNumber(counters, TOTAL_ESCALATIONS_KEY, st.totalEscalations)
      && HoldsNumber(counters, TODAY_CHECKS_KEY, st.todayChecks)
      && HoldsNumber(counters, TODAY_NUDGES_KEY, st.todayNudges)
    else st == ZERO_STATS
  }

  function DecodeText(m: map<string, Value>, key: string): Option<string> {
    if key !in m then Some("")
    else match m[key]
      case Null => Some("")
      case Str(t) => Some(t)
      case _ => None
  }

  function DecodeNumber(m: map<string, Value>, key: string): Option<int> {
    if key !in m then Some(0)
    else match m[key]
      case Null => Some(0)
      case Num(n) => Some(n)
      case _ => None
  }

  function DecodeStamp(m: map<string, Value>, key: string): Option<Option<Time>> {
    if key !in m then Some(None)
    else match m[key]
      case Null => Some(None)
      case Stamp(t) => Some(Some(t))
      case _ => None
  }

  function DecodeList(m: map<string, Value>, key: string): Option<seq<string>> {
    if key !in m then Some([])
    else match m[key]
      case Null => Some([])
      case List(xs) => Some(xs)
      case _ => None
  }

  function DecodeStats(m: map<string, Value>, key: string): Option<WitnessStats> {
    if key !in m then Some(ZERO_STATS)
    else match m[key]
      case Null => Some(ZERO_STATS)
      case Object(fields) =>
        var totalChecks :- DecodeNumber(fields, TOTAL_CHECKS_KEY);
        var totalNudges :- DecodeNumber(fields, TOTAL_NUDGES_KEY);
        var totalEscalations :- DecodeNumber(fields, TOTAL_ESCALATIONS_KEY);
        var todayChecks :- DecodeNumber(fields, TODAY_CHECKS_KEY);
        var todayNudges :- DecodeNumber(fields, TODAY_NUDGES_KEY);
        Some(WitnessStats(totalChecks, totalNudges, totalEscalations, todayChecks, todayNudges))
      case _ => None
  }

  /**
   * Reads a record back from its persisted form. Unknown keys are ignored;
   * decoding fails exactly when a known key holds a value of the wrong kind.
   */
  function Decode(d: Document): (r: Option<Witness>)
    ensures r.Some? <==> WellTyped(d)
    ensures r.Some? ==> Canonical(r.value.state)
    ensures r.Some? ==> HoldsText(d, RIG_NAME_KEY, r.value.rigName)
    ensures r.Some? ==> HoldsText(d, STATE_KEY, StateName(r.value.state))
    ensures r.Some? ==> HoldsNumber(d, PID_KEY, r.value.pid)
    ensures r.Some? ==> HoldsStamp(d, STARTED_AT_KEY, r.value.startedAt)
    ensures r.Some? ==> HoldsList(d, POLECATS_KEY, r.value.monitoredPolecats)
    ensures r.Some? ==> HoldsStamp(d, LAST_CHECK_AT_KEY, r.value.lastCheckAt)
    ensures r.Some? ==> HoldsStats(d, STATS_KEY, r.value.stats)
    ensures r.Some? && PID_KEY !in d ==> r.value.pid == 0
    ensures r.Some? && STARTED_AT_KEY !in d ==> r.value.startedAt.None?
    ensures r.Some? && POLECATS_KEY !in d ==> r.value.monitoredPolecats == []
    ensures r.Some? && LAST_CHECK_AT_KEY !in d ==> r.value.lastCheckAt.None?
    ensures r.Some? && STATS_KEY !in d ==> r.value.stats == ZERO_STATS
  {
    var rigName :- DecodeText(d, RIG_NAME_KEY);
    var stateName :- DecodeText(d, STATE_KEY);
    var pid :- DecodeNumber(d, PID_KEY);
    var startedAt :- DecodeStamp(d, STARTED_AT_KEY);
    var polecats :- DecodeList(d, POLECATS_KEY);
    var lastCheckAt :- DecodeStamp(d, LAST_CHECK_AT_KEY);
    var stats :- DecodeStats(d, STATS_KEY);
    Some(Witness(rigName, ParseState(stateName), pid, startedAt, polecats, lastCheckAt, stats))
  }

  /** Decoding the persisted form of a record gives back every field of it. */
  lemma RoundTrip(w: Witness)
    requires Canonical(w.state)
    ensures Decode(Encode(w)) == Some(w)
  {
    var d := Encode(w);
    var stats := EncodeStats(w.stats);
    assert d[STATS_KEY] == Object(stats);
    assert DecodeStats(d, STATS_KEY) == Some(w.stats);
    assert DecodeText(d, RIG_NAME_KEY) == Some(w.rigName);
    assert DecodeText(d, STATE_KEY) == Some(StateName(w.state));
    StateRoundTrip(w.state);
    assert DecodeNumber(d, PID_KEY) == Some(w.pid);
    assert DecodeStamp(d, STARTED_AT_KEY) == Some(w.startedAt);
    assert DecodeList(d, POLECATS_KEY) == Some(w.monitoredPolecats);
    assert DecodeStamp(d, LAST_CHECK_AT_KEY) == Some(w.lastCheckAt);
  }

  /** An empty document decodes to the zero record (an empty rig name and an empty state string). */
  lemma EmptyDocument()
    ensures Decode(map[]) == Some(Witness("", Unrecognised(""), 0, None, [], None, ZERO_STATS))
  {
  }
}
