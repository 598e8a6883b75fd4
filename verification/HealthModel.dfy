/**
 The health record of a speaker: what one observation does to it, and what the whole record
 says about all that was reported of the speaker.
 */
module HealthModel {
  import opened Common

  type Address = string

  datatype LinkState = Unknown | Connected | Disconnected | Reconnecting | Unavailable

  datatype Failure = Failure(classification: string, detail: Option<string>, attempt: nat)

  /** The codec of a report: none given, one longer than the field takes, one that is not a
      codec name, or a codec name. */
  datatype Codec = Absent | Oversized | Unusable | Named(name: string)

  datatype Speaker = Speaker(
    state: LinkState,
    failure: Option<Failure>,
    cameFrom: Option<LinkState>,          // the state before the last observation
    attempt: nat,
    connects: nat,
    disconnects: nat,
    suppressedFlaps: nat,
    codec: Option<string>,
    linkReason: Option<string>)

  datatype Report =
    | Observe(state: LinkState, failure: Option<Failure>, attempt: nat, codec: Codec)
    | Flap(reason: Option<string>)
    | Negotiated(codec: Codec)

  const BLANK: Speaker := Speaker(Unknown, None, None, 0, 0, 0, 0, None, None)

  function OrBlank(record: Option<Speaker>): Speaker {
    if record.Some? then record.value else BLANK
  }

  function CodecAfter(codec: Codec, otherwise: Option<string>): Option<string> {
    match codec
    case Named(name) => Some(name)
    case Unusable => None
    case _ => otherwise
  }

  function ObserveSpeaker(previous: Option<Speaker>, state: LinkState, failure: Option<Failure>, attempt: nat, codec: Codec): Speaker {
    var base := OrBlank(previous);
    var up := state.Connected? && (previous.None? || !previous.value.state.Connected?);
    var down := state.Disconnected? && previous.Some? && previous.value.state.Connected?;
    Speaker(
      state,
      if failure.Some? then failure else if state.Connected? then None else base.failure,
      if previous.Some? then Some(base.state) else None,
      attempt,
      base.connects + (if up then 1 else 0),
      base.disconnects + (if down then 1 else 0),
      base.suppressedFlaps,
      CodecAfter(codec, base.codec),
      if failure.Some? then failure.value.detail else base.linkReason)
  }

  /** A report about one speaker. An observation with an oversized codec raises. */
  function Apply(previous: Option<Speaker>, report: Report): Option<Speaker> {
    match report
    case Observe(state, failure, attempt, codec) =>
      if codec.Oversized? then previous else Some(ObserveSpeaker(previous, state, failure, attempt, codec))
    case Flap(reason) =>
      var base := OrBlank(previous);
      Some(base.(suppressedFlaps := base.suppressedFlaps + 1,
                 linkReason := if reason.Some? && reason.value != "" then reason else base.linkReason))
    case Negotiated(codec) =>
      if codec.Named? then Some(OrBlank(previous).(codec := Some(codec.name))) else previous
  }

  function Lookup(speakers: map<Address, Speaker>, address: Address): Option<Speaker> {
    if address in speakers then Some(speakers[address]) else None
  }

  function Update(speakers: map<Address, Speaker>, address: Address, report: Report): map<Address, Speaker> {
    match Apply(Lookup(speakers, address), report)
    case Some(speaker) => speakers[address := speaker]
    case None => speakers
  }

  /** The registry after a log of reports about any speakers. */
  function Registry(log: seq<(Address, Report)>): map<Address, Speaker> {
    if log == [] then map[]
    else Update(Registry(log[..|log| - 1]), log[|log| - 1].0, log[|log| - 1].1)
  }

  /** The reports about one speaker, in order. */
  function Of(log: seq<(Address, Report)>, address: Address): seq<Report> {
    if log == [] then []
    else
      var last := log[|log| - 1];
      Of(log[..|log| - 1], address) + if last.0 == address then [last.1] else []
  }

  /** The record after a history of reports. */
  function Record(history: seq<Report>): Option<Speaker> {
    if history == [] then None else Apply(Record(history[..|history| - 1]), history[|history| - 1])
  }

  lemma RecordGrows(history: seq<Report>, report: Report)
    ensures Record(history + [report]) == Apply(Record(history), report)
  {
    assert (history + [report])[..|history|] == history;
  }

  // ---- What the history says -----------------------------------------------------

  predicate Observes(report: Report) {
    report.Observe? && !report.codec.Oversized?
  }

  /** The observed states, in order. Flap and codec reports observe nothing. */
  function States(history: seq<Report>): seq<LinkState> {
    if history == [] then []
    else
      var last := history[|history| - 1];
      States(history[..|history| - 1]) + if Observes(last) then [last.state] else []
  }

  /** The link comes up, is observed disconnected, or lapses: it was up and is then observed
      neither up nor disconnected. */
  datatype Edge = Up | Down | Lapse

  predicate IsEdge(states: seq<LinkState>, i: nat, edge: Edge)
    requires i < |states|
  {
    var wasUp := i > 0 && states[i - 1].Connected?;
    match edge
    case Up => !wasUp && states[i].Connected?
    case Down => wasUp && states[i].Disconnected?
    case Lapse => wasUp && !states[i].Connected? && !states[i].Disconnected?
  }

  function Edges(states: seq<LinkState>, edge: Edge): set<nat> {
    set i: nat | i < |states| && IsEdge(states, i, edge)
  }

  function Flaps(history: seq<Report>): set<nat> {
    set i: nat | i < |history| && history[i].Flap?
  }

  predicate IsFailing(report: Report) {
    Observes(report) && report.failure.Some?
  }

  predicate IsCleanUp(report: Report) {
    Observes(report) && report.state.Connected? && report.failure.None?
  }

  /** Report i failed, and neither a failure nor a clean connection followed it. */
  predicate FailureStands(history: seq<Report>, i: nat)
    requires i < |history|
  {
    && IsFailing(history[i])
    && forall j :: i < j < |history| ==> !IsFailing(history[j]) && !IsCleanUp(history[j])
  }

  predicate NamesCodec(report: Report) {
    !report.Flap? && report.codec.Named?
  }

  predicate WipesCodec(report: Report) {
    Observes(report) && report.codec.Unusable?
  }

  predicate CodecStands(history: seq<Report>, i: nat)
    requires i < |history|
  {
    && NamesCodec(history[i])
    && forall j :: i < j < |history| ==> !NamesCodec(history[j]) && !WipesCodec(history[j])
  }

  predicate GivesReason(report: Report) {
    IsFailing(report) || (report.Flap? && report.reason.Some? && report.reason.value != "")
  }

  function ReasonOf(report: Report): Option<string>
    requires GivesReason(report)
  {
    if report.Flap? then report.reason else report.failure.value.detail
  }

  predicate ReasonStands(history: seq<Report>, i: nat)
    requires i < |history|
  {
    GivesReason(history[i]) && forall j :: i < j < |history| ==> !GivesReason(history[j])
  }
}
