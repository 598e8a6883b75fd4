/** The registry object, proved to take the model's step for every report. */
module HealthRegistry {
  import opened Common
  import Model = HealthModel

  class HealthRegistry {
    var speakers: map<Model.Address, Model.Speaker>

    constructor ()
      ensures speakers == Model.Registry([])
    {
      speakers := map[];
    }

    /** With a codec that the field does not take this raises, and nothing changes. */
    method ObserveSpeaker(address: Model.Address, state: Model.LinkState, failure: Option<Model.Failure>, attempt: nat, codec: Model.Codec)
      modifies this
      ensures speakers == Model.Update(old(speakers), address, Model.Observe(state, failure, attempt, codec))
    {
      if codec.Oversized? {
        return;
      }
      var previous := Model.Lookup(speakers, address);
      var wasUp := previous.Some? && previous.value.state.Connected?;
      var base := if previous.Some? then previous.value else Model.BLANK;
      var connects, disconnects := base.connects, base.disconnects;
      if state.Connected? && !wasUp {
        connects := connects + 1;
      }
      if state.Disconnected? && wasUp {
        disconnects := disconnects + 1;
      }
      var stored := failure;
      if failure.None? && !state.Connected? {
        stored := base.failure;
      }
      var cameFrom := if previous.Some? then Some(base.state) else None;
      var known := if codec.Named? then Some(codec.name) else if codec.Unusable? then None else base.codec;
      var reason := if failure.Some? then failure.value.detail else base.linkReason;
      var speaker := Model.Speaker(state, stored, cameFrom, attempt, connects, disconnects, base.suppressedFlaps, known, reason);
      speakers := speakers[address := speaker];
    }

    method RecordSuppressedFlap(address: Model.Address, reason: Option<string>)
      modifies this
      ensures speakers == Model.Update(old(speakers), address, Model.Flap(reason))
    {
      var base := if address in speakers then speakers[address] else Model.BLANK;
      var detail := if reason.Some? && reason.value != "" then reason else base.linkReason;
      speakers := speakers[address := base.(suppressedFlaps := base.suppressedFlaps + 1, linkReason := detail)];
    }

    method RecordSpeakerCodec(address: Model.Address, codec: Model.Codec)
      modifies this
      ensures speakers == Model.Update(old(speakers), address, Model.Negotiated(codec))
    {
      if !codec.Named? {
        return;
      }
      var base := if address in speakers then speakers[address] else Model.BLANK;
      speakers := speakers[address := base.(codec := Some(codec.name))];
    }
  }
}
