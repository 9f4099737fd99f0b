/** The shared per-source runtime object and the connection state it publishes. */
module State {
  import opened Bytes
  import opened Wrappers
  import opened Config
  import opened Multiplex

  datatype ConnectionState =
    | Disabled | Disconnected | Connecting | Handshaking | Connected
    | ReconnectWait | ReconnectWaitDegraded | Stopping

  class SourceRuntime {
    const capacity: nat            // of the source's broadcast channel
    var config: SourceConfig
    var raw: seq<RawFrame>         // everything sent to that channel
    var sequence: U64
    var packets: nat
    var bytes: nat
    var state: ConnectionState
    var connectedSinceMs: nat      // 0 when not connected

    constructor (config: SourceConfig, capacity: nat)
      ensures this.config == config && this.capacity == capacity
      ensures raw == [] && sequence == 0 && packets == 0 && bytes == 0
      ensures state == Disconnected && connectedSinceMs == 0
    {
      this.capacity := capacity;
      this.config := config;
      raw := [];
      sequence, packets, bytes := 0, 0, 0;
      state := Disconnected;
      connectedSinceMs := 0;
    }

    /** As `set_disabled` leaves it. */
    predicate Stopped()
      reads this`state, this`connectedSinceMs
    {
      state == Disabled && connectedSinceMs == 0
    }

    method UpdateConfig(source: SourceConfig)
      modifies this`config
      ensures config == source
    {
      config := source;
    }

    method RecordPacket(size: nat)
      modifies this`packets, this`bytes
      ensures packets == old(packets) + 1 && bytes == old(bytes) + size
    {
      packets := packets + 1;
      bytes := bytes + size;
    }

    /** The counter's value, which moves on and wraps around. */
    method NextSequence() returns (sequence: U64)
      modifies this`sequence
      ensures sequence == old(this.sequence) && this.sequence == (old(this.sequence) + 1) % U64_SIZE
    {
      sequence := this.sequence;
      this.sequence := (this.sequence + 1) % U64_SIZE;
    }

    method SendRaw(frame: RawFrame)
      modifies this`raw
      ensures raw == old(raw) + [frame]
    {
      raw := raw + [frame];
    }

    method SetState(s: ConnectionState)
      modifies this`state
      ensures state == s
    {
      state := s;
    }

    method MarkConnected(nowMs: nat)
      modifies this`connectedSinceMs
      ensures connectedSinceMs == nowMs
    {
      connectedSinceMs := nowMs;
    }

    method MarkDisconnected()
      modifies this`connectedSinceMs
      ensures connectedSinceMs == 0
    {
      connectedSinceMs := 0;
    }

    method SetDisabled()
      modifies this`connectedSinceMs, this`state
      ensures connectedSinceMs == 0 && state == Disabled && Stopped()
    {
      MarkDisconnected();
      SetState(Disabled);
    }
  }
}
