/**
 Binary audio frames: a 4-byte big-endian header length, the header, the audio.
 The index 4 + header length is computed in 32 bits and wraps, as it does in the program.
 */
module AudioFrames {
  import opened Prelude

  type Byte = b: int | 0 <= b < 256

  const UINT32 := 0x1_0000_0000

  // ---------------------------------------------------------------- 32-bit numbers

  function PutUint32(n: nat): seq<Byte>
    requires n < UINT32
  {
    var high := n / 0x100 / 0x100;
    [high / 0x100, high % 0x100, n / 0x100 % 0x100, n % 0x100]
  }

  function Uint32(b: seq<Byte>): nat
    requires |b| == 4
  {
    b[0] as int * 0x100_0000 + b[1] as int * 0x1_0000 + b[2] as int * 0x100 + b[3] as int
  }

  lemma Uint32RoundTrip(n: nat)
    requires n < UINT32
    ensures Uint32(PutUint32(n)) == n
  {
  }

  /** The most significant byte comes first: what does not fit the last byte moves one byte up. */
  lemma BigEndian(n: nat)
    requires n < UINT32
    ensures n < 0x100 ==> PutUint32(n) == [0, 0, 0, n]
    ensures PutUint32(n)[3] == n % 0x100 && PutUint32(n)[..3] == PutUint32(n / 0x100)[1..]
  {
  }

  lemma Uint32Bytes(b: seq<Byte>)
    requires |b| == 4
    ensures Uint32(b) < UINT32 && PutUint32(Uint32(b)) == b
  {
    var b0: int, b1: int, b2: int, b3: int := b[0], b[1], b[2], b[3];
    var n := Uint32(b);
    assert n / 0x100 == b0 * 0x1_0000 + b1 * 0x100 + b2 && n % 0x100 == b3;
    assert n / 0x100 / 0x100 == b0 * 0x100 + b1 && n / 0x100 % 0x100 == b2;
  }

  /** Where the audio starts, in 32-bit arithmetic. */
  function AudioStart(headerLength: nat): nat {
    (4 + headerLength) % UINT32
  }

  // ---------------------------------------------------------------- specification

  function Zeros(n: nat): seq<Byte> {
    seq(n, _ => 0)
  }

  /** The bytes of a frame; none when slicing the payload is out of range and the program panics. */
  function Encode(header: seq<Byte>, audio: seq<Byte>): Option<seq<Byte>> {
    var n := |header| % UINT32;
    if AudioStart(n) < 4 then None
    else Some(PutUint32(n) + header[..n] + audio + Zeros(|header| - n))
  }

  datatype Decoded = Frame(header: seq<Byte>, audio: seq<Byte>) | TooShort | HeaderTooLarge | Panic

  function Decode(data: seq<Byte>): Decoded {
    if |data| < 4 then TooShort
    else
      var n := Uint32(data[..4]);
      if n + 4 > |data| then HeaderTooLarge
      else if AudioStart(n) < 4 then Panic
      else
        assert AudioStart(n) <= n + 4;
        Frame(data[4..AudioStart(n)], data[AudioStart(n)..])
  }

  // ---------------------------------------------------------------- the encoder

  /** copy(dst[from:to], src): as many bytes as both have. */
  method Copy(dst: array<Byte>, from: nat, to: nat, src: seq<Byte>)
    requires from <= to <= dst.Length
    modifies dst
    ensures forall k :: 0 <= k < dst.Length ==>
      dst[k] == if from <= k < to && k - from < |src| then src[k - from] else old(dst[k])
  {
    var n := if to - from < |src| then to - from else |src|;
    for i := 0 to n
      invariant forall k :: 0 <= k < dst.Length ==>
        dst[k] == if from <= k < from + i then src[k - from] else old(dst[k])
    {
      dst[from + i] := src[i];
    }
  }

  method EncodeFrame(header: seq<Byte>, audio: seq<Byte>) returns (frame: Option<seq<Byte>>)
    ensures frame.Some? ==> |frame.value| == 4 + |header| + |audio|
    ensures frame.Some? ==>
      forall k :: 4 + |header| % UINT32 + |audio| <= k < |frame.value| ==> frame.value[k] == 0
    ensures |header| + 4 < UINT32 ==> frame == Some(PutUint32(|header|) + header + audio)
    ensures frame == Encode(header, audio)
  {
    if |header| + 4 < UINT32 {
      EncodeSmall(header, audio);
    }
    var headerLength := |header| % UINT32;
    var length := PutUint32(headerLength);
    assert |length| == 4;
    hide PutUint32;
    var payload := new Byte[4 + |header| + |audio|](_ => 0);
    Copy(payload, 0, 4, length);
    var start := (4 + headerLength) % UINT32;
    if start < 4 {
      return None;
    }
    assert start == 4 + headerLength;
    Copy(payload, 4, start, header);
    Copy(payload, start, payload.Length, audio);
    assert payload[..] == length + header[..headerLength] + audio + Zeros(|header| - headerLength);
    return Some(payload[..]);
  }

  method DecodeFrame(data: seq<Byte>) returns (r: Decoded)
    ensures r == Decode(data)
  {
    if |data| < 4 {
      return TooShort;
    }
    var headerLength := Uint32(data[..4]);
    if headerLength + 4 > |data| {
      return HeaderTooLarge;
    }
    var start := (4 + headerLength) % UINT32;
    if start < 4 {
      return Panic;
    }
    return Frame(data[4..start], data[start..]);
  }

  // ---------------------------------------------------------------- round trips

  lemma EncodeSmall(header: seq<Byte>, audio: seq<Byte>)
    requires |header| + 4 < UINT32
    ensures Encode(header, audio) == Some(PutUint32(|header|) + header + audio)
  {
    var n := |header| % UINT32;
    assert n == |header| && AudioStart(n) == 4 + n;
    assert header[..n] == header && Zeros(0) == [];
    assert PutUint32(n) + header + audio + [] == PutUint32(n) + header + audio;
  }

  lemma DecodeSmall(header: seq<Byte>, audio: seq<Byte>)
    requires |header| + 4 < UINT32
    ensures Decode(PutUint32(|header|) + header + audio) == Frame(header, audio)
  {
    var data := PutUint32(|header|) + header + audio;
    Uint32RoundTrip(|header|);
    hide PutUint32, Uint32;
    assert data[..4] == PutUint32(|header|);
    assert AudioStart(|header|) == 4 + |header|;
    assert data[4..4 + |header|] == header && data[4 + |header|..] == audio;
  }

  /** A length field that lost bits yields a shorter header. */
  lemma DecodeWrapped(n: nat, rest: seq<Byte>)
    requires n + 4 < UINT32
    ensures Decode(PutUint32(n) + rest).Frame? ==> |Decode(PutUint32(n) + rest).header| == n
  {
  }

  /** Decoding an encoded frame gives both parts back exactly when the header leaves room for its length in 32 bits. */
  lemma DecodeEncode(header: seq<Byte>, audio: seq<Byte>)
    ensures Encode(header, audio).Some? && Decode(Encode(header, audio).value) == Frame(header, audio)
       <==> |header| + 4 < UINT32
  {
    if |header| + 4 < UINT32 {
      EncodeSmall(header, audio);
      DecodeSmall(header, audio);
    } else if Encode(header, audio).Some? {
      var n := |header| % UINT32;
      var rest := header[..n] + audio + Zeros(|header| - n);
      assert Encode(header, audio).value == PutUint32(n) + rest;
      assert n < |header| && n + 4 < UINT32;
      DecodeWrapped(n, rest);
    }
  }

  /** Re-encoding what was decoded gives the original bytes. */
  lemma EncodeDecode(data: seq<Byte>)
    requires Decode(data).Frame?
    ensures Encode(Decode(data).header, Decode(data).audio) == Some(data)
  {
    var length := data[..4];
    var n := Uint32(length);
    Uint32Bytes(length);
    DecodeParts(data, n);
    hide PutUint32, Uint32, Decode, Encode;
    EncodeSmall(data[4..4 + n], data[4 + n..]);
    assert data == length + data[4..4 + n] + data[4 + n..];
  }

  lemma DecodeParts(data: seq<Byte>, n: nat)
    requires Decode(data).Frame? && n == Uint32(data[..4])
    ensures 4 + n <= |data| && 4 + n < UINT32 && Decode(data) == Frame(data[4..4 + n], data[4 + n..])
  {
  }

  /** Decoding is out of range for exactly these frames, all of at least 4 GiB. */
  lemma DecodePanics(data: seq<Byte>)
    ensures Decode(data) == Panic <==> |data| >= 4 && UINT32 <= Uint32(data[..4]) + 4 <= |data|
    ensures Decode(data) == Panic ==> |data| >= UINT32
  {
  }

  // ---------------------------------------------------------------- relaying user audio

  datatype Header = Header(kind: string, sessionId: string, segmentId: string)

  /** What the relay knows: its session and segment, those of the agent client, and the cached mapping of segments. */
  datatype Relay = Relay(
    sessionId: string, segmentId: string, mapping: map<string, string>,
    agentThere: bool, agentSessionId: string, agentSegmentId: string)

  datatype Relayed = Forwarded(frame: seq<Byte>) | Ignored | Refused | Crashed

  function RelayAudio(
    r: Relay, data: seq<Byte>, unmarshal: seq<Byte> -> Option<Header>, marshal: Header -> seq<Byte>): Relayed
  {
    match Decode(data)
    case TooShort => Ignored
    case HeaderTooLarge => Ignored
    case Panic => Crashed
    case Frame(bytes, audio) =>
      match unmarshal(bytes)
      case None => Refused
      case Some(h) =>
        if h.sessionId != r.sessionId || h.segmentId !in r.mapping then Refused
        else
          var sent := h.(segmentId := r.mapping[h.segmentId]);
          if r.segmentId != sent.segmentId then Refused
          else if !r.agentThere then Ignored
          else if r.agentSessionId != sent.sessionId || r.agentSegmentId != sent.segmentId then Refused
          else
            match Encode(marshal(sent), audio)
            case None => Crashed
            case Some(frame) => Forwarded(frame)
  }

  /** A frame that passes every check on the way to the encoder. */
  predicate Passes(r: Relay, data: seq<Byte>, unmarshal: seq<Byte> -> Option<Header>) {
    && Decode(data).Frame?
    && unmarshal(Decode(data).header).Some?
    && var h := unmarshal(Decode(data).header).value;
       && h.sessionId == r.sessionId == r.agentSessionId
       && h.segmentId in r.mapping && r.mapping[h.segmentId] == r.segmentId == r.agentSegmentId
       && r.agentThere
  }

  /** A frame right in every respect, while the session has no agent. */
  predicate NoAgent(r: Relay, data: seq<Byte>, unmarshal: seq<Byte> -> Option<Header>) {
    && Decode(data).Frame?
    && unmarshal(Decode(data).header).Some?
    && var h := unmarshal(Decode(data).header).value;
       && h.sessionId == r.sessionId && h.segmentId in r.mapping && r.mapping[h.segmentId] == r.segmentId
       && !r.agentThere
  }

  /** The header sent on: the kind the user named, under the relay's own session and current segment. */
  function SentHeader(r: Relay, data: seq<Byte>, unmarshal: seq<Byte> -> Option<Header>): Header
    requires Passes(r, data, unmarshal)
  {
    Header(unmarshal(Decode(data).header).value.kind, r.sessionId, r.segmentId)
  }

  lemma RelayCases(
    r: Relay, data: seq<Byte>, unmarshal: seq<Byte> -> Option<Header>, marshal: Header -> seq<Byte>)
    ensures var out := RelayAudio(r, data, unmarshal, marshal);
      if Passes(r, data, unmarshal) then
        var frame := Encode(marshal(SentHeader(r, data, unmarshal)), Decode(data).audio);
        out == if frame.Some? then Forwarded(frame.value) else Crashed
      else
        && !out.Forwarded? && (out == Crashed <==> Decode(data) == Panic)
        && (out == Ignored <==>
             Decode(data) == TooShort || Decode(data) == HeaderTooLarge || NoAgent(r, data, unmarshal))
  {
    hide Decode, Encode;
  }

  /**
   What the agent gets from a forwarded frame: the user's audio unchanged under the header sent, exactly when the bytes
   of that header leave room for their length; and the header itself when the codec reads those bytes back.
   */
  lemma RelayKeepsAudio(
    r: Relay, data: seq<Byte>, unmarshal: seq<Byte> -> Option<Header>, marshal: Header -> seq<Byte>)
    requires RelayAudio(r, data, unmarshal, marshal).Forwarded?
    ensures Passes(r, data, unmarshal)
    ensures var sent := SentHeader(r, data, unmarshal);
      var got := Decode(RelayAudio(r, data, unmarshal, marshal).frame);
      && (got == Frame(marshal(sent), Decode(data).audio) <==> |marshal(sent)| + 4 < UINT32)
      && (|marshal(sent)| + 4 < UINT32 && unmarshal(marshal(sent)) == Some(sent) ==>
           got.Frame? && got.audio == Decode(data).audio && unmarshal(got.header) == Some(sent))
  {
    RelayCases(r, data, unmarshal, marshal);
    DecodeEncode(marshal(SentHeader(r, data, unmarshal)), Decode(data).audio);
    hide Decode, Encode, RelayAudio;
  }

  /** The relay panics on no frame under 4 GiB, unless the header sent on has a length just below a multiple of 2^32. */
  lemma RelayIsSafe(
    r: Relay, data: seq<Byte>, unmarshal: seq<Byte> -> Option<Header>, marshal: Header -> seq<Byte>)
    requires |data| < UINT32
    ensures RelayAudio(r, data, unmarshal, marshal) == Crashed
       <==> Passes(r, data, unmarshal) && |marshal(SentHeader(r, data, unmarshal))| % UINT32 >= UINT32 - 4
  {
    DecodePanics(data);
    RelayCases(r, data, unmarshal, marshal);
    forall header, audio ensures Encode(header, audio).None? <==> |header| % UINT32 >= UINT32 - 4 {
      EncodePanics(header);
    }
    hide Decode, RelayAudio;
  }

  lemma EncodePanics(header: seq<Byte>)
    ensures forall audio :: Encode(header, audio).None? <==> |header| % UINT32 >= UINT32 - 4
  {
  }

  /** A codec, a relay and a frame for which audio is forwarded. */
  lemma ForwardingHappens(h: Header, audio: seq<Byte>)
    ensures exists r, data, unmarshal, marshal ::
      RelayAudio(r, data, unmarshal, marshal) == Forwarded(data) && Decode(data) == Frame([1], audio)
      && unmarshal(marshal(h)) == Some(h)
  {
    var unmarshal: seq<Byte> -> Option<Header> := _ => Some(h);
    var marshal: Header -> seq<Byte> := _ => [1];
    var r := Relay(h.sessionId, h.segmentId, map[h.segmentId := h.segmentId], true, h.sessionId, h.segmentId);
    var data := PutUint32(1) + [1] + audio;
    DecodeSmall([1], audio);
    EncodeSmall([1], audio);
    hide Decode, Encode, PutUint32;
    assert unmarshal([1]) == Some(h) && marshal(h) == [1];
    RelayCases(r, data, unmarshal, marshal);
    assert SentHeader(r, data, unmarshal) == h;
    hide RelayAudio;
    assert RelayAudio(r, data, unmarshal, marshal) == Forwarded(data);
  }

  // ---------------------------------------------------------------- relaying the interviewer's audio

  /** What the agent's frames carry in their header. */
  datatype AgentHeader = AgentHeader(kind: string, sessionId: string)

  /** The way of a frame from the agent to the user of a session; another session's frame closes the connection. */
  function RelayToUser(
    sessionId: string, data: seq<Byte>, unmarshal: seq<Byte> -> Option<AgentHeader>, marshal: AgentHeader -> seq<Byte>)
    : Relayed
  {
    match Decode(data)
    case TooShort => Ignored
    case HeaderTooLarge => Ignored
    case Panic => Crashed
    case Frame(bytes, audio) =>
      match unmarshal(bytes)
      case None => Ignored
      case Some(h) =>
        if h.sessionId != sessionId then Refused
        else
          match Encode(marshal(AgentHeader(h.kind, h.sessionId)), audio)
          case None => Crashed
          case Some(frame) => Forwarded(frame)
  }

  /** A frame of the session with a header that can be read. */
  predicate PassesToUser(sessionId: string, data: seq<Byte>, unmarshal: seq<Byte> -> Option<AgentHeader>) {
    && Decode(data).Frame?
    && unmarshal(Decode(data).header).Some?
    && unmarshal(Decode(data).header).value.sessionId == sessionId
  }

  /** The outcome for every frame: sent on as encoded, dropped, or refused because it names another session. */
  lemma RelayToUserCases(
    sessionId: string, data: seq<Byte>, unmarshal: seq<Byte> -> Option<AgentHeader>, marshal: AgentHeader -> seq<Byte>)
    ensures var out := RelayToUser(sessionId, data, unmarshal, marshal);
      && (PassesToUser(sessionId, data, unmarshal) ==>
           var frame := Encode(marshal(AgentHeader(unmarshal(Decode(data).header).value.kind, sessionId)),
                               Decode(data).audio);
           out == if frame.Some? then Forwarded(frame.value) else Crashed)
      && (Decode(data).Frame? && unmarshal(Decode(data).header).Some? && !PassesToUser(sessionId, data, unmarshal) ==>
           out == Refused)
      && (Decode(data).Frame? && unmarshal(Decode(data).header).None? ==> out == Ignored)
      && (Decode(data) == TooShort || Decode(data) == HeaderTooLarge ==> out == Ignored)
      && (Decode(data) == Panic ==> out == Crashed)
  {
    hide Decode, Encode;
  }

  /** What the user gets from a forwarded frame: the interviewer's audio unchanged, with the limit of the other way. */
  lemma RelayToUserKeepsAudio(
    sessionId: string, data: seq<Byte>, unmarshal: seq<Byte> -> Option<AgentHeader>, marshal: AgentHeader -> seq<Byte>)
    requires RelayToUser(sessionId, data, unmarshal, marshal).Forwarded?
    ensures PassesToUser(sessionId, data, unmarshal)
    ensures var sent := unmarshal(Decode(data).header).value;
      var got := Decode(RelayToUser(sessionId, data, unmarshal, marshal).frame);
      && sent.sessionId == sessionId
      && (got == Frame(marshal(sent), Decode(data).audio) <==> |marshal(sent)| + 4 < UINT32)
      && (|marshal(sent)| + 4 < UINT32 && unmarshal(marshal(sent)) == Some(sent) ==>
           got.Frame? && got.audio == Decode(data).audio && unmarshal(got.header) == Some(sent))
  {
    DecodeEncode(marshal(unmarshal(Decode(data).header).value), Decode(data).audio);
    hide Decode, Encode;
  }

  /** Nor does this relay panic on a frame under 4 GiB, with the same exception. */
  lemma RelayToUserIsSafe(
    sessionId: string, data: seq<Byte>, unmarshal: seq<Byte> -> Option<AgentHeader>, marshal: AgentHeader -> seq<Byte>)
    requires |data| < UINT32
    ensures RelayToUser(sessionId, data, unmarshal, marshal) == Crashed <==>
      && PassesToUser(sessionId, data, unmarshal)
      && |marshal(unmarshal(Decode(data).header).value)| % UINT32 >= UINT32 - 4
  {
    DecodePanics(data);
    if PassesToUser(sessionId, data, unmarshal) {
      EncodePanics(marshal(unmarshal(Decode(data).header).value));
    }
    hide Decode, Encode;
  }
}
