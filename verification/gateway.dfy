/** What the gateway publishes of each poll, which state changes it records, and
    which client writes it accepts (src/gateway/server.py). */
module GatewayServer {
  import opened Wrappers
  import opened Numbers
  import opened Binary32
  import opened Model
  import opened Codec
  import I = ImageTable
  import S = Sampling

  datatype Reading = Good(words: seq<int>, value: Float) | Bad

  /** What a node shows: nothing polled yet, a value, a state, or a bad status. */
  datatype Shown = Unset | Live(value: Float) | InState(code: int) | Stale

  /** All the gateway keeps of one signal; `transitions` are the codes it has
      stamped LastTransition with, oldest first. */
  datatype NodeState = NodeState(lastWords: Option<seq<int>>, lastCode: Option<int>, shown: Shown, transitions: seq<int>)

  const UNPOLLED := NodeState(None, None, Unset, [])

  /** Python's int(): raises for what is not a finite number. */
  function IntOf(v: Float): Option<int> {
    if IsFinite(v) then Some(Trunc(ToReal(v))) else None
  }

  /** Publishing this reading raises. */
  predicate Raises(states: Option<map<int, string>>, r: Reading) {
    states.Some? && r.Good? && IntOf(r.value).None?
  }

  function Published(n: NodeState, states: Option<map<int, string>>, r: Reading): NodeState {
    match r
    case Bad => n.(lastWords := None, lastCode := if states.Some? then None else n.lastCode, shown := Stale)
    case Good(words, value) =>
      if states.None? then n.(lastWords := Some(words), shown := Live(value))
      else match IntOf(value)
        case None => n.(lastWords := Some(words))
        case Some(code) =>
          if code !in states.value then n.(lastWords := Some(words), lastCode := None, shown := Stale)
          else NodeState(Some(words), Some(code), InState(code),
                         if n.lastCode == Some(code) then n.transitions else n.transitions + [code])
  }

  datatype WriteStatus = Accepted(words: seq<int>) | BadWaitingForInitialData | BadOutOfRange | Raised(error: CodecError)

  function WriteAnswer(n: NodeState, m: Mapping, v: Float, meta: Meta): WriteStatus
  {
    if n.lastWords.None? then BadWaitingForInitialData
    else match Encode(m, v, meta)
      case Ok(words) => Accepted(words)
      case Err(StructError) => BadOutOfRange
      case Err(other) => Raised(other)
  }

  class Gateway {
    const signals: map<string, Signal>
    const meta: Meta
    var lastWords: map<string, Option<seq<int>>>
    var lastStateCode: map<string, Option<int>>
    var shown: map<string, Shown>
    var transitions: map<string, seq<int>>
    /** The writes handed to tasks of their own: address and words. */
    var pushed: seq<(int, seq<int>)>

    predicate Valid()
      reads this
    {
      lastWords.Keys == signals.Keys && lastStateCode.Keys == signals.Keys
      && shown.Keys == signals.Keys && transitions.Keys == signals.Keys
    }

    function Node(name: string): NodeState
      requires Valid() && name in signals
      reads this
    {
      NodeState(lastWords[name], lastStateCode[name], shown[name], transitions[name])
    }

    constructor (signals: map<string, Signal>, meta: Meta)
      ensures Valid() && this.signals == signals && this.meta == meta && pushed == []
      ensures forall name :: name in signals ==> Node(name) == UNPOLLED
    {
      this.signals, this.meta := signals, meta;
      lastWords := map name | name in signals :: None;
      lastStateCode := map name | name in signals :: None;
      shown := map name | name in signals :: Unset;
      transitions := map name | name in signals :: [];
      pushed := [];
    }

    method Publish(name: string, r: Reading) returns (raised: bool)
      requires Valid() && name in signals
      modifies this
      ensures Valid() && pushed == old(pushed)
      ensures raised == Raises(signals[name].states, r)
      ensures Node(name) == Published(old(Node(name)), signals[name].states, r)
      ensures r.Bad? ==> Node(name).shown == Stale && Node(name).lastWords == None
      ensures r.Good? ==> Node(name).lastWords == Some(r.words)
      ensures !raised ==> Displays(signals[name].states, Polled(r), Node(name).shown)
      ensures raised ==> Node(name) == old(Node(name)).(lastWords := Node(name).lastWords)
      ensures forall other :: other in signals && other != name ==> Node(other) == old(Node(other))
    {
      if signals[name].states.Some? {
        raised := PublishState(name, r);
        return;
      }
      if r.Good? {
        lastWords := lastWords[name := Some(r.words)];
        shown := shown[name := Live(r.value)];
      } else {
        lastWords := lastWords[name := None];
        shown := shown[name := Stale];
      }
      raised := false;
    }

    method PublishState(name: string, r: Reading) returns (raised: bool)
      requires Valid() && name in signals && signals[name].states.Some?
      modifies this
      ensures Valid() && pushed == old(pushed)
      ensures raised == Raises(signals[name].states, r)
      ensures Node(name) == Published(old(Node(name)), signals[name].states, r)
      ensures forall other :: other in signals && other != name ==> Node(other) == old(Node(other))
    {
      if r.Bad? {
        lastWords := lastWords[name := None];
        MarkUnknown(name);
        return false;
      }
      lastWords := lastWords[name := Some(r.words)];
      var read := IntOf(r.value);
      if read.None? {
        return true;
      }
      if read.value !in signals[name].states.value {
        MarkUnknown(name);
      } else {
        ChangeState(name, read.value);
      }
      raised := false;
    }

    method MarkUnknown(name: string)
      requires Valid() && name in signals
      modifies this`lastStateCode, this`shown
      ensures Valid() && Node(name) == old(Node(name)).(lastCode := None, shown := Stale)
      ensures forall other :: other in signals && other != name ==> Node(other) == old(Node(other))
    {
      lastStateCode := lastStateCode[name := None];
      shown := shown[name := Stale];
    }

    method ChangeState(name: string, code: int)
      requires Valid() && name in signals
      modifies this`lastStateCode, this`shown, this`transitions
      ensures Valid()
      ensures var was := old(Node(name));
              Node(name) == was.(lastCode := Some(code), shown := InState(code),
                                 transitions := if was.lastCode == Some(code) then was.transitions
                                                else was.transitions + [code])
      ensures forall other :: other in signals && other != name ==> Node(other) == old(Node(other))
    {
      var changed := lastStateCode[name] != Some(code);
      lastStateCode := lastStateCode[name := Some(code)];
      if changed {
        transitions := transitions[name := transitions[name] + [code]];
      }
      shown := shown[name := InState(code)];
    }

    /** A client's write: until the next poll the node shows what was written. */
    method SetSignal(name: string, v: Float) returns (status: WriteStatus)
      requires Valid() && name in signals
      modifies this
      ensures Valid() && status == WriteAnswer(old(Node(name)), signals[name].modbus, v, meta)
      ensures Node(name) == if status.Accepted? then old(Node(name)).(shown := Live(v)) else old(Node(name))
      ensures forall other :: other in signals && other != name ==> Node(other) == old(Node(other))
      ensures pushed == if status.Accepted? then old(pushed) + [(signals[name].modbus.addr, status.words)] else old(pushed)
    {
      if lastWords[name].None? {
        return BadWaitingForInitialData;
      }
      var words := Encode(signals[name].modbus, v, meta);
      match words
      case Err(StructError) => return BadOutOfRange;
      case Err(other) => return Raised(other);
      case Ok(w) =>
        pushed := pushed + [(signals[name].modbus.addr, w)];
        shown := shown[name := Live(v)];
        status := Accepted(w);
    }
  }

  // ----------------------------------------------------------- whole streams

  /** One signal's node after a stream of polls and client writes. */
  datatype Happening = Polled(r: Reading) | Written(v: Float)

  function After(n: NodeState, signal: Signal, meta: Meta, stream: seq<Happening>): NodeState
  {
    if stream == [] then n
    else
      var before := After(n, signal, meta, stream[..|stream| - 1]);
      match stream[|stream| - 1]
      case Polled(r) => Published(before, signal.states, r)
      case Written(v) =>
        if WriteAnswer(before, signal.modbus, v, meta).Accepted? then before.(shown := Live(v)) else before
  }

  /** The last poll of a stream, if any. */
  function LastPoll(stream: seq<Happening>): Option<Reading> {
    if stream == [] then None
    else if stream[|stream| - 1].Polled? then Some(stream[|stream| - 1].r)
    else LastPoll(stream[..|stream| - 1])
  }

  /** The declared state a reading shows, if it does. */
  function Seen(states: map<int, string>, r: Reading): Option<int> {
    if r.Good? && IntOf(r.value).Some? && IntOf(r.value).value in states then IntOf(r.value) else None
  }

  /** No poll of the stream raised: one that does ends the poll loop. */
  predicate Calm(signal: Signal, stream: seq<Happening>) {
    forall i :: 0 <= i < |stream| && stream[i].Polled? ==> !Raises(signal.states, stream[i].r)
  }

  /** What the gateway remembers is the last poll and nothing else, whatever
      clients wrote meanwhile. */
  lemma {:induction false} RemembersTheLastPoll(signal: Signal, meta: Meta, stream: seq<Happening>)
    requires Calm(signal, stream)
    ensures var n := After(UNPOLLED, signal, meta, stream);
            match LastPoll(stream)
            case None => n.lastWords == None && n.lastCode == None
            case Some(r) => n.lastWords == (if r.Good? then Some(r.words) else None)
                            && (signal.states.Some? ==> n.lastCode == Seen(signal.states.value, r))
    decreases |stream|
  {
    if stream == [] {
    } else {
      RemembersTheLastPoll(signal, meta, stream[..|stream| - 1]);
      assert stream[|stream| - 1] in stream;
    }
  }

  // ------------------------------------------------------- what a node shows

  /** The write at q is one the gateway accepts: the last poll before it was good and
      the value has an encoding. */
  predicate Takes(signal: Signal, meta: Meta, stream: seq<Happening>, q: nat)
    requires q < |stream|
  {
    stream[q].Written? && LastPoll(stream[..q]).Some? && LastPoll(stream[..q]).value.Good?
    && Encode(signal.modbus, stream[q].v, meta).Ok?
  }

  /** At q the node was last given something to show. */
  ghost predicate LastShown(signal: Signal, meta: Meta, stream: seq<Happening>, q: nat) {
    q < |stream| && (stream[q].Polled? || Takes(signal, meta, stream, q))
    && forall x: nat :: q < x < |stream| ==> stream[x].Written? && !Takes(signal, meta, stream, x)
  }

  /** What a poll or an accepted write puts on show: a failed poll and an undeclared
      state never leave a value standing. */
  predicate Displays(states: Option<map<int, string>>, h: Happening, shown: Shown) {
    match h
    case Written(v) => shown == Live(v)
    case Polled(Bad) => shown == Stale
    case Polled(Good(_, value)) =>
      if states.None? then shown == Live(value)
      else IsFinite(value) && var code := Trunc(ToReal(value));
                              shown == if code in states.value then InState(code) else Stale
  }

  lemma {:induction false} EarlierShown(signal: Signal, meta: Meta, stream: seq<Happening>, before: seq<Happening>, q: nat)
    requires |stream| > 0 && before == stream[..|stream| - 1] && LastShown(signal, meta, stream, q) && q < |before|
    ensures LastShown(signal, meta, before, q) && stream[|before|].Written? && !Takes(signal, meta, stream, |before|)
  {
    forall x: nat | x < |before|
      ensures before[x] == stream[x] && before[..x] == stream[..x]
    {
    }
  }

  lemma CalmBefore(signal: Signal, stream: seq<Happening>, before: seq<Happening>)
    requires Calm(signal, stream) && |stream| > 0 && before == stream[..|stream| - 1]
    ensures Calm(signal, before)
  {
  }

  /** What one more happening makes of the node. */
  lemma OneMoreShown(signal: Signal, meta: Meta, stream: seq<Happening>, before: seq<Happening>)
    requires Calm(signal, stream) && |stream| > 0 && before == stream[..|stream| - 1]
    ensures var h, was, now := stream[|before|], After(UNPOLLED, signal, meta, before), After(UNPOLLED, signal, meta, stream);
            if h.Polled? || Takes(signal, meta, stream, |before|) then Displays(signal.states, h, now.shown) else now.shown == was.shown
  {
    CalmBefore(signal, stream, before);
    RemembersTheLastPoll(signal, meta, before);
    if stream[|before|].Polled? {
      ShowsThePoll(signal, After(UNPOLLED, signal, meta, before), stream[|before|].r);
    }
  }

  /** Over every stream of polls and client writes the node shows what the last poll
      or accepted write says, and nothing before the first poll. */
  lemma {:induction false} ShowsTheLatest(signal: Signal, meta: Meta, stream: seq<Happening>)
    requires Calm(signal, stream)
    ensures forall q: nat :: LastShown(signal, meta, stream, q) ==>
              Displays(signal.states, stream[q], After(UNPOLLED, signal, meta, stream).shown)
    ensures LastPoll(stream) == None ==> After(UNPOLLED, signal, meta, stream).shown == Unset
    decreases |stream|
  {
    if stream != [] {
      var n := |stream| - 1;
      var before := stream[..n];
      CalmBefore(signal, stream, before);
      ShowsTheLatest(signal, meta, before);
      OneMoreShown(signal, meta, stream, before);
      forall q: nat | LastShown(signal, meta, stream, q) && q < n
        ensures Displays(signal.states, stream[q], After(UNPOLLED, signal, meta, stream).shown)
      {
        EarlierShown(signal, meta, stream, before, q);
        assert before[q] == stream[q];
      }
    }
  }

  lemma ShowsThePoll(signal: Signal, n: NodeState, r: Reading)
    requires !Raises(signal.states, r)
    ensures Displays(signal.states, Polled(r), Published(n, signal.states, r).shown)
  {
  }

  /** There is always such a poll or write once anything was polled. */
  lemma {:induction false} SomethingIsShown(signal: Signal, meta: Meta, stream: seq<Happening>) returns (q: nat)
    requires LastPoll(stream).Some?
    ensures LastShown(signal, meta, stream, q)
    decreases |stream|
  {
    var n := |stream| - 1;
    if stream[n].Polled? || Takes(signal, meta, stream, n) {
      q := n;
    } else {
      var before := stream[..n];
      q := SomethingIsShown(signal, meta, before);
      forall x: nat | x < n
        ensures before[x] == stream[x] && before[..x] == stream[..x]
      {
      }
    }
  }

  /** The node is stale exactly when what it shows came from a failed poll or an
      undeclared code. */
  lemma StaleIff(signal: Signal, meta: Meta, stream: seq<Happening>)
    requires Calm(signal, stream)
    ensures After(UNPOLLED, signal, meta, stream).shown == Stale <==>
            exists q: nat :: LastShown(signal, meta, stream, q) && stream[q].Polled?
                             && (stream[q].r.Bad? || (signal.states.Some? && Seen(signal.states.value, stream[q].r).None?))
  {
    ShowsTheLatest(signal, meta, stream);
    if LastPoll(stream).Some? {
      var q := SomethingIsShown(signal, meta, stream);
      assert LastShown(signal, meta, stream, q);
    } else if exists q: nat :: LastShown(signal, meta, stream, q) {
      var q: nat :| LastShown(signal, meta, stream, q);
      LastPollIs(signal, meta, stream, q);
    }
  }

  /** So the last good value never outlives a failed poll: whatever clients write
      after it, the node is stale until the next poll. */
  lemma {:induction false} AFailedPollIsShown(signal: Signal, meta: Meta, stream: seq<Happening>)
    requires Calm(signal, stream) && LastPoll(stream) == Some(Bad)
    ensures After(UNPOLLED, signal, meta, stream).shown == Stale
    decreases |stream|
  {
    var q := SomethingIsShown(signal, meta, stream);
    ShowsTheLatest(signal, meta, stream);
    LastPollIs(signal, meta, stream, q);
  }

  lemma {:induction false} LastPollIs(signal: Signal, meta: Meta, stream: seq<Happening>, q: nat)
    requires LastShown(signal, meta, stream, q)
    ensures LastPoll(stream) == if stream[q].Polled? then Some(stream[q].r) else LastPoll(stream[..q])
    decreases |stream|
  {
    var n := |stream| - 1;
    if q < n {
      var before := stream[..n];
      EarlierShown(signal, meta, stream, before, q);
      LastPollIs(signal, meta, before, q);
      assert before[..q] == stream[..q];
    }
  }

  /** A transition is recorded at a poll exactly when it shows a declared state and
      the poll before it did not show that same state: it was bad, or undeclared,
      or another state, or there was none. Client writes record nothing. */
  lemma TransitionIffChange(signal: Signal, meta: Meta, stream: seq<Happening>, next: Happening)
    requires signal.states.Some? && Calm(signal, stream + [next])
    ensures var states := signal.states.value;
            var previous := if LastPoll(stream).Some? then Seen(states, LastPoll(stream).value) else None;
            var changed := next.Polled? && Seen(states, next.r).Some? && Seen(states, next.r) != previous;
            After(UNPOLLED, signal, meta, stream + [next]).transitions
            == After(UNPOLLED, signal, meta, stream).transitions + if changed then [Seen(states, next.r).value] else []
  {
    var both := stream + [next];
    assert forall i :: 0 <= i < |stream| ==> both[i] == stream[i];
    assert both[..|stream|] == stream && both[|stream|] == next;
    RemembersTheLastPoll(signal, meta, stream);
  }

  /** A client's write to an integer register, of any number, an infinity or NaN: it
      is told to wait unless the last poll was good; then a number is accepted
      exactly when it rounds into the register's range and is out of range
      otherwise, and what is not a number raises. */
  lemma WriteAcceptedIff(signal: Signal, meta: Meta, stream: seq<Happening>, v: Float)
    requires IsInteger(signal.modbus.typ) && signal.modbus.scale > 0.0 && Calm(signal, stream)
    ensures var m := signal.modbus;
            var polled := LastPoll(stream).Some? && LastPoll(stream).value.Good?;
            var fits := IsFinite(v)
                        && MinOf(m.typ) as real - 0.5 <= ToReal(v) / m.scale < MaxOf(m.typ) as real + 0.5;
            var answer := WriteAnswer(After(UNPOLLED, signal, meta, stream), m, v, meta);
            (answer.Accepted? <==> polled && fits)
            && (answer == BadWaitingForInitialData <==> !polled)
            && (answer == BadOutOfRange <==> polled && IsFinite(v) && !fits)
            && (answer == Raised(NotANumber) <==> polled && !IsFinite(v))
  {
    RemembersTheLastPoll(signal, meta, stream);
    if IsFinite(v) {
      ZeroEncodesAlike(signal.modbus, v, meta);
      EncodeAcceptsIff(signal.modbus, ToReal(v), meta);
    }
  }

  /** The sign of zero is lost in an integer register. */
  lemma ZeroEncodesAlike(m: Mapping, v: Float, meta: Meta)
    requires IsInteger(m.typ) && m.scale > 0.0 && IsFinite(v)
    ensures Encode(m, v, meta) == Encode(m, Finite(ToReal(v)), meta)
  {
    if v.NegZero? {
      assert 0.0 / m.scale == 0.0;
    }
  }

  // ------------------------------------------- writes that escape the answer

  /** The value does not fit binary32: at or beyond halfway from the largest finite
      number to the next power of two. */
  predicate TooLarge(m: Mapping, v: Float)
    requires m.scale != 0.0
  {
    v.Finite? && 16777215.5 * Unit(253) <= Abs(v.r / m.scale)
  }

  /** What raises, and is answered with no status at all: a number too large for a
      float register, anything but a number for an integer register, and every
      value when the mapping is of an unknown type or its scale is zero. */
  predicate Escapes(m: Mapping, v: Float) {
    !m.typ.Bool?
    && (m.typ.Unknown? || m.scale == 0.0 || (if m.typ.Float32? then TooLarge(m, v) else !IsFinite(v)))
  }

  /** So it is for every mapping, every value and every history. A float write is
      never BadOutOfRange. */
  lemma WriteRaisesIff(signal: Signal, meta: Meta, stream: seq<Happening>, v: Float)
    requires Calm(signal, stream)
    ensures var polled := LastPoll(stream).Some? && LastPoll(stream).value.Good?;
            var answer := WriteAnswer(After(UNPOLLED, signal, meta, stream), signal.modbus, v, meta);
            (answer.Raised? <==> polled && Escapes(signal.modbus, v))
            && (answer == BadOutOfRange ==> IsInteger(signal.modbus.typ))
            && (answer.Accepted? && signal.modbus.typ.Float32? <==>
                  polled && !Escapes(signal.modbus, v) && signal.modbus.typ.Float32?)
  {
    RemembersTheLastPoll(signal, meta, stream);
    EncodeRaisesIff(signal.modbus, v, meta);
  }

  lemma EncodeRaisesIff(m: Mapping, v: Float, meta: Meta)
    ensures Encode(m, v, meta).Err? && Encode(m, v, meta) != Err(StructError) <==> Escapes(m, v)
    ensures Encode(m, v, meta) == Err(StructError) ==> IsInteger(m.typ)
  {
    if m.typ.Float32? && m.scale != 0.0 && v.Finite? {
      UnscaledMagnitude(v.r, m.scale);
      OverflowIff(Abs(v.r / m.scale));
    }
  }

  /** A scale of either sign divides the magnitude alike. */
  lemma UnscaledMagnitude(r: real, scale: real)
    requires scale != 0.0
    ensures var u := Unscaled(Finite(r), scale);
            if u.Finite? then Abs(u.r) == Abs(r / scale) else u == NegZero && r / scale == 0.0
  {
    assert r / -scale == -(r / scale);
  }

  /** A failing input at the shipped contract: the speed setpoint is a Double over
      uint16 at scale 0.001, so a client can send it NaN or an infinity. */
  lemma ASetpointCanRaise(n: NodeState, m: Mapping, v: Float, meta: Meta)
    requires m == Mapping("holding", 10, UInt16, 0.001) && (v == NaN || v == PosInf || v == NegInf) && n.lastWords.Some?
    ensures WriteAnswer(n, m, v, meta) == Raised(NotANumber)
  {
  }

  lemma TwentyFourDoublings(four: nat, k: nat)
    requires four == 4
    ensures Pow2(k + 6 * four) == Pow2(k) * 16777216.0
  {
    assert Pow2(four) == 16.0;
    Pow2Adds(four, four);
    Pow2Adds(2 * four, 2 * four);
    Pow2Adds(4 * four, 2 * four);
    Pow2Adds(k, 6 * four);
  }

  lemma HalfwayIsBelow(k: nat, e: nat, unit: real, half: real)
    requires e == k + 24 && unit == Pow2(k) && half == 16777215.5 * unit
    ensures half <= Pow2(e)
  {
    TwentyFourDoublings(4, k);
    MulMono(16777215.5, 16777216.0, unit);
  }

  lemma Overflows(m: Mapping, v: real, meta: Meta)
    requires m.typ.Float32? && m.scale == 1.0 && 16777215.5 * Unit(253) <= v
    ensures Encode(m, Finite(v), meta) == Err(FloatOverflow)
  {
    assert v / 1.0 == v;
    OverflowIff(v);
  }

  /** A failing input: 2^128, to a binary32 register at scale 1, as a client can
      send it to a node of type Double. */
  lemma ADoubleCanRaise(n: NodeState, m: Mapping, v: real, e: nat, meta: Meta)
    requires m == Mapping("holding", 12, Float32, 1.0) && e == 128 && v == Pow2(e) && n.lastWords.Some?
    ensures WriteAnswer(n, m, Finite(v), meta) == Raised(FloatOverflow)
  {
    HalfwayIsBelow(e - 24, e, Unit(253), 16777215.5 * Unit(253));
    Overflows(m, v, meta);
  }

  /** A node of OPC UA type Float at scale 1, as the shipped contract has it, takes
      only binary32 values, and those always pack. */
  lemma AFloatNeverRaises(n: NodeState, m: Mapping, bits: int, meta: Meta)
    requires m.typ.Float32? && m.scale == 1.0 && 0 <= bits < 0x1_0000_0000 && n.lastWords.Some?
    ensures WriteAnswer(n, m, Unpack(bits), meta).Accepted?
  {
    if Unpack(bits) != NaN {
      PatternSurvives(bits);
    }
    if Unpack(bits).Finite? {
      assert Unpack(bits).r / 1.0 == Unpack(bits).r;
    }
  }

  /** An accepted write that reaches the PLC is what the next poll shows: within
      half a unit of what the client sent, and a value that, written again,
      leaves the registers as they are. */
  lemma AcceptedWriteComesBack(n: NodeState, m: Mapping, v: real, meta: Meta, tables: I.Tables, words: seq<int>)
    requires IsInteger(m.typ) && m.scale > 0.0
    requires WriteAnswer(n, m, Finite(v), meta) == Accepted(words) && I.Write(tables, 16, m.addr, words).Ok?
    ensures |words| == Width(m.typ) && Registers(words)
    ensures I.Read(I.Write(tables, 16, m.addr, words).value, 3, m.addr, Width(m.typ)) == Ok(words)
    ensures Decode(m, words, meta).Ok? && Decode(m, words, meta).value.Finite?
    ensures Abs(Decode(m, words, meta).value.r - v) <= m.scale / 2.0
    ensures WriteAnswer(n, m, Decode(m, words, meta).value, meta) == Accepted(words)
  {
    DecodeOfEncode(m, v, meta);
    OneTripIsAFixpoint(m, Finite(v), meta);
    I.ReadAfterWrite(tables, m.addr, words, m.addr, |words|);
  }

  /** This is a good poll of the declared state `code`. */
  predicate ShowsState(states: map<int, string>, h: Happening, code: int) {
    h.Polled? && Seen(states, h.r) == Some(code)
  }

  // ------------------------------------------------- what a stream records

  /** What the polls of a stream show, one entry each: a declared state or not. */
  function Sights(states: map<int, string>, stream: seq<Happening>): seq<Option<int>> {
    if stream == [] then []
    else
      var h := stream[|stream| - 1];
      Sights(states, stream[..|stream| - 1]) + if h.Polled? then [Seen(states, h.r)] else []
  }

  /** The gateway is the recorder that forgets at every poll that fails. */
  lemma {:induction false} RecordsStamps(n: NodeState, signal: Signal, meta: Meta, stream: seq<Happening>, s: seq<Option<int>>)
    requires signal.states.Some? && Calm(signal, stream)
    requires s == [n.lastCode] + Sights(signal.states.value, stream)
    ensures After(n, signal, meta, stream).transitions == n.transitions + S.Stamps(s)
    ensures After(n, signal, meta, stream).lastCode == s[|s| - 1]
    decreases |stream|
  {
    if stream == [] {
    } else {
      var k := |stream| - 1;
      var rest := [n.lastCode] + Sights(signal.states.value, stream[..k]);
      RecordsStamps(n, signal, meta, stream[..k], rest);
      var before, h := After(n, signal, meta, stream[..k]), stream[k];
      assert h in stream;
      if h.Polled? {
        var seen := Seen(signal.states.value, h.r);
        RecordsOne(before, signal.states, h.r, seen);
        assert s == rest + [seen];
        S.OneMoreStamp(rest, seen);
      } else {
        assert s == rest;
      }
    }
  }

  /** One poll of a state signal that does not raise. */
  lemma RecordsOne(before: NodeState, states: Option<map<int, string>>, r: Reading, seen: Option<int>)
    requires states.Some? && !Raises(states, r) && seen == Seen(states.value, r)
    ensures var after := Published(before, states, r);
            after.lastCode == seen
            && after.transitions == before.transitions + if seen.Some? && seen != before.lastCode then [seen.value] else []
  {
  }

  /** Over any stream of good and bad polls and client writes, from a state last
      published as `last`: repeats apart, the transitions recorded are the moves
      between the states that the good polls showed, none missed and none out of
      order; and they are exactly those, each once, if and only if no two good
      polls of one state had only failing polls, and at least one, between them. */
  lemma TransitionsFollowGoodPolls(n: NodeState, signal: Signal, meta: Meta, stream: seq<Happening>, last: int,
                                   s: seq<Option<int>>) returns (added: seq<int>)
    requires signal.states.Some? && Calm(signal, stream) && n.lastCode == Some(last)
    requires s == [Some(last)] + Sights(signal.states.value, stream)
    ensures After(n, signal, meta, stream).transitions == n.transitions + added
    ensures S.Moves(last, added) == S.Moves(last, S.Present(s))
    ensures added == S.Moves(last, S.Present(s)) <==> !exists i: nat, j: nat :: S.Interrupted(s, i, j)
  {
    RecordsStamps(n, signal, meta, stream, s);
    S.StampsCollapse(s, last);
    S.StampsAreMovesIff(s, last);
    added := S.Stamps(s);
  }

  /** One failed poll inside a state, and its transition is recorded twice. */
  lemma ABadPollRestamps(n: NodeState, signal: Signal, meta: Meta, stream: seq<Happening>)
    requires signal.states == Some(map[0 := "Idle", 1 := "Homing"]) && n.lastCode == Some(0) && n.transitions == []
    requires stream == [Polled(Good([1], Finite(1.0))), Polled(Bad), Polled(Good([1], Finite(1.0)))]
    ensures After(n, signal, meta, stream).transitions == [1, 1]
  {
    assert Trunc(1.0) == 1;
    var one, two := stream[..1], stream[..2];
    assert one[..0] == [] && two[..1] == one;
    assert After(n, signal, meta, one).transitions == [1];
    assert After(n, signal, meta, two) == Published(After(n, signal, meta, one), signal.states, Bad);
  }
}
