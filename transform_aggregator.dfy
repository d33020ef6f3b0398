/**
 * The aggregating processor: it pulls blocks from its input port and feeds
 * them to an inner aggregator until the input port reports finished, then
 * pushes the blocks the aggregator generates to its output port, moving
 * through the states ConsumeData, Generate and Finished.
 */
module TransformAggregator {
  import opened Common
  import opened Ports

  // ---------------------------------------------------------------------------
  // Choosing the inner aggregator

  datatype HashMethodKind = KeysU8 | KeysU16 | KeysU32 | KeysU64 | Serializer

  datatype AggregatorParams = AggregatorParams(groupColumnsName: seq<string>, aggregateFunctions: seq<string>)

  /** The transform's parameters; ports are named by their identity. */
  datatype TransformParams = TransformParams(
    transformInputPort: nat,
    transformOutputPort: nat,
    hashMethod: HashMethodKind,
    aggregatorParams: AggregatorParams)

  /** The inner aggregator chosen, with its `HAS_AGG` flag where it has one. */
  datatype AggregatorKind =
    | PartialSingleKey
    | FinalSingleKey
    | KeysPartial(width: nat, hasAgg: bool)
    | SerializerPartial(hasAgg: bool)

  /** The transform built: its aggregator and the ports it is connected to. */
  datatype Selection = Selection(kind: AggregatorKind, inputPort: nat, outputPort: nat)

  /** The key width of a fixed-width hash method. */
  function KeyWidth(m: HashMethodKind): (w: nat)
    requires !m.Serializer?
    ensures w in {8, 16, 32, 64}
  {
    match m
    case KeysU8 => 8
    case KeysU16 => 16
    case KeysU32 => 32
    case KeysU64 => 64
  }

  /** `try_create_partial`. Without group columns the single-key aggregator
      is created over the ports given as arguments, and the error of its
      `try_create` (given as `singleKeyError`) is passed on; with group
      columns the hash method picks the aggregator, `HAS_AGG` tells whether
      there are aggregate functions, and the ports come from the parameters. */
  function SelectPartial(inputPort: nat, outputPort: nat, params: TransformParams, singleKeyError: Option<ErrorCode>)
    : (r: Result<Selection, ErrorCode>)
    ensures |params.aggregatorParams.groupColumnsName| == 0 ==>
              (r.Err? <==> singleKeyError.Some?) &&
              (r.Err? ==> r.error == singleKeyError.value) &&
              (r.Ok? ==> r.value == Selection(PartialSingleKey, inputPort, outputPort))
    ensures |params.aggregatorParams.groupColumnsName| > 0 ==>
              r.Ok? &&
              r.value.inputPort == params.transformInputPort &&
              r.value.outputPort == params.transformOutputPort &&
              (r.value.kind.SerializerPartial? <==> params.hashMethod.Serializer?) &&
              (r.value.kind.KeysPartial? <==> !params.hashMethod.Serializer?) &&
              (r.value.kind.KeysPartial? ==> r.value.kind.width == KeyWidth(params.hashMethod)) &&
              (r.value.kind.hasAgg <==> |params.aggregatorParams.aggregateFunctions| > 0)
  {
    var ap := params.aggregatorParams;
    if |ap.groupColumnsName| == 0 then
      match singleKeyError
      case Some(e) => Err(e)
      case None => Ok(Selection(PartialSingleKey, inputPort, outputPort))
    else
      var hasAgg := !(|ap.aggregateFunctions| == 0);
      var kind := match params.hashMethod
        case KeysU8 => KeysPartial(8, hasAgg)
        case KeysU16 => KeysPartial(16, hasAgg)
        case KeysU32 => KeysPartial(32, hasAgg)
        case KeysU64 => KeysPartial(64, hasAgg)
        case Serializer => SerializerPartial(hasAgg);
      Ok(Selection(kind, params.transformInputPort, params.transformOutputPort))
  }

  /** Without group columns neither the aggregate functions nor the hash
      method affect the choice. */
  lemma SingleKeyIgnoresFunctions(inputPort: nat, outputPort: nat, params: TransformParams,
                                  functions: seq<string>, m: HashMethodKind, singleKeyError: Option<ErrorCode>)
    requires |params.aggregatorParams.groupColumnsName| == 0
    ensures SelectPartial(inputPort, outputPort, params, singleKeyError) ==
            SelectPartial(inputPort, outputPort,
                          params.(hashMethod := m, aggregatorParams := params.aggregatorParams.(aggregateFunctions := functions)),
                          singleKeyError)
  {
  }

  /** `try_create_final`, defined only without group columns (the grouped
      final aggregator is not implemented). */
  function SelectFinal(inputPort: nat, outputPort: nat, params: TransformParams, singleKeyError: Option<ErrorCode>)
    : (r: Result<Selection, ErrorCode>)
    requires |params.aggregatorParams.groupColumnsName| == 0
    ensures r.Err? <==> singleKeyError.Some?
    ensures r.Err? ==> r.error == singleKeyError.value
    ensures r.Ok? ==> r.value == Selection(FinalSingleKey, inputPort, outputPort)
  {
    match singleKeyError
    case Some(e) => Err(e)
    case None => Ok(Selection(FinalSingleKey, inputPort, outputPort))
  }

  // ---------------------------------------------------------------------------
  // The state machine as a function of what the processor observes

  datatype Event = NeedData | NeedConsume | Sync | Async | Finished

  /** The state tag with the slots the transform owns; the inner aggregator
      and the ports are held by the transform itself. */
  datatype TransformState =
    | ConsumeData(inputDataBlock: Option<DataBlock>)
    | Generate(isFinished: bool, outputDataBlock: Option<DataBlock>)
    | Finished

  /** Everything `event` reads and writes: the state, both ports and the
      log of what was pushed to the output port. */
  datatype Config = Config(
    state: TransformState,
    input: InputView,
    output: OutputView,
    pushed: seq<Result<DataBlock, ErrorCode>>)

  const BUG: ErrorCode := LogicalError("It's a bug")

  /** `to_generate`: only ConsumeData moves on, to Generate with nothing
      generated yet; everything else is a logical error. */
  function ToGenerate(t: TransformState): (r: Result<TransformState, ErrorCode>)
    ensures r.Ok? <==> t.ConsumeData?
    ensures r.Ok? ==> r.value == Generate(false, None)
    ensures r.Err? ==> r.error == LogicalError("")
  {
    match t
    case ConsumeData(_) => Ok(Generate(false, None))
    case _ => Err(LogicalError(""))
  }

  /** How far along the three states a state is. */
  function Rank(t: TransformState): nat {
    match t
    case ConsumeData(_) => 0
    case Generate(_, _) => 1
    case Finished => 2
  }

  /** `consume_event`: a pending input block asks for processing; a finished
      input moves to Generate (checked before the port's data); data on the
      port is pulled into the slot; otherwise the transform asks for data.
      The output side is never touched. */
  function ConsumeStep(c: Config): (r: (Result<Event, ErrorCode>, Config))
    ensures !c.state.ConsumeData? ==> r == (Err(BUG), c)
    ensures r.1.output == c.output && r.1.pushed == c.pushed
    ensures c.state.ConsumeData? ==>
              (r.1.state.Generate? <==> c.state.inputDataBlock.None? && c.input.finished)
    ensures c.state.ConsumeData? && r.1.state.Generate? ==> r.1.state == Generate(false, None) && r.0 == Ok(Sync)
    ensures c.state.ConsumeData? && r.0.Err? ==>
              c.input.data.Some? && c.input.data.value.Err? && r.0.error == c.input.data.value.error
    ensures c.state.ConsumeData? && c.state.inputDataBlock.Some? ==> r == (Ok(Sync), c)
    ensures r.0 == Ok(NeedData) <==>
              c.state == ConsumeData(None) && !c.input.finished && c.input.data.None?
    ensures r.0 == Ok(NeedData) ==> r.1 == c.(input := c.input.(needData := true))
    ensures r.1.input.data != c.input.data ==>
              c.state == ConsumeData(None) && !c.input.finished && c.input.data.Some? &&
              r.1.input == c.input.(data := None) &&
              (c.input.data.value.Ok? ==> r == (Ok(Sync), r.1) && r.1.state == ConsumeData(Some(c.input.data.value.value))) &&
              (c.input.data.value.Err? ==> r.0 == Err(c.input.data.value.error) && r.1.state == c.state)
    ensures r.0.Ok? ==> r.0.value == Sync || r.0.value == NeedData
    // The ladder, rung by rung, from condition to outcome.
    ensures c.state.ConsumeData? && c.state.inputDataBlock.None? && c.input.finished ==>
              r == (Ok(Sync), c.(state := Generate(false, None)))
    ensures c.state == ConsumeData(None) && !c.input.finished && c.input.data.Some? ==>
              r.1.input == c.input.(data := None) &&
              match c.input.data.value
              case Ok(b) => r == (Ok(Sync), c.(state := ConsumeData(Some(b)), input := r.1.input))
              case Err(e) => r == (Err(e), c.(input := r.1.input))
    ensures c.state == ConsumeData(None) && !c.input.finished && c.input.data.None? ==>
              r == (Ok(NeedData), c.(input := c.input.(needData := true)))
  {
    match c.state
    case ConsumeData(pending) =>
      if pending.Some? then (Ok(Sync), c)
      else if c.input.finished then
        match ToGenerate(c.state)
        case Ok(next) => (Ok(Sync), c.(state := next))
        case Err(e) => assert false; (Err(e), c.(state := TransformState.Finished))
      else if c.input.data.Some? then
        var input := c.input.(data := None);
        match c.input.data.value
        case Ok(block) => (Ok(Sync), c.(state := ConsumeData(Some(block)), input := input))
        case Err(e) => (Err(e), c.(input := input))
      else (Ok(NeedData), c.(input := c.input.(needData := true)))
    case _ => (Err(BUG), c)
  }

  /** `generate_event`: a finished output port ends the transform (a pending
      block is dropped); a port that cannot take data asks for consumption; a
      pending block is pushed once; once the aggregator is exhausted the
      output port is finished; otherwise the transform asks for processing.
      The input side is never touched. */
  function GenerateStep(c: Config): (r: (Result<Event, ErrorCode>, Config))
    ensures !c.state.Generate? ==> r == (Err(BUG), c)
    ensures r.1.input == c.input
    ensures c.state.Generate? ==> r.0.Ok? && (r.1.state.Generate? || r.1.state.Finished?)
    ensures c.state.Generate? ==> (r.1.state.Finished? <==> r.0 == Ok(Event.Finished))
    ensures c.state.Generate? && r.1.state.Finished? ==> r.1.output.finished
    ensures c.state.Generate? && r.1.state.Finished? ==>
              c.output.finished || (c.state.isFinished && c.state.outputDataBlock.None? && CanPush(c.output))
    ensures r.1.pushed == c.pushed ||
              (c.state.Generate? && c.state.outputDataBlock.Some? && CanPush(c.output) && !c.output.finished &&
               r.1.pushed == c.pushed + [Ok(c.state.outputDataBlock.value)] &&
               r.1.output == c.output.(data := Some(Ok(c.state.outputDataBlock.value))) &&
               r.1.state == c.state.(outputDataBlock := None) && r.0 == Ok(NeedConsume))
    ensures r.0 == Ok(Sync) ==>
              r.1 == c && c.state == Generate(false, None) && !c.output.finished && CanPush(c.output)
    // The ladder, rung by rung, from condition to outcome.
    ensures c.state.Generate? && c.output.finished ==>
              r == (Ok(Event.Finished), c.(state := TransformState.Finished))
    ensures c.state.Generate? && !c.output.finished && !CanPush(c.output) ==>
              r == (Ok(NeedConsume), c)
    ensures c.state.Generate? && !c.output.finished && CanPush(c.output) && c.state.outputDataBlock.Some? ==>
              r.0 == Ok(NeedConsume) && r.1.state == c.state.(outputDataBlock := None) &&
              r.1.output == c.output.(data := Some(Ok(c.state.outputDataBlock.value))) &&
              r.1.pushed == c.pushed + [Ok(c.state.outputDataBlock.value)]
    ensures c.state.Generate? && !c.output.finished && CanPush(c.output) && c.state.outputDataBlock.None? &&
            c.state.isFinished ==>
              r == (Ok(Event.Finished), c.(state := TransformState.Finished, output := c.output.(finished := true)))
    ensures c.state == Generate(false, None) && !c.output.finished && CanPush(c.output) ==>
              r == (Ok(Sync), c)
  {
    match c.state
    case Generate(isFinished, pending) =>
      if c.output.finished then (Ok(Event.Finished), c.(state := TransformState.Finished))
      else if !CanPush(c.output) then (Ok(NeedConsume), c)
      else if pending.Some? then
        var block := pending.value;
        (Ok(NeedConsume), c.(state := Generate(isFinished, None),
                             output := c.output.(data := Some(Ok(block))),
                             pushed := c.pushed + [Ok(block)]))
      else if isFinished then
        (Ok(Event.Finished), c.(state := TransformState.Finished, output := c.output.(finished := true)))
      else (Ok(Sync), c)
    case _ => (Err(BUG), c)
  }

  /** `event`: Finished is terminal and answers Finished; the other states
      dispatch to their ladder. The state never moves backwards. */
  function EventStep(c: Config): (r: (Result<Event, ErrorCode>, Config))
    ensures c.state.Finished? ==> r == (Ok(Event.Finished), c)
    ensures Rank(r.1.state) >= Rank(c.state)
    ensures r.0.Err? ==>
              c.state.ConsumeData? && c.input.data.Some? && c.input.data.value.Err? &&
              r.0.error == c.input.data.value.error
    ensures c.state.Generate? && !r.1.state.Generate? ==> r.1.output.finished
    ensures |c.pushed| <= |r.1.pushed| <= |c.pushed| + 1 && r.1.pushed[..|c.pushed|] == c.pushed
  {
    match c.state
    case Finished => (Ok(Event.Finished), c)
    case Generate(_, _) => GenerateStep(c)
    case ConsumeData(_) => ConsumeStep(c)
  }

  /** A Sync answer means there is work for `process`: a pending input block,
      a fresh Generate state, or a Generate state with nothing pending and
      the aggregator not yet exhausted. */
  lemma SyncMeansWork(c: Config)
    requires EventStep(c).0 == Ok(Sync)
    ensures var s := EventStep(c).1.state;
            (s.ConsumeData? && s.inputDataBlock.Some?) || s == Generate(false, None)
  {
  }

  /** The finished flag is looked at before the data: a finished input port
      that still holds a block ends consumption without pulling it. */
  lemma FinishedInputIsNotDrained(c: Config)
    requires c.state == ConsumeData(None) && c.input.finished && c.input.data.Some?
    ensures EventStep(c) == (Ok(Sync), c.(state := Generate(false, None)))
    ensures EventStep(c).1.input.data == c.input.data
  {
  }

  /** Repeated events without processing never push a block twice: a second
      event right after a push cannot push again, since the slot is now full. */
  lemma {:induction false} NoDoublePush(c: Config)
    requires c.state.Generate?
    requires |EventStep(c).1.pushed| > |c.pushed|
    ensures EventStep(EventStep(c).1).1.pushed == EventStep(c).1.pushed
  {
    var c1 := EventStep(c).1;
    assert c1.output.data.Some?;
    assert c1.state.Generate? && c1.state.outputDataBlock.None?;
  }

  /** `Ok(b)` per block. */
  function Oks(bs: seq<DataBlock>): (r: seq<Result<DataBlock, ErrorCode>>)
    ensures |r| == |bs| && forall i :: 0 <= i < |bs| ==> r[i] == Ok(bs[i])
  {
    if |bs| == 0 then [] else Oks(bs[..|bs| - 1]) + [Ok(bs[|bs| - 1])]
  }

  function OptSeq(o: Option<DataBlock>): seq<DataBlock> {
    match o
    case None => []
    case Some(b) => [b]
  }

  // ---------------------------------------------------------------------------
  // The objects

  /** The inner aggregator, abstract: what `consume` and `generate` answer is
      fixed by the blocks consumed so far and the number of earlier
      `generate` calls. */
  class Aggregator {
    const name: string
    const consumeOutcome: (seq<DataBlock>, DataBlock) -> Option<ErrorCode>
    const generateOutcome: (seq<DataBlock>, nat) -> Result<Option<DataBlock>, ErrorCode>
    /** The blocks consumed successfully. */
    var consumed: seq<DataBlock>
    var generateCalls: nat
    /** The blocks `generate` has handed out. */
    ghost var outputs: seq<DataBlock>

    constructor (name: string,
                 consumeOutcome: (seq<DataBlock>, DataBlock) -> Option<ErrorCode>,
                 generateOutcome: (seq<DataBlock>, nat) -> Result<Option<DataBlock>, ErrorCode>)
      ensures this.name == name && this.consumeOutcome == consumeOutcome && this.generateOutcome == generateOutcome
      ensures consumed == [] && generateCalls == 0 && outputs == []
    {
      this.name := name;
      this.consumeOutcome := consumeOutcome;
      this.generateOutcome := generateOutcome;
      consumed := [];
      generateCalls := 0;
      outputs := [];
    }

    method Consume(data: DataBlock) returns (r: Result<(), ErrorCode>)
      modifies this
      ensures var e := consumeOutcome(old(consumed), data);
              (e.Some? ==> r == Err(e.value) && consumed == old(consumed)) &&
              (e.None? ==> r == Ok(()) && consumed == old(consumed) + [data])
      ensures generateCalls == old(generateCalls) && outputs == old(outputs)
    {
      var e := consumeOutcome(consumed, data);
      if e.Some? {
        return Err(e.value);
      }
      consumed := consumed + [data];
      r := Ok(());
    }

    method Generate() returns (r: Result<Option<DataBlock>, ErrorCode>)
      modifies this
      ensures r == generateOutcome(consumed, old(generateCalls))
      ensures consumed == old(consumed) && generateCalls == old(generateCalls) + 1
      ensures outputs == old(outputs) + (if r.Ok? then OptSeq(r.value) else [])
    {
      r := generateOutcome(consumed, generateCalls);
      generateCalls := generateCalls + 1;
      if r.Ok? {
        outputs := outputs + OptSeq(r.value);
      }
    }
  }

  /** `AggregatorTransform`. */
  class AggregatorTransform {
    var state: TransformState
    const inner: Aggregator
    const input: InputPort
    const output: OutputPort
    /** The aggregator's outputs and the port's pushes before this transform. */
    ghost const outputsBase: seq<DataBlock>
    ghost const pushedBase: seq<Result<DataBlock, ErrorCode>>
    /** The generated blocks pushed so far, and the one dropped when the
        output port was found finished. */
    ghost var emitted: seq<DataBlock>
    ghost var dropped: Option<DataBlock>

    /** Every block the aggregator generated under this transform was pushed
        once, in order, except a block still pending or dropped at the end;
        in Finished the output port is finished. */
    ghost predicate Valid()
      reads this, inner, output
    {
      match state
      case ConsumeData(_) =>
        inner.outputs == outputsBase && output.pushed == pushedBase && emitted == [] && dropped.None?
      case Generate(_, pending) =>
        inner.outputs == outputsBase + emitted + OptSeq(pending) &&
        output.pushed == pushedBase + Oks(emitted) && dropped.None?
      case Finished =>
        output.finished &&
        inner.outputs == outputsBase + emitted + OptSeq(dropped) &&
        output.pushed == pushedBase + Oks(emitted)
    }

    ghost function View(): Config
      reads this, input, output
    {
      Config(state, input.View(), output.View(), output.pushed)
    }

    /** `create`: ConsumeData with no pending block, over the given ports. */
    constructor (input: InputPort, output: OutputPort, inner: Aggregator)
      ensures this.input == input && this.output == output && this.inner == inner
      ensures state == ConsumeData(None)
      ensures Valid()
    {
      this.input := input;
      this.output := output;
      this.inner := inner;
      state := ConsumeData(None);
      outputsBase := inner.outputs;
      pushedBase := output.pushed;
      emitted := [];
      dropped := None;
    }

    method NextEvent() returns (r: Result<Event, ErrorCode>)
      requires Valid()
      modifies this, input, output
      ensures Valid()
      ensures (r, View()) == EventStep(old(View()))
    {
      match state {
        case Finished =>
          r := Ok(Event.Finished);
        case Generate(_, _) =>
          r := GenerateEvent();
        case ConsumeData(_) =>
          r := ConsumeEvent();
      }
    }

    method ConsumeEvent() returns (r: Result<Event, ErrorCode>)
      requires Valid()
      modifies this, input
      ensures Valid()
      ensures (r, View()) == ConsumeStep(old(View()))
    {
      if !state.ConsumeData? {
        return Err(BUG);
      }
      if state.inputDataBlock.Some? {
        return Ok(Sync);
      }
      if input.IsFinished() {
        var next := ToGenerate(state);
        match next {
          case Ok(s) =>
            state := s;
          case Err(e) =>
            assert false;
        }
        return Ok(Sync);
      }
      if input.HasData() {
        var pulled := input.PullData();
        match pulled.value {
          case Ok(block) =>
            state := ConsumeData(Some(block));
            return Ok(Sync);
          case Err(e) =>
            return Err(e);
        }
      }
      input.SetNeedData();
      r := Ok(NeedData);
    }

    method GenerateEvent() returns (r: Result<Event, ErrorCode>)
      requires Valid()
      modifies this, output
      ensures Valid()
      ensures (r, View()) == GenerateStep(old(View()))
    {
      if !state.Generate? {
        return Err(BUG);
      }
      if output.IsFinished() {
        dropped := state.outputDataBlock;
        state := TransformState.Finished;
        return Ok(Event.Finished);
      }
      if !output.CanPushNow() {
        return Ok(NeedConsume);
      }
      if state.outputDataBlock.Some? {
        var block := state.outputDataBlock.value;
        state := state.(outputDataBlock := None);
        output.PushData(Ok(block));
        assert Oks(emitted + [block]) == Oks(emitted) + [Ok(block)] by {
          assert (emitted + [block])[..|emitted|] == emitted;
        }
        emitted := emitted + [block];
        return Ok(NeedConsume);
      }
      if state.isFinished {
        if !output.IsFinished() {
          output.Finish();
        }
        state := TransformState.Finished;
        return Ok(Event.Finished);
      }
      r := Ok(Sync);
    }

    /** `process`: consumes in ConsumeData, generates in Generate, does
        nothing in Finished. It is called after `event` answered Sync, so
        in Generate no block is pending (see SyncMeansWork). */
    method Process() returns (r: Result<(), ErrorCode>)
      requires Valid()
      requires state.Generate? ==> state.outputDataBlock.None?
      modifies this, inner
      ensures Valid()
      ensures old(state).Finished? ==> r == Ok(()) && state == old(state) && inner.consumed == old(inner.consumed)
      ensures old(state).Finished? ==> inner.generateCalls == old(inner.generateCalls) && inner.outputs == old(inner.outputs)
      ensures old(state).Generate? ==> inner.generateCalls == old(inner.generateCalls) + 1
      ensures old(state).ConsumeData? ==> inner.outputs == old(inner.outputs)
      ensures old(state).Generate? ==>
                var g := inner.generateOutcome(old(inner.consumed), old(inner.generateCalls));
                inner.outputs == old(inner.outputs) + (if g.Ok? then OptSeq(g.value) else [])
      ensures old(state).ConsumeData? ==>
                state == ConsumeData(None) && inner.generateCalls == old(inner.generateCalls) &&
                (old(state).inputDataBlock.None? ==> r == Ok(()) && inner.consumed == old(inner.consumed)) &&
                (old(state).inputDataBlock.Some? ==>
                   var e := inner.consumeOutcome(old(inner.consumed), old(state).inputDataBlock.value);
                   (e.Some? ==> r == Err(e.value) && inner.consumed == old(inner.consumed)) &&
                   (e.None? ==> r == Ok(()) && inner.consumed == old(inner.consumed) + [old(state).inputDataBlock.value]))
      ensures old(state).Generate? ==>
                var g := inner.generateOutcome(old(inner.consumed), old(inner.generateCalls));
                inner.consumed == old(inner.consumed) &&
                (g.Err? ==> r == Err(g.error) && state == old(state)) &&
                (g.Ok? ==> r == Ok(()) && state == Generate(old(state).isFinished || g.value.None?, g.value))
    {
      match state {
        case Finished =>
          r := Ok(());
        case ConsumeData(_) =>
          r := Consume();
        case Generate(_, _) =>
          r := GenerateBlock();
      }
    }

    /** `ConsumeState::consume`: the pending block, if any, is taken out of
        the slot and handed to the aggregator once; its error is passed on. */
    method Consume() returns (r: Result<(), ErrorCode>)
      requires Valid() && state.ConsumeData?
      modifies this, inner
      ensures Valid()
      ensures state == ConsumeData(None) && inner.generateCalls == old(inner.generateCalls)
      ensures inner.outputs == old(inner.outputs)
      ensures old(state).inputDataBlock.None? ==> r == Ok(()) && inner.consumed == old(inner.consumed)
      ensures old(state).inputDataBlock.Some? ==>
                var e := inner.consumeOutcome(old(inner.consumed), old(state).inputDataBlock.value);
                (e.Some? ==> r == Err(e.value) && inner.consumed == old(inner.consumed)) &&
                (e.None? ==> r == Ok(()) && inner.consumed == old(inner.consumed) + [old(state).inputDataBlock.value])
    {
      var pending := state.inputDataBlock;
      state := ConsumeData(None);
      if pending.Some? {
        var result := inner.Consume(pending.value);
        if result.Err? {
          return Err(result.error);
        }
      }
      r := Ok(());
    }

    /** `GenerateState::generate`: the aggregator's answer becomes the pending
        block, and a `None` answer marks the aggregator exhausted; on error
        nothing changes. */
    method GenerateBlock() returns (r: Result<(), ErrorCode>)
      requires Valid() && state.Generate? && state.outputDataBlock.None?
      modifies this, inner
      ensures Valid()
      ensures inner.generateCalls == old(inner.generateCalls) + 1
      ensures var g := inner.generateOutcome(old(inner.consumed), old(inner.generateCalls));
              inner.outputs == old(inner.outputs) + (if g.Ok? then OptSeq(g.value) else [])
      ensures var g := inner.generateOutcome(old(inner.consumed), old(inner.generateCalls));
              inner.consumed == old(inner.consumed) &&
              (g.Err? ==> r == Err(g.error) && state == old(state)) &&
              (g.Ok? ==> r == Ok(()) && state == Generate(old(state).isFinished || g.value.None?, g.value))
    {
      var generated := inner.Generate();
      if generated.Err? {
        return Err(generated.error);
      }
      var data := generated.value;
      if data.None? {
        state := state.(isFinished := true);
      }
      state := state.(outputDataBlock := data);
      r := Ok(());
    }
  }
}
