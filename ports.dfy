/**
 * The two ends of a processor's edges, reduced to the flags and the
 * one-block slot a processor observes and changes, in a single thread.
 */
module Ports {
  import opened Common

  /** What a processor can observe of an input port. */
  datatype InputView = InputView(finished: bool, data: Option<Result<DataBlock, ErrorCode>>, needData: bool)

  /** What a processor can observe of an output port. */
  datatype OutputView = OutputView(finished: bool, data: Option<Result<DataBlock, ErrorCode>>, needData: bool)

  /** `can_push`: the downstream side asks for data and the slot is free. */
  predicate CanPush(o: OutputView) {
    o.needData && o.data.None?
  }

  class InputPort {
    var finished: bool
    /** The slot the upstream processor fills. */
    var data: Option<Result<DataBlock, ErrorCode>>
    var needData: bool

    constructor ()
      ensures !finished && data.None? && !needData
    {
      finished := false;
      data := None;
      needData := false;
    }

    function View(): (v: InputView)
      reads this
      ensures v.finished == finished && v.data == data && v.needData == needData
    {
      InputView(finished, data, needData)
    }

    predicate IsFinished()
      reads this
    {
      finished
    }

    predicate HasData()
      reads this
    {
      data.Some?
    }

    /** `pull_data`: hands over what the slot holds and empties it. */
    method PullData() returns (d: Option<Result<DataBlock, ErrorCode>>)
      modifies this
      ensures d == old(data)
      ensures View() == old(View()).(data := None)
    {
      d := data;
      data := None;
    }

    /** `set_need_data`: tells the upstream side that data is wanted. */
    method SetNeedData()
      modifies this
      ensures View() == old(View()).(needData := true)
    {
      needData := true;
    }
  }

  class OutputPort {
    var finished: bool
    /** The slot the downstream processor empties. */
    var data: Option<Result<DataBlock, ErrorCode>>
    var needData: bool
    /** Everything pushed through this port, in order. */
    ghost var pushed: seq<Result<DataBlock, ErrorCode>>

    constructor ()
      ensures !finished && data.None? && !needData && pushed == []
    {
      finished := false;
      data := None;
      needData := false;
      pushed := [];
    }

    function View(): (v: OutputView)
      reads this
      ensures v.finished == finished && v.data == data && v.needData == needData
    {
      OutputView(finished, data, needData)
    }

    predicate IsFinished()
      reads this
    {
      finished
    }

    predicate CanPushNow()
      reads this
    {
      CanPush(View())
    }

    /** `push_data`: fills the slot and records the push. */
    method PushData(d: Result<DataBlock, ErrorCode>)
      modifies this
      ensures View() == old(View()).(data := Some(d))
      ensures pushed == old(pushed) + [d]
    {
      data := Some(d);
      pushed := pushed + [d];
    }

    /** `finish`: no more data will come through this port. */
    method Finish()
      modifies this
      ensures View() == old(View()).(finished := true)
      ensures pushed == old(pushed)
    {
      finished := true;
    }
  }
}
