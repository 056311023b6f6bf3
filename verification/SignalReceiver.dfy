/** User signals: the same queues as those of internal channels, filled by clients. */
module SignalReceivers {
  import opened GoTypes
  import opened InternalChannels

  /** The signals of one name, as publishings of its queue. */
  function AsPublishings(sigName: string, values: seq<EncodedObject>): seq<Publishing> {
    seq(|values|, i requires 0 <= i < |values| => Publishing(sigName, Some(values[i])))
  }

  class SignalReceiver {
    var receivedSignals: Channels

    constructor (initReceivedSignals: Option<Channels>)
      ensures receivedSignals == if initReceivedSignals.Some? then initReceivedSignals.value else map[]
    {
      receivedSignals := if initReceivedSignals.Some? then initReceivedSignals.value else map[];
    }

    /** pending is what the asynchronous channel of the name holds. */
    method ReceiveSignal(sigName: string, pending: seq<EncodedObject>)
      modifies this
      ensures receivedSignals == PublishedTo(old(receivedSignals), AsPublishings(sigName, pending))
      ensures Queue(receivedSignals, sigName) ==
              Queue(old(receivedSignals), sigName) + seq(|pending|, i requires 0 <= i < |pending| => Some(pending[i]))
      ensures forall name | name != sigName :: Queue(receivedSignals, name) == Queue(old(receivedSignals), name)
    {
      ghost var all := AsPublishings(sigName, pending);
      for i := 0 to |pending|
        invariant receivedSignals == PublishedTo(old(receivedSignals), all[..i])
        invariant Queue(receivedSignals, sigName) ==
                  Queue(old(receivedSignals), sigName) + seq(i, j requires 0 <= j < i => Some(pending[j]))
        invariant forall name | name != sigName :: Queue(receivedSignals, name) == Queue(old(receivedSignals), name)
      {
        PublishedToSnoc(old(receivedSignals), all[..i], all[i]);
        assert all[..i + 1] == all[..i] + [all[i]];
        var l := if sigName in receivedSignals then receivedSignals[sigName] else [];
        receivedSignals := receivedSignals[sigName := l + [Some(pending[i])]];
      }
      assert all[..|pending|] == all;
    }

    predicate HasSignal(channelName: string)
      reads this
      ensures HasSignal(channelName) <==> Queue(receivedSignals, channelName) != []
    {
      |if channelName in receivedSignals then receivedSignals[channelName] else []| > 0
    }

    /** None is the panic. */
    method Retrieve(channelName: string) returns (r: Option<Message>)
      modifies this
      ensures r.Some? <==> old(HasSignal(channelName))
      ensures r.None? ==> receivedSignals == old(receivedSignals)
      ensures r.Some? ==>
                && [r.value] + Queue(receivedSignals, channelName) == Queue(old(receivedSignals), channelName)
                && receivedSignals == Dequeued(old(receivedSignals), channelName)
    {
      var l := if channelName in receivedSignals then receivedSignals[channelName] else [];
      if |l| <= 0 {
        return None;
      }
      var sigVal := l[0];
      l := l[1..];
      if |l| == 0 {
        receivedSignals := receivedSignals - {channelName};
      } else {
        receivedSignals := receivedSignals[channelName := l];
      }
      return Some(sigVal);
    }
  }
}
