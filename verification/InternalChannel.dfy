/** Internal channels: one FIFO queue per channel name, in a map that has no empty queues. */
module InternalChannels {
  import opened GoTypes

  type Channels = map<string, seq<Message>>

  datatype Publishing = Publishing(channelName: string, value: Message)

  /** The abstract queue: a missing key is an empty queue. */
  function Queue(m: Channels, channelName: string): seq<Message> {
    if channelName in m then m[channelName] else []
  }

  ghost predicate NoEmptyQueues(m: Channels) {
    forall ch | ch in m :: m[ch] != []
  }

  /** The messages that a list of publishings sends to one channel, in order. */
  function Sent(publishes: seq<Publishing>, channelName: string): seq<Message> {
    if publishes == [] then []
    else
      (if publishes[0].channelName == channelName then [publishes[0].value] else [])
      + Sent(publishes[1..], channelName)
  }

  lemma {:induction false} SentOne(p: Publishing, channelName: string)
    ensures Sent([p], channelName) == if p.channelName == channelName then [p.value] else []
  {
    assert [p][1..] == [];
  }

  lemma {:induction false} SentHead(publishes: seq<Publishing>, channelName: string)
    requires publishes != []
    ensures Sent(publishes, channelName) ==
            (if publishes[0].channelName == channelName then [publishes[0].value] else [])
            + Sent(publishes[1..], channelName)
  {
  }

  /** Messages that are sent later come later. */
  lemma {:induction false} SentConcat(a: seq<Publishing>, b: seq<Publishing>, channelName: string)
    ensures Sent(a + b, channelName) == Sent(a, channelName) + Sent(b, channelName)
  {
    if a == [] {
      assert a + b == b;
    } else {
      assert (a + b)[0] == a[0] && (a + b)[1..] == a[1..] + b;
      SentHead(a, channelName);
      SentHead(a + b, channelName);
      hide Sent;
      SentConcat(a[1..], b, channelName);
    }
  }

  function Enqueued(m: Channels, ch: string, data: Message): Channels {
    m[ch := Queue(m, ch) + [data]]
  }

  function PublishedTo(m: Channels, publishes: seq<Publishing>): Channels
    decreases publishes
  {
    if publishes == [] then m
    else PublishedTo(Enqueued(m, publishes[0].channelName, publishes[0].value), publishes[1..])
  }

  function Dequeued(m: Channels, ch: string): Channels
    requires Queue(m, ch) != []
  {
    if |m[ch]| == 1 then m - {ch} else m[ch := m[ch][1..]]
  }

  lemma {:induction false} DequeuedQueue(m: Channels, ch: string, other: string)
    requires Queue(m, ch) != []
    ensures Queue(m, ch) == [Queue(m, ch)[0]] + Queue(Dequeued(m, ch), ch)
    ensures other != ch ==> Queue(Dequeued(m, ch), other) == Queue(m, other)
    ensures NoEmptyQueues(m) ==> NoEmptyQueues(Dequeued(m, ch))
  {
  }

  lemma {:induction false} EnqueuedQueue(m: Channels, to: string, data: Message, ch: string)
    ensures Queue(Enqueued(m, to, data), ch) == Queue(m, ch) + if to == ch then [data] else []
    ensures NoEmptyQueues(m) ==> NoEmptyQueues(Enqueued(m, to, data))
  {
  }

  lemma {:induction false} PublishedToQueues(m: Channels, publishes: seq<Publishing>, ch: string)
    ensures Queue(PublishedTo(m, publishes), ch) == Queue(m, ch) + Sent(publishes, ch)
    ensures NoEmptyQueues(m) ==> NoEmptyQueues(PublishedTo(m, publishes))
    decreases publishes
  {
    hide Enqueued, Queue, NoEmptyQueues;
    if publishes == [] {
    } else {
      var head := publishes[0];
      EnqueuedQueue(m, head.channelName, head.value, ch);
      PublishedToQueues(Enqueued(m, head.channelName, head.value), publishes[1..], ch);
      var first, rest := if head.channelName == ch then [head.value] else [], Sent(publishes[1..], ch);
      assert (Queue(m, ch) + first) + rest == Queue(m, ch) + (first + rest);
    }
  }

  lemma {:induction false} PublishedToSnoc(m: Channels, publishes: seq<Publishing>, last: Publishing)
    ensures PublishedTo(m, publishes + [last]) == Enqueued(PublishedTo(m, publishes), last.channelName, last.value)
    decreases publishes
  {
    if publishes == [] {
    } else {
      assert (publishes + [last])[1..] == publishes[1..] + [last];
      PublishedToSnoc(Enqueued(m, publishes[0].channelName, publishes[0].value), publishes[1..], last);
    }
  }

  class InternalChannel {
    var receivedData: Channels

    /** Established by New, kept by every method, and by Rebuild if the refill has it. */
    ghost predicate Valid()
      reads this
    {
      NoEmptyQueues(receivedData)
    }

    constructor New()
      ensures Valid() && receivedData == map[]
    {
      receivedData := map[];
    }

    constructor Rebuild(refill: Channels)
      ensures receivedData == refill
      ensures NoEmptyQueues(refill) ==> Valid()
    {
      receivedData := refill;
    }

    function GetAllReceived(): (r: Channels)
      reads this
    {
      receivedData
    }

    /** With no empty queues, the key set of the map is what HasData says. */
    predicate HasData(channelName: string)
      reads this
      ensures HasData(channelName) <==> Queue(receivedData, channelName) != []
      ensures Valid() ==> (HasData(channelName) <==> channelName in receivedData)
    {
      |if channelName in receivedData then receivedData[channelName] else []| > 0
    }

    /** A reported size is |queue|, converted to int32. */
    method GetInfos() returns (infos: map<string, int32>)
      ensures infos.Keys == receivedData.Keys
      ensures forall ch | ch in infos :: infos[ch] == Wrap32(|Queue(receivedData, ch)|)
      ensures Valid() ==> forall ch :: ch in infos <==> HasData(ch)
    {
      infos := map[];
      var rest := receivedData.Keys;
      while rest != {}
        invariant rest <= receivedData.Keys && infos.Keys == receivedData.Keys - rest
        invariant forall ch | ch in infos :: infos[ch] == Wrap32(|receivedData[ch]|)
        decreases rest
      {
        var name := AnyKey(rest);
        infos := infos[name := Wrap32(|receivedData[name]|)];
        rest := rest - {name};
      }
    }

    method Receive(channelName: string, data: Message)
      modifies this
      ensures receivedData == Enqueued(old(receivedData), channelName, data)
      ensures old(Valid()) ==> Valid()
    {
      var l := if channelName in receivedData then receivedData[channelName] else [];
      l := l + [data];
      receivedData := receivedData[channelName := l];
    }

    method ProcessPublishing(publishes: seq<Publishing>)
      modifies this
      ensures receivedData == PublishedTo(old(receivedData), publishes)
      ensures forall ch :: Queue(receivedData, ch) == Queue(old(receivedData), ch) + Sent(publishes, ch)
      ensures old(Valid()) ==> Valid()
    {
      for i := 0 to |publishes|
        invariant receivedData == PublishedTo(old(receivedData), publishes[..i])
      {
        Receive(publishes[i].channelName, publishes[i].value);
        PublishedToSnoc(old(receivedData), publishes[..i], publishes[i]);
        assert publishes[..i + 1] == publishes[..i] + [publishes[i]];
      }
      assert publishes[..|publishes|] == publishes;
      forall ch ensures Queue(receivedData, ch) == Queue(old(receivedData), ch) + Sent(publishes, ch) {
        PublishedToQueues(old(receivedData), publishes, ch);
      }
      PublishedToQueues(old(receivedData), publishes, "");
    }

    /** None is the panic; it happens exactly when HasData is false, and changes nothing. */
    method Retrieve(channelName: string) returns (r: Option<Message>)
      modifies this
      ensures r.Some? <==> old(HasData(channelName))
      ensures r.None? ==> receivedData == old(receivedData)
      ensures r.Some? ==>
                && [r.value] + Queue(receivedData, channelName) == Queue(old(receivedData), channelName)
                && receivedData == Dequeued(old(receivedData), channelName)
                && forall ch | ch != channelName :: Queue(receivedData, ch) == Queue(old(receivedData), ch)
      ensures old(Valid()) ==> Valid()
    {
      var l := if channelName in receivedData then receivedData[channelName] else [];
      if |l| <= 0 {
        return None;
      }
      var data := l[0];
      l := l[1..];
      if |l| == 0 {
        receivedData := receivedData - {channelName};
      } else {
        receivedData := receivedData[channelName := l];
      }
      return Some(data);
    }
  }
}
