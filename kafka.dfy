/**
 * pkg/kafka_consumer: the parts of the consumer that decide something about
 * a message: the trace and span ids read from its headers, the event built
 * from it with its id, and the list of subscriptions.
 *
 * A message's key, header values and payload are the strings their bytes
 * spell. The readers, the goroutines and the retries around the handlers
 * are left out.
 */
module Kafka {
  import opened Wrappers
  import opened Errors
  import opened Text

  datatype Header = Header(key: string, value: string)

  datatype Message = Message(topic: string, partition: int, offset: int, key: string, value: string,
                             headers: seq<Header>)

  /** `event`: what a handler receives. */
  datatype Event = Event(id: string, topic: string, payload: string, headers: map<string, string>)

  /** A subscription: the brokers, the topic, the group and the handler (known by a number). */
  datatype ConsumerConfig = ConsumerConfig(brokers: seq<string>, topic: string, groupId: string, handler: nat)

  /** Some header has the key. */
  predicate HasKey(hs: seq<Header>, k: string) {
    exists i :: 0 <= i < |hs| && hs[i].key == k
  }

  /** The value of the last header with the key, or "" when none has it. */
  function LastValue(hs: seq<Header>, k: string): string {
    if hs == [] then ""
    else if hs[|hs| - 1].key == k then hs[|hs| - 1].value
    else LastValue(hs[..|hs| - 1], k)
  }

  /** The last header with a key gives its value; with no such header the value is "". */
  lemma {:induction false} LastHeaderWins(hs: seq<Header>, k: string)
    ensures forall i :: 0 <= i < |hs| && hs[i].key == k && (forall j :: i < j < |hs| ==> hs[j].key != k)
              ==> LastValue(hs, k) == hs[i].value
    ensures !HasKey(hs, k) ==> LastValue(hs, k) == ""
  {
    if hs != [] {
      var init := hs[..|hs| - 1];
      LastHeaderWins(init, k);
      assert forall i :: 0 <= i < |init| ==> init[i] == hs[i];
      if !HasKey(hs, k) {
        assert !HasKey(init, k) by {
          forall i | 0 <= i < |init| ensures init[i].key != k {
            assert hs[i].key != k;
          }
        }
      }
    }
  }

  /**
   * `getTraceAndSpanId`: the last `trace_id` and `span_id` headers; a
   * missing or empty trace id is reported first, then a missing or empty
   * span id.
   */
  method TraceAndSpanId(msg: Message) returns (r: Result<(string, string)>)
    ensures LastValue(msg.headers, "trace_id") == "" ==> r == Err(Plain("missing trace_id field in kafka message header"))
    ensures LastValue(msg.headers, "trace_id") != "" && LastValue(msg.headers, "span_id") == "" ==>
              r == Err(Plain("missing span_id field in kafka message header"))
    ensures r.Ok? <==> LastValue(msg.headers, "trace_id") != "" && LastValue(msg.headers, "span_id") != ""
    ensures r.Ok? ==> r.value == (LastValue(msg.headers, "trace_id"), LastValue(msg.headers, "span_id"))
  {
    var hs := msg.headers;
    var traceId, spanId := "", "";
    var i := 0;
    while i < |hs|
      invariant 0 <= i <= |hs|
      invariant traceId == LastValue(hs[..i], "trace_id") && spanId == LastValue(hs[..i], "span_id")
    {
      assert hs[..i + 1][..i] == hs[..i];
      if hs[i].key == "trace_id" {
        traceId := hs[i].value;
      } else if hs[i].key == "span_id" {
        spanId := hs[i].value;
      }
      i := i + 1;
    }
    assert hs[..|hs|] == hs;
    if |traceId| == 0 {
      return Err(Plain("missing trace_id field in kafka message header"));
    }
    if |spanId| == 0 {
      return Err(Plain("missing span_id field in kafka message header"));
    }
    return Ok((traceId, spanId));
  }

  /** The headers as a map, each key set in turn, so that a later header overwrites an earlier one. */
  function HeaderMap(hs: seq<Header>): map<string, string> {
    if hs == [] then map[]
    else HeaderMap(hs[..|hs| - 1])[hs[|hs| - 1].key := hs[|hs| - 1].value]
  }

  /** The map holds exactly the keys of the headers, each with the value of its last header. */
  lemma {:induction false} HeaderMapHoldsLast(hs: seq<Header>, k: string)
    ensures k in HeaderMap(hs) <==> HasKey(hs, k)
    ensures k in HeaderMap(hs) ==> HeaderMap(hs)[k] == LastValue(hs, k)
  {
    if hs != [] {
      var init := hs[..|hs| - 1];
      HeaderMapHoldsLast(init, k);
      if HasKey(hs, k) && hs[|hs| - 1].key != k {
        var i :| 0 <= i < |hs| && hs[i].key == k;
        assert i < |init| && init[i].key == k;
      }
      if HasKey(init, k) {
        var i :| 0 <= i < |init| && init[i].key == k;
        assert hs[i].key == k;
      }
    }
  }

  /** The fallback id: `topic:partition:offset`. */
  function FallbackId(m: Message): string {
    m.topic + ":" + IntToString(m.partition) + ":" + IntToString(m.offset)
  }

  /** The id `toEvent` derives: the key, else the first of the id headers present, else the fallback. */
  function EventId(m: Message, h: map<string, string>): string {
    if m.key != "" then m.key
    else if "event-id" in h then h["event-id"]
    else if "x-event-id" in h then h["x-event-id"]
    else if "id" in h then h["id"]
    else FallbackId(m)
  }

  /** `toEvent`: the event with the derived id, the topic, the payload and the header map. */
  method ToEvent(m: Message) returns (e: Event)
    ensures e == Event(EventId(m, HeaderMap(m.headers)), m.topic, m.value, HeaderMap(m.headers))
  {
    var h: map<string, string> := map[];
    var i := 0;
    while i < |m.headers|
      invariant 0 <= i <= |m.headers| && h == HeaderMap(m.headers[..i])
    {
      assert m.headers[..i + 1][..i] == m.headers[..i];
      h := h[m.headers[i].key := m.headers[i].value];
      i := i + 1;
    }
    assert m.headers[..|m.headers|] == m.headers;
    var id := m.key;
    if id == "" {
      if "event-id" in h {
        id := h["event-id"];
      } else if "x-event-id" in h {
        id := h["x-event-id"];
      } else if "id" in h {
        id := h["id"];
      } else {
        id := FallbackId(m);
      }
    }
    return Event(id, m.topic, m.value, h);
  }

  /**
   * The id, in terms of the headers: a non-empty key; else the last
   * `event-id` header, even an empty one; else `x-event-id`; else `id`; else
   * `topic:partition:offset`.
   */
  lemma IdChoice(m: Message)
    ensures var id := EventId(m, HeaderMap(m.headers));
            var hs := m.headers;
            && (m.key != "" ==> id == m.key)
            && (m.key == "" && HasKey(hs, "event-id") ==> id == LastValue(hs, "event-id"))
            && (m.key == "" && !HasKey(hs, "event-id") && HasKey(hs, "x-event-id") ==> id == LastValue(hs, "x-event-id"))
            && (m.key == "" && !HasKey(hs, "event-id") && !HasKey(hs, "x-event-id") && HasKey(hs, "id") ==>
                  id == LastValue(hs, "id"))
            && (m.key == "" && !HasKey(hs, "event-id") && !HasKey(hs, "x-event-id") && !HasKey(hs, "id") ==>
                  id == m.topic + ":" + IntToString(m.partition) + ":" + IntToString(m.offset))
  {
    HeaderMapHoldsLast(m.headers, "event-id");
    HeaderMapHoldsLast(m.headers, "x-event-id");
    HeaderMapHoldsLast(m.headers, "id");
  }

  /** A present `event-id` header with an empty value is still the id, and the fallback is not used. */
  lemma EmptyHeaderStillChosen(m: Message)
    requires m.key == "" && |m.headers| > 0 && m.headers[|m.headers| - 1] == Header("event-id", "")
    ensures EventId(m, HeaderMap(m.headers)) == ""
  {
  }

  /** The consumer's list of subscriptions. */
  class Consumer {
    var consumerConfig: seq<ConsumerConfig>

    /** `New`: no subscriptions yet. */
    constructor New()
      ensures consumerConfig == []
    {
      consumerConfig := [];
    }

    /** `Subscribe`: the subscription goes after those made before it. */
    method Subscribe(conf: ConsumerConfig)
      modifies this
      ensures consumerConfig == old(consumerConfig) + [conf]
    {
      consumerConfig := consumerConfig + [conf];
    }
  }
}
