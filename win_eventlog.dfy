/** The Windows event-log input: one collection cycle (Gather) over the
    collector's bookmark and subscription handles, and the bookmark helper.

    The Windows event-log API is not modelled; its calls are oracles bundled
    in an `Env`. The subscription's successive poll results are a finite
    script, each a batch of handles together with an optional error, as the
    API returns both. */
module EventLog {
  import opened Events
  import Text

  /** Size of the scratch buffer records are rendered into (1 << 14). */
  const RenderBufferSize: nat := 16384

  /** Most handles asked for in one poll of the subscription. */
  const BatchSize: nat := 5

  /** What one EventHandles call hands back: handles and an error, both. */
  datatype PollResult = PollResult(handles: seq<Handle>, err: Option<Errno>)

  /** What a handle-creating call (Subscribe, CreateBookmarkFromEvent) returns. */
  datatype HandleResult = HandleResult(handle: Handle, err: Option<Errno>)

  /** What rendering leaves in the output buffer, and the error it reports. */
  datatype Rendered = Rendered(out: seq<byte>, err: Option<Errno>)

  /** What parsing rendered bytes returns: an event and an error, both. */
  datatype Parsed = Parsed(evt: Event, err: Option<string>)

  /** The arguments of one poll of the subscription. */
  datatype PollRequest = PollRequest(subscription: Handle, max: nat)

  /** How a cycle ends: a return with or without an error, the run-time
      panic of indexing an empty slice, or (in the model only) a script of
      poll results that ran out before the loop returned. */
  datatype Outcome = Returned(err: Option<Errno>) | Panicked | ScriptEnded

  /** The Windows calls a cycle makes, as oracles.
      - signalEvent: the event created for the subscription;
      - evtQuery(channel, query): EvtQuery in reverse direction over the channel;
      - queryNext(h, n): EventHandles on a query result set;
      - subscribe(signal, channel, query, bookmark): Subscribe, starting after the bookmark;
      - polls: the successive results of EventHandles on the subscription;
      - render(h, capacity): RenderEventXML into the reset output buffer;
      - parse(bytes): UnmarshalEventXML;
      - createBookmark(h): CreateBookmarkFromEvent. */
  datatype Env = Env(
    signalEvent: Handle,
    evtQuery: (string, string) -> Handle,
    queryNext: (Handle, nat) -> PollResult,
    subscribe: (Handle, string, string, Handle) -> HandleResult,
    polls: seq<PollResult>,
    render: (Handle, nat) -> Rendered,
    parse: seq<byte> -> Parsed,
    createBookmark: Handle -> HandleResult)

  /** What Gather returns for a failed poll: nil when nothing more is
      buffered, the poll's own error otherwise. */
  function PollExit(err: Errno): (r: Option<Errno>)
    ensures r.None? <==> err == ERROR_NO_MORE_ITEMS
    ensures r.Some? ==> r.value == err
  {
    if err == ERROR_NO_MORE_ITEMS then None else Some(err)
  }

  /** The index of the first poll result that carries an error, or the
      length of the script when none does. */
  function Stop(polls: seq<PollResult>): (n: nat)
    ensures n <= |polls|
    ensures forall i :: 0 <= i < n ==> polls[i].err.None?
    ensures n < |polls| ==> polls[n].err.Some?
  {
    if polls == [] || polls[0].err.Some? then 0 else 1 + Stop(polls[1..])
  }

  /** The metric for one handle: render it into a reset buffer of the given
      capacity, parse what the buffer holds, map the event. A render error
      and a parse error are both ignored. */
  function RecordMetric(env: Env, capacity: nat, h: Handle): (m: Metric)
    ensures m.measurement == Measurement && m.fields.Keys == FieldNames && m.tags.Keys == {"level"}
    ensures m.fields["message"] == Str(Message(env.parse(env.render(h, capacity).out).evt))
  {
    ToMetric(env.parse(env.render(h, capacity).out).evt)
  }

  /** One metric per handle of a batch, in handle order. */
  function BatchMetrics(env: Env, capacity: nat, hs: seq<Handle>): (ms: seq<Metric>)
  {
    seq(|hs|, i requires 0 <= i < |hs| => RecordMetric(env, capacity, hs[i]))
  }

  /** The handles of successive batches, batch after batch. */
  function AllHandles(polls: seq<PollResult>): seq<Handle>
  {
    if polls == [] then []
    else AllHandles(polls[..|polls| - 1]) + polls[|polls| - 1].handles
  }

  /** The metrics of successive batches, batch after batch. */
  function CycleMetrics(env: Env, capacity: nat, polls: seq<PollResult>): seq<Metric>
  {
    if polls == [] then []
    else CycleMetrics(env, capacity, polls[..|polls| - 1])
         + BatchMetrics(env, capacity, polls[|polls| - 1].handles)
  }

  /** The output buffer after rendering the handles `hs` in turn, each into
      the reset buffer, starting from `init`. */
  function AfterRenders(env: Env, capacity: nat, hs: seq<Handle>, init: seq<byte>): seq<byte>
  {
    if hs == [] then init else env.render(hs[|hs| - 1], capacity).out
  }

  lemma {:induction false} AllHandlesAppend(a: seq<PollResult>, b: seq<PollResult>)
    ensures AllHandles(a + b) == AllHandles(a) + AllHandles(b)
  {
    if b == [] {
      assert a + b == a;
    } else {
      var b', x := b[..|b| - 1], b[|b| - 1];
      var ab := a + b;
      assert ab[..|ab| - 1] == a + b';
      assert ab[|ab| - 1] == x;
      assert AllHandles(ab) == AllHandles(a + b') + x.handles;
      assert AllHandles(b) == AllHandles(b') + x.handles;
      AllHandlesAppend(a, b');
    }
  }

  /** Handle j of batch i sits, in the concatenation, after all handles of
      the batches before it. */
  lemma AllHandlesAt(polls: seq<PollResult>, i: nat, j: nat)
    requires i < |polls| && j < |polls[i].handles|
    ensures |AllHandles(polls[..i])| + j < |AllHandles(polls)|
    ensures AllHandles(polls)[|AllHandles(polls[..i])| + j] == polls[i].handles[j]
  {
    assert polls == polls[..i] + [polls[i]] + polls[i + 1..];
    AllHandlesAppend(polls[..i] + [polls[i]], polls[i + 1..]);
    AllHandlesAppend(polls[..i], [polls[i]]);
    assert AllHandles([polls[i]]) == polls[i].handles by {
      assert [polls[i]][..0] == [];
    }
  }

  /** Exactly one metric per handle, metric k being that of handle k:
      a render or parse error never drops a record. */
  lemma {:induction false} CycleMetricsPerHandle(env: Env, capacity: nat, polls: seq<PollResult>)
    ensures |CycleMetrics(env, capacity, polls)| == |AllHandles(polls)|
    ensures forall k :: 0 <= k < |AllHandles(polls)| ==>
      CycleMetrics(env, capacity, polls)[k] == RecordMetric(env, capacity, AllHandles(polls)[k])
  {
    if polls != [] {
      var init, last := polls[..|polls| - 1], polls[|polls| - 1].handles;
      CycleMetricsPerHandle(env, capacity, init);
      var hs, ms := AllHandles(init), CycleMetrics(env, capacity, init);
      assert AllHandles(polls) == hs + last;
      assert CycleMetrics(env, capacity, polls) == ms + BatchMetrics(env, capacity, last);
      forall k | 0 <= k < |AllHandles(polls)|
        ensures CycleMetrics(env, capacity, polls)[k] == RecordMetric(env, capacity, AllHandles(polls)[k])
      {
        if k < |hs| {
          assert (hs + last)[k] == hs[k];
        } else {
          assert (hs + last)[k] == last[k - |hs|];
        }
      }
    }
  }

  /** The metrics come out in batch order, then handle order: the metric of
      handle j in batch i follows the metrics of every earlier batch. */
  lemma MetricOrder(env: Env, capacity: nat, polls: seq<PollResult>, i: nat, j: nat)
    requires i < |polls| && j < |polls[i].handles|
    ensures |AllHandles(polls[..i])| + j < |CycleMetrics(env, capacity, polls)|
    ensures CycleMetrics(env, capacity, polls)[|AllHandles(polls[..i])| + j]
            == RecordMetric(env, capacity, polls[i].handles[j])
  {
    AllHandlesAt(polls, i, j);
    CycleMetricsPerHandle(env, capacity, polls);
  }

  /** One collector instance: its configuration, the handles it keeps
      between cycles (0 while unset) and its render buffers. */
  class WinEventLog {
    const eventlogName: string
    const query: string
    var subscription: Handle
    var bookmark: Handle
    const buf: seq<byte>
    var out: seq<byte>

    /** A fresh collector, as the plugin factory builds it: no handles, a
        render buffer of RenderBufferSize bytes and an empty output buffer. */
    constructor (eventlogName: string, query: string)
      ensures this.eventlogName == eventlogName && this.query == query
      ensures subscription == 0 && bookmark == 0
      ensures |buf| == RenderBufferSize && out == []
    {
      this.eventlogName := eventlogName;
      this.query := query;
      subscription, bookmark := 0, 0;
      buf := seq(RenderBufferSize, _ => 0);
      out := [];
    }

    /** The result of asking the reverse-direction query of the channel for
        one handle: the newest matching event first. */
    function LastEvents(env: Env): PollResult
    {
      env.queryNext(env.evtQuery(eventlogName, query), 1)
    }

    /** Sets the bookmark. When it is unset, from the newest event of the
        channel, taking element 0 of the query's result with no check that
        there is one (an empty result panics); otherwise from `evt`. The
        handle a call returns is stored even when it also reports an error. */
    method UpdateBookmark(env: Env, evt: Handle) returns (panicked: bool)
      modifies this`bookmark
      ensures old(bookmark) == 0 ==>
        var last := LastEvents(env);
        && panicked == (last.handles == [])
        && bookmark == (if panicked then old(bookmark) else env.createBookmark(last.handles[0]).handle)
      ensures old(bookmark) != 0 ==> !panicked && bookmark == env.createBookmark(evt).handle
    {
      panicked := false;
      if bookmark == 0 {
        var lastEventsHandle := env.evtQuery(eventlogName, query);
        var lastEventHandle := env.queryNext(lastEventsHandle, 1);
        if |lastEventHandle.handles| == 0 {
          panicked := true;
          return;
        }
        var created := env.createBookmark(lastEventHandle.handles[0]);
        bookmark := created.handle;
      } else {
        var created := env.createBookmark(evt);
        bookmark := created.handle;
      }
    }

    /** The body of the drain loop for one handle: reset the output buffer,
        render the handle into it (a render error is only logged), parse
        what it holds (a parse error is dropped) and form the metric. */
    method EmitRecord(env: Env, eventHandle: Handle) returns (metric: Metric)
      modifies this`out
      ensures out == env.render(eventHandle, |buf|).out
      ensures metric == RecordMetric(env, |buf|, eventHandle)
    {
      out := [];
      var rendered := env.render(eventHandle, |buf|);
      out := out + rendered.out;
      var parsed := env.parse(out);
      var evt := parsed.evt;
      var message := CollectValues(evt.eventData);
      metric := EventMetric(evt, Text.Join(message, [Newline]));
    }

    /** The inner loop over one successful batch: one metric per handle,
        in handle order. */
    method EmitBatch(env: Env, eventHandles: seq<Handle>) returns (metrics: seq<Metric>)
      modifies this`out
      ensures metrics == BatchMetrics(env, |buf|, eventHandles)
      ensures out == AfterRenders(env, |buf|, eventHandles, old(out))
    {
      metrics := [];
      for i := 0 to |eventHandles|
        invariant metrics == BatchMetrics(env, |buf|, eventHandles[..i])
        invariant out == AfterRenders(env, |buf|, eventHandles[..i], old(out))
      {
        var metric := EmitRecord(env, eventHandles[i]);
        metrics := metrics + [metric];
        assert eventHandles[..i + 1][..i] == eventHandles[..i];
      }
      assert eventHandles[..|eventHandles|] == eventHandles;
    }

    /** The poll loop: polls the subscription for up to BatchSize handles at
        a time and emits each batch, until a poll reports an error. The only
        ways out are the two returns on a poll error (and, in the model, the
        end of the script). */
    method Drain(env: Env) returns (emitted: seq<Metric>, requests: seq<PollRequest>, outcome: Outcome)
      modifies this`out
      ensures outcome != Panicked
      ensures
        var n := Stop(env.polls);
        && emitted == CycleMetrics(env, |buf|, env.polls[..n])
        && outcome == (if n == |env.polls| then ScriptEnded else Returned(PollExit(env.polls[n].err.value)))
        && |requests| == (if n == |env.polls| then n else n + 1)
        && (forall i :: 0 <= i < |requests| ==> requests[i] == PollRequest(subscription, BatchSize))
        && out == AfterRenders(env, |buf|, AllHandles(env.polls[..n]), old(out))
    {
      emitted, requests := [], [];
      var k := 0;
      while k < |env.polls|
        invariant k <= Stop(env.polls)
        invariant emitted == CycleMetrics(env, |buf|, env.polls[..k])
        invariant |requests| == k
        invariant forall i :: 0 <= i < k ==> requests[i] == PollRequest(subscription, BatchSize)
        invariant out == AfterRenders(env, |buf|, AllHandles(env.polls[..k]), old(out))
      {
        requests := requests + [PollRequest(subscription, BatchSize)];
        var eventHandles := env.polls[k];
        if eventHandles.err.Some? {
          outcome := Returned(PollExit(eventHandles.err.value));
          return;
        }
        ghost var done := AllHandles(env.polls[..k]);
        var metrics := EmitBatch(env, eventHandles.handles);
        emitted := emitted + metrics;
        assert env.polls[..k + 1][..k] == env.polls[..k];
        assert AllHandles(env.polls[..k + 1]) == done + eventHandles.handles;
        k := k + 1;
      }
      outcome := ScriptEnded;
    }

    /** One collection cycle. Initialises the bookmark if unset and opens
        the subscription if unset, then drains the subscription. The source
        places a bookmark update from the last handle after the poll loop,
        but the loop is left only by returning, so that update never runs
        and a bookmark that is set is never changed. */
    method Gather(env: Env) returns (emitted: seq<Metric>, requests: seq<PollRequest>, outcome: Outcome)
      modifies this`bookmark, this`subscription, this`out
      ensures old(bookmark) != 0 ==> bookmark == old(bookmark)
      ensures outcome == Panicked <==> old(bookmark) == 0 && LastEvents(env).handles == []
      ensures old(bookmark) == 0 ==>
        var last := LastEvents(env);
        bookmark == (if last.handles == [] then 0 else env.createBookmark(last.handles[0]).handle)
      ensures outcome == Panicked ==>
        && subscription == old(subscription) && out == old(out)
        && emitted == [] && requests == []
      ensures outcome != Panicked ==>
        var n := Stop(env.polls);
        && subscription == (if old(subscription) != 0 then old(subscription)
                            else env.subscribe(env.signalEvent, eventlogName, query, bookmark).handle)
        && emitted == CycleMetrics(env, |buf|, env.polls[..n])
        && outcome == (if n == |env.polls| then ScriptEnded else Returned(PollExit(env.polls[n].err.value)))
        && |requests| == (if n == |env.polls| then n else n + 1)
        && (forall i :: 0 <= i < |requests| ==> requests[i] == PollRequest(subscription, BatchSize))
        && out == AfterRenders(env, |buf|, AllHandles(env.polls[..n]), old(out))
    {
      if bookmark == 0 {
        var panicked := UpdateBookmark(env, 0);
        if panicked {
          emitted, requests, outcome := [], [], Panicked;
          return;
        }
      }
      if subscription == 0 {
        var subscribed := env.subscribe(env.signalEvent, eventlogName, query, bookmark);
        subscription := subscribed.handle;
      }
      emitted, requests, outcome := Drain(env);
    }
  }
}
