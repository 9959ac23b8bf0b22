/** The exec-bridge path of `backend/demo.js`: a store command is run by the
    command-line client inside the container, and the text it writes to its
    output stream is collected until the stream ends. */
module ExecBridge {
  import opened Outcomes
  import opened JsText

  /** The command-line client run inside the container. */
  const REDIS_CLI := "redis-cli"

  /** The command line handed to the container engine: the client, then the
      command, then its arguments in the order given. */
  function CommandLine(command: string, args: seq<string>): (cmd: seq<string>)
    ensures |cmd| == |args| + 2
    ensures cmd[0] == REDIS_CLI && cmd[1] == command
    ensures forall k :: 0 <= k < |args| ==> cmd[k + 2] == args[k]
  {
    [REDIS_CLI, command] + args
  }

  /** Nothing is dropped, reordered or merged: the command line determines
      the command and every argument. */
  lemma CommandLineInjective(c1: string, a1: seq<string>, c2: string, a2: seq<string>)
    requires CommandLine(c1, a1) == CommandLine(c2, a2)
    ensures c1 == c2 && a1 == a2
  {
    var cmd := CommandLine(c1, a1);
    assert |a1| == |a2|;
    forall k | 0 <= k < |a1| ensures a1[k] == a2[k] {
      assert cmd[k + 2] == a1[k] && cmd[k + 2] == a2[k];
    }
  }

  /** What the output stream delivers to its listeners, in order. */
  datatype StreamEvent = Data(chunk: string) | End | Error(message: string)

  /** The state of the promise `executeRedisCommand` returns. */
  datatype Settlement = Pending | Resolved(output: string) | Rejected(reason: string)

  /** The concatenation of every data chunk in `events`, in arrival order. */
  function Chunks(events: seq<StreamEvent>): string
  {
    if events == [] then ""
    else (if events[0].Data? then events[0].chunk else "") + Chunks(events[1..])
  }

  lemma {:induction false} ChunksAppend(p: seq<StreamEvent>, q: seq<StreamEvent>)
    ensures Chunks(p + q) == Chunks(p) + Chunks(q)
  {
    if p == [] {
      assert p + q == q;
    } else {
      assert (p + q)[1..] == p[1..] + q;
      ChunksAppend(p[1..], q);
    }
  }

  predicate AllData(events: seq<StreamEvent>) {
    forall k :: 0 <= k < |events| ==> events[k].Data?
  }

  /** The handlers' reference semantics, one event at a time: `acc` is what
      the data handler has appended so far; the first `end` resolves with the
      trimmed text, the first `error` rejects; later events cannot change a
      settled promise. */
  function SettleFrom(acc: string, events: seq<StreamEvent>): Settlement
    decreases |events|
  {
    if events == [] then Pending
    else match events[0]
      case Data(c) => SettleFrom(acc + c, events[1..])
      case End => Resolved(Trim(acc))
      case Error(m) => Rejected(m)
  }

  function Settle(events: seq<StreamEvent>): Settlement {
    SettleFrom("", events)
  }

  lemma {:induction false} SettleFromData(acc: string, ds: seq<StreamEvent>, rest: seq<StreamEvent>)
    requires AllData(ds)
    ensures SettleFrom(acc, ds + rest) == SettleFrom(acc + Chunks(ds), rest)
    decreases |ds|
  {
    if ds == [] {
      assert ds + rest == rest && acc + Chunks(ds) == acc;
    } else {
      assert (ds + rest)[1..] == ds[1..] + rest;
      SettleFromData(acc + ds[0].chunk, ds[1..], rest);
      assert acc + ds[0].chunk + Chunks(ds[1..]) == acc + Chunks(ds);
    }
  }

  /** A stream of data chunks followed by `end` resolves with the trimmed
      concatenation of those chunks, whatever comes after. */
  lemma ResolvesOnEnd(ds: seq<StreamEvent>, rest: seq<StreamEvent>)
    requires AllData(ds)
    ensures Settle(ds + [End] + rest) == Resolved(Trim(Chunks(ds)))
    ensures NoOuterWhitespace(Settle(ds + [End] + rest).output)
  {
    var tail := [End] + rest;
    assert ds + [End] + rest == ds + tail;
    SettleFromData("", ds, tail);
    assert "" + Chunks(ds) == Chunks(ds);
    assert SettleFrom(Chunks(ds), tail) == Resolved(Trim(Chunks(ds)));
  }

  /** A stream of data chunks followed by `error` rejects with that error,
      whatever comes after. */
  lemma RejectsOnError(ds: seq<StreamEvent>, m: string, rest: seq<StreamEvent>)
    requires AllData(ds)
    ensures Settle(ds + [Error(m)] + rest) == Rejected(m)
  {
    var tail := [Error(m)] + rest;
    assert ds + [Error(m)] + rest == ds + tail;
    SettleFromData("", ds, tail);
  }

  /** Without a terminal event the promise stays pending. */
  lemma PendingWithoutTerminal(ds: seq<StreamEvent>)
    requires AllData(ds)
    ensures Settle(ds) == Pending
  {
    assert ds + [] == ds;
    SettleFromData("", ds, []);
  }

  /** A promise settles once: events after the first terminal one change nothing. */
  lemma {:induction false} SettledStays(acc: string, p: seq<StreamEvent>, q: seq<StreamEvent>)
    requires SettleFrom(acc, p) != Pending
    ensures SettleFrom(acc, p + q) == SettleFrom(acc, p)
    decreases |p|
  {
    assert p != [];
    assert (p + q)[0] == p[0] && (p + q)[1..] == p[1..] + q;
    if p[0].Data? {
      SettledStays(acc + p[0].chunk, p[1..], q);
    }
  }

  /** A pending promise has seen only data chunks. */
  lemma {:induction false} PendingMeansAllData(acc: string, p: seq<StreamEvent>)
    requires SettleFrom(acc, p) == Pending
    ensures AllData(p)
    decreases |p|
  {
    if p != [] {
      PendingMeansAllData(acc + p[0].chunk, p[1..]);
      assert forall k :: 1 <= k < |p| ==> p[k] == p[1..][k - 1];
    }
  }

  /** The outcome after one more event, from the outcome before it. */
  lemma SettleSnoc(p: seq<StreamEvent>, e: StreamEvent)
    ensures Settle(p + [e]) ==
      if Settle(p) != Pending then Settle(p)
      else match e
        case Data(_) => Pending
        case End => Resolved(Trim(Chunks(p)))
        case Error(m) => Rejected(m)
  {
    if Settle(p) != Pending {
      SettledStays("", p, [e]);
    } else {
      PendingMeansAllData("", p);
      SettleFromData("", p, [e]);
      assert "" + Chunks(p) == Chunks(p);
    }
  }

  /** The listeners of `executeRedisCommand`, run over the events the stream
      delivers: `output` collects every data chunk, and the first terminal
      event settles `result`. */
  method Collect(events: seq<StreamEvent>) returns (result: Settlement, output: string)
    ensures result == Settle(events)
    ensures output == Chunks(events)
  {
    output := "";
    result := Pending;
    var i := 0;
    while i < |events|
      invariant 0 <= i <= |events|
      invariant output == Chunks(events[..i])
      invariant result == Settle(events[..i])
    {
      var e := events[i];
      SettleSnoc(events[..i], e);
      ChunksAppend(events[..i], [e]);
      assert events[..i + 1] == events[..i] + [e];
      match e {
        case Data(c) =>
          output := output + c;
        case End =>
          if result == Pending {
            result := Resolved(Trim(output));
          }
        case Error(m) =>
          if result == Pending {
            result := Rejected(m);
          }
      }
      i := i + 1;
    }
    assert events[..i] == events;
  }

  /** `executeRedisCommand`: ask the engine for an exec instance running the
      command line, start it, and collect its output stream. Either engine
      call failing rejects the promise with that call's error. */
  method ExecuteRedisCommand(command: string, args: seq<string>,
                             create: Outcome, start: Outcome, events: seq<StreamEvent>)
    returns (cmd: seq<string>, result: Settlement)
    ensures cmd == CommandLine(command, args)
    ensures create.Failed? ==> result == Rejected(create.message)
    ensures create.Done? && start.Failed? ==> result == Rejected(start.message)
    ensures create.Done? && start.Done? ==> result == Settle(events)
  {
    cmd := CommandLine(command, args);
    if create.Failed? {
      return cmd, Rejected(create.message);
    }
    if start.Failed? {
      return cmd, Rejected(start.message);
    }
    var output;
    result, output := Collect(events);
  }
}
