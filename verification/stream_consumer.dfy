/** The consumer loop body, proved to be a run of the delivery protocol. */
module StreamConsumers {
  import opened Text
  import opened Streams
  import opened StreamProtocol
  import opened StreamService

  class StreamConsumer {
    const backend: MemoryStreamBackend
    const stream: string
    const group: string
    const consumer: string
    const deadLetterStream: string
    const cfg: Config

    constructor (backend: MemoryStreamBackend, stream: string, group: string, consumer: string,
                 deadLetterStream: string, cfg: Config)
      ensures this.backend == backend && this.stream == stream && this.group == group && this.consumer == consumer
      ensures this.deadLetterStream == deadLetterStream && this.cfg == cfg
    {
      this.backend, this.stream, this.group := backend, stream, group;
      this.consumer, this.deadLetterStream, this.cfg := consumer, deadLetterStream, cfg;
    }

    /** The backend is in the protocol state w, seen through this consumer's streams. */
    ghost predicate Mirrors(w: World)
      reads this, backend
    {
      && backend.Valid() && stream != deadLetterStream
      && w.now == backend.now && w.once == backend.once
      && w.source == backend.LogOf(stream) && w.group == backend.GroupOf(stream, group)
      && w.dead == backend.LogOf(deadLetterStream)
    }

    /**
     * From w0 the trace, made of this consumer's own steps and the passing of time, leads to w; work survives no crash.
     */
    ghost predicate Leads(w0: World, trace: seq<Action>, w: World, phase: Phase) {
      && w == Run(cfg, w0, trace) && PhaseOf(w, consumer) == phase && (forall i | 0 <= i < |trace| :: Own(trace[i]))
      && (phase.Idle? || Uncrashed(trace))
    }

    /** And the backend is in that state. */
    ghost predicate Follows(w0: World, trace: seq<Action>, w: World, phase: Phase)
      reads this, backend
    {
      Mirrors(w) && Leads(w0, trace, w, phase)
    }

    ghost predicate Own(a: Action) {
      match a
      case Tick(_) => true
      case Start(c, _) => c == consumer
      case Advance(c) => c == consumer
      case Finish(c, _) => c == consumer
      case Crash(c) => c == consumer
      case _ => false
    }

    lemma Step(w0: World, trace: seq<Action>, w: World, phase: Phase, a: Action)
      requires Leads(w0, trace, w, phase) && Own(a) && (a.Start? ==> Uncrashed(trace))
      ensures Leads(w0, trace + [a], Next(cfg, w, a), PhaseOf(Next(cfg, w, a), consumer))
    {
      RunSnoc(cfg, w0, trace, a);
    }

    /** An await: time passes, and the consumer may be cancelled there or find the backend gone. */
    method Await(ghost w0: World, ghost w1: World, ghost trace1: seq<Action>, ghost phase: Phase)
      returns (crashed: bool, ghost w: World, ghost trace: seq<Action>)
      requires Follows(w0, trace1, w1, phase)
      modifies backend
      ensures Follows(w0, trace, w, if crashed then Idle else phase) && w.past.done == w1.past.done
      ensures !crashed && Uncrashed(trace1) ==> Uncrashed(trace)
    {
      var elapsed: nat := *;
      backend.Wait(elapsed);
      Step(w0, trace1, w1, phase, Tick(elapsed));
      crashed, trace, w := false, trace1 + [Tick(elapsed)], Next(cfg, w1, Tick(elapsed));
      if * {
        Step(w0, trace, w, phase, Crash(consumer));
        crashed, trace, w := true, trace + [Crash(consumer)], Next(cfg, w, Crash(consumer));
      }
    }

    /**
     * One batch of claimed and new entries; `crashed` is cancellation or a backend failure before or after any backend
     * call.
     */
    method ProcessAvailable(ghost w0: World)
      returns (handled: nat, crashed: bool, ghost w: World, ghost trace: seq<Action>)
      requires Mirrors(w0) && PhaseOf(w0, consumer).Idle?
      modifies backend
      ensures Follows(w0, trace, w, Idle)
      ensures !crashed ==> w.past.done == w0.past.done + handled && WholeBatch(cfg, w0, trace, consumer)
    {
      handled := 0;
      var rows, more;
      crashed, w, trace := Await(w0, w0, [], Idle);
      if crashed { return; }
      backend.EnsureGroup(stream, group);
      crashed, w, trace := Await(w0, w, trace, Idle);
      if crashed { return; }
      rows, w, trace := ClaimBatch(w0, w, trace);
      handled, crashed, w, trace := Drain(true, rows, w0, w, trace);
      if crashed { return; }
      rows, w, trace := ReadBatch(w0, w, trace);
      more, crashed, w, trace := Drain(false, rows, w0, w, trace);
      handled := handled + more;
      if crashed { return; }
      BatchIsWhole(cfg, w0, trace, consumer);
      WholeBatchGoesOn(cfg, w0, trace, consumer, Advance(consumer));
      Step(w0, trace, w, Batch(false, []), Advance(consumer));
      trace, w := trace + [Advance(consumer)], Next(cfg, w, Advance(consumer));
    }

    method ClaimBatch(ghost w0: World, ghost w1: World, ghost trace1: seq<Action>)
      returns (rows: seq<Row>, ghost w: World, ghost trace: seq<Action>)
      requires Follows(w0, trace1, w1, Idle) && Uncrashed(trace1)
      modifies backend
      ensures Follows(w0, trace, w, Batch(true, rows)) && w.past.done == w1.past.done
    {
      ghost var order;
      rows, order := backend.ClaimStale(stream, group, consumer, cfg.minIdle, cfg.readCount);
      Step(w0, trace1, w1, Idle, Start(consumer, order));
      trace, w := trace1 + [Start(consumer, order)], Next(cfg, w1, Start(consumer, order));
    }

    method ReadBatch(ghost w0: World, ghost w1: World, ghost trace1: seq<Action>)
      returns (rows: seq<Row>, ghost w: World, ghost trace: seq<Action>)
      requires Follows(w0, trace1, w1, Batch(true, []))
      modifies backend
      ensures Follows(w0, trace, w, Batch(false, rows)) && w.past.done == w1.past.done
    {
      rows := backend.ReadNew(stream, group, consumer, cfg.readCount);
      Step(w0, trace1, w1, Batch(true, []), Advance(consumer));
      trace, w := trace1 + [Advance(consumer)], Next(cfg, w1, Advance(consumer));
    }

    /**
     * The loop over one batch; the awaits around it are those after claim_stale or read_new and before each next call.
     */
    method Drain(stale: bool, rows: seq<Row>, ghost w0: World, ghost w1: World, ghost trace1: seq<Action>)
      returns (handled: nat, crashed: bool, ghost w: World, ghost trace: seq<Action>)
      requires Follows(w0, trace1, w1, Batch(stale, rows))
      modifies backend
      ensures Follows(w0, trace, w, if crashed then Idle else Batch(stale, []))
      ensures !crashed ==> w.past.done == w1.past.done + handled
    {
      handled := 0;
      crashed, w, trace := Await(w0, w1, trace1, Batch(stale, rows));
      if crashed { return; }
      for i := 0 to |rows|
        invariant Follows(w0, trace, w, Batch(stale, rows[i..]))
        invariant w.past.done == w1.past.done + handled
      {
        var n;
        n, crashed, w, trace := HandleNext(stale, rows[i..], w0, w, trace);
        if crashed { return; }
        handled := handled + n;
        assert rows[i..][1..] == rows[i + 1..];
        crashed, w, trace := Await(w0, w, trace, Batch(stale, rows[i + 1..]));
        if crashed { return; }
      }
    }

    /** One turn of the loop: an entry claimed from others is checked against max_attempts first. */
    method HandleNext(stale: bool, rows: seq<Row>, ghost w0: World, ghost w1: World, ghost trace1: seq<Action>)
      returns (handled: nat, crashed: bool, ghost w: World, ghost trace: seq<Action>)
      requires rows != [] && Follows(w0, trace1, w1, Batch(stale, rows))
      modifies backend
      ensures Follows(w0, trace, w, if crashed then Idle else Batch(stale, rows[1..]))
      ensures !crashed ==> w.past.done == w1.past.done + handled
    {
      handled := 0;
      var row := rows[0];
      var attempts: nat := 1;
      if stale { attempts := backend.DeliveryCount(stream, group, row.id); }
      Step(w0, trace1, w1, Batch(stale, rows), Advance(consumer));
      trace, w := trace1 + [Advance(consumer)], Next(cfg, w1, Advance(consumer));
      if stale && attempts > cfg.maxAttempts {
        crashed, w, trace := DeadLetter(stale, rows[1..], row, w0, w, trace);
      } else {
        handled, crashed, w, trace := Handle(stale, rows[1..], row, attempts, w0, w, trace);
      }
    }

    method Handle(stale: bool, ghost todo: seq<Row>, row: Row, attempts: nat,
                  ghost w0: World, ghost w1: World, ghost trace1: seq<Action>)
      returns (handled: nat, crashed: bool, ghost w: World, ghost trace: seq<Action>)
      requires Follows(w0, trace1, w1, Busy(stale, todo, row, Checked(attempts)))
      modifies backend
      ensures Follows(w0, trace, w, if crashed then Idle else Batch(stale, todo))
      ensures !crashed ==> w.past.done == w1.past.done + handled
    {
      handled := 0;
      crashed, w, trace := Await(w0, w1, trace1, Busy(stale, todo, row, Checked(attempts)));
      if crashed { return; }
      var dedupe := cfg.dedupe(row.payload);
      var marked;
      marked, w, trace := LookUp(stale, todo, row, attempts, dedupe, w0, w, trace);
      if dedupe.Raises? {
        crashed, w, trace := DeadLetter(stale, todo, row, w0, w, trace);
      } else if marked {
        crashed, w, trace := AckEntry(stale, todo, row, w0, w, trace);
      } else {
        handled, crashed, w, trace := CallHandler(stale, todo, row, KeyOf(dedupe), w0, w, trace);
      }
    }

    function KeyOf(dedupe: Dedupe): Option<string> {
      if dedupe.Key? then Some(dedupe.key) else None
    }

    /** Where the entry stands after its dedupe key was computed and its marker looked up. */
    ghost function Looked(dedupe: Dedupe, marked: bool): Stage {
      if dedupe.Raises? then Dying else if marked then Done else Running(KeyOf(dedupe))
    }

    lemma LookedUp(w: World, stale: bool, todo: seq<Row>, row: Row, attempts: nat)
      requires PhaseOf(w, consumer) == Busy(stale, todo, row, Checked(attempts))
      ensures var w', dedupe := Next(cfg, w, Advance(consumer)), cfg.dedupe(row.payload);
              && w'.now == w.now && w'.once == w.once && w'.source == w.source && w'.group == w.group
              && w'.dead == w.dead
              && w'.past.done == w.past.done
              && PhaseOf(w', consumer)
                 == Busy(stale, todo, row, Looked(dedupe, dedupe.Key? && Marked(w.once, dedupe.key, w.now)))
    {
    }

    method LookUp(stale: bool, ghost todo: seq<Row>, row: Row, ghost attempts: nat, dedupe: Dedupe,
                  ghost w0: World, ghost w1: World, ghost trace1: seq<Action>)
      returns (marked: bool, ghost w: World, ghost trace: seq<Action>)
      requires Follows(w0, trace1, w1, Busy(stale, todo, row, Checked(attempts))) && dedupe == cfg.dedupe(row.payload)
      ensures Follows(w0, trace, w, Busy(stale, todo, row, Looked(dedupe, marked))) && w.past.done == w1.past.done
      ensures marked ==> dedupe.Key?
    {
      marked := false;
      if dedupe.Key? { marked := backend.HasOnce(dedupe.key); }
      Step(w0, trace1, w1, Busy(stale, todo, row, Checked(attempts)), Advance(consumer));
      LookedUp(w1, stale, todo, row, attempts);
      trace, w := trace1 + [Advance(consumer)], Next(cfg, w1, Advance(consumer));
    }

    /** The handler runs for a while and then returns, raises or is cancelled. */
    method CallHandler(stale: bool, ghost todo: seq<Row>, row: Row, key: Option<string>, ghost w0: World,
                       ghost w1: World, ghost trace1: seq<Action>)
      returns (handled: nat, crashed: bool, ghost w: World, ghost trace: seq<Action>)
      requires Follows(w0, trace1, w1, Busy(stale, todo, row, Running(key)))
      modifies backend
      ensures Follows(w0, trace, w, if crashed then Idle else Batch(stale, todo))
      ensures !crashed ==> w.past.done == w1.past.done + handled
    {
      handled := 0;
      crashed, w, trace := Await(w0, w1, trace1, Busy(stale, todo, row, Running(key)));
      if crashed { return; }
      var ok: bool := *;
      Step(w0, trace, w, Busy(stale, todo, row, Running(key)), Finish(consumer, ok));
      trace, w := trace + [Finish(consumer, ok)], Next(cfg, w, Finish(consumer, ok));
      if ok {
        crashed, w, trace := Settle(stale, todo, row, key, w0, w, trace);
        handled := 1;
      }
    }

    /** After success: set the marker, then acknowledge. */
    method Settle(stale: bool, ghost todo: seq<Row>, row: Row, key: Option<string>, ghost w0: World, ghost w1: World,
                  ghost trace1: seq<Action>)
      returns (crashed: bool, ghost w: World, ghost trace: seq<Action>)
      requires Follows(w0, trace1, w1, Busy(stale, todo, row, if key.Some? then Succeeded(key.value) else Done))
      modifies backend
      ensures Follows(w0, trace, w, if crashed then Idle else Batch(stale, todo)) && w.past.done == w1.past.done
    {
      crashed, w, trace := false, w1, trace1;
      if key.Some? {
        crashed, w, trace := SetOnce(stale, todo, row, key.value, w0, w, trace);
        if crashed { return; }
      }
      crashed, w, trace := AckEntry(stale, todo, row, w0, w, trace);
    }

    lemma OnceSet(w: World, stale: bool, todo: seq<Row>, row: Row, key: string)
      requires PhaseOf(w, consumer) == Busy(stale, todo, row, Succeeded(key))
      ensures var w' := Next(cfg, w, Advance(consumer));
              && w'.now == w.now && w'.once == Mark(w.once, key, w.now, cfg.ttlSeconds)
              && w'.source == w.source && w'.group == w.group && w'.dead == w.dead
              && w'.past.done == w.past.done && PhaseOf(w', consumer) == Busy(stale, todo, row, Done)
    {
    }

    method SetOnce(stale: bool, ghost todo: seq<Row>, row: Row, key: string, ghost w0: World, ghost w1: World,
                   ghost trace1: seq<Action>)
      returns (crashed: bool, ghost w: World, ghost trace: seq<Action>)
      requires Follows(w0, trace1, w1, Busy(stale, todo, row, Succeeded(key)))
      modifies backend
      ensures Follows(w0, trace, w, if crashed then Idle else Busy(stale, todo, row, Done))
              && w.past.done == w1.past.done
    {
      crashed, w, trace := Await(w0, w1, trace1, Busy(stale, todo, row, Succeeded(key)));
      if crashed { return; }
      var acquired := backend.AcquireOnce(key, cfg.ttlSeconds);
      Step(w0, trace, w, Busy(stale, todo, row, Succeeded(key)), Advance(consumer));
      OnceSet(w, stale, todo, row, key);
      trace, w := trace + [Advance(consumer)], Next(cfg, w, Advance(consumer));
    }

    lemma Acked(w: World, stale: bool, todo: seq<Row>, row: Row)
      requires PhaseOf(w, consumer) == Busy(stale, todo, row, Done)
      ensures var w' := Next(cfg, w, Advance(consumer));
              && w'.now == w.now && w'.once == w.once && w'.source == w.source && w'.dead == w.dead
              && w'.group == w.group.(pending := w.group.pending - {row.id})
              && w'.past.done == w.past.done && PhaseOf(w', consumer) == Batch(stale, todo)
    {
    }

    method AckEntry(stale: bool, ghost todo: seq<Row>, row: Row, ghost w0: World, ghost w1: World,
                    ghost trace1: seq<Action>)
      returns (crashed: bool, ghost w: World, ghost trace: seq<Action>)
      requires Follows(w0, trace1, w1, Busy(stale, todo, row, Done))
      modifies backend
      ensures Follows(w0, trace, w, if crashed then Idle else Batch(stale, todo)) && w.past.done == w1.past.done
    {
      crashed, w, trace := Await(w0, w1, trace1, Busy(stale, todo, row, Done));
      if crashed { return; }
      backend.Ack(stream, group, row.id);
      Step(w0, trace, w, Busy(stale, todo, row, Done), Advance(consumer));
      Acked(w, stale, todo, row);
      trace, w := trace + [Advance(consumer)], Next(cfg, w, Advance(consumer));
    }

    lemma Copied(w: World, stale: bool, todo: seq<Row>, row: Row)
      requires PhaseOf(w, consumer) == Busy(stale, todo, row, Dying)
      ensures var w' := Next(cfg, w, Advance(consumer));
              && w'.now == w.now && w'.once == w.once && w'.source == w.source && w'.group == w.group
              && w'.dead == Append(w.dead, row.payload, cfg.deadMaxlen)
              && w'.past.done == w.past.done && PhaseOf(w', consumer) == Busy(stale, todo, row, Done)
    {
    }

    method DeadLetter(stale: bool, ghost todo: seq<Row>, row: Row, ghost w0: World, ghost w1: World,
                      ghost trace1: seq<Action>)
      returns (crashed: bool, ghost w: World, ghost trace: seq<Action>)
      requires Follows(w0, trace1, w1, Busy(stale, todo, row, Dying))
      modifies backend
      ensures Follows(w0, trace, w, if crashed then Idle else Batch(stale, todo)) && w.past.done == w1.past.done
    {
      crashed, w, trace := Await(w0, w1, trace1, Busy(stale, todo, row, Dying));
      if crashed { return; }
      var id := backend.Add(deadLetterStream, row.payload, cfg.deadMaxlen);
      Step(w0, trace, w, Busy(stale, todo, row, Dying), Advance(consumer));
      Copied(w, stale, todo, row);
      trace, w := trace + [Advance(consumer)], Next(cfg, w, Advance(consumer));
      crashed, w, trace := AckEntry(stale, todo, row, w0, w, trace);
    }
  }
}
