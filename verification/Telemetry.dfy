/** The telemetry run log: src/telemetry/service.ts, lines 207-243, 282-305, 341-390 and 443-543.
  *
  * A run queues its call records until its writer is open, then flushes them and writes each
  * record as it comes; any write may fail. The asynchronous parts are methods of their own, called
  * when what they await has settled: in the meantime calls go on, and the run may no longer be the
  * current one. */
module Telemetry {
  import opened Wrappers

  datatype Record =
    | Header(runId: string, git: Option<string>)
    | CallRecord(callId: string, callIndex: nat, tool: string, facts: string)

  datatype PendingCall = PendingCall(id: string, index: nat, tool: string)

  /** The lines a writer took, and whether it takes more: not after an error or when closed. */
  datatype Writer = Writer(lines: seq<Record>, accepting: bool)

  class RunState {
    const id: string
    var header: Record
    var enabled: bool
    var closing: bool
    var initializing: bool
    var writer: Option<Writer>
    var queued: seq<Record>
    ghost var reported: seq<Record>   // the header and every call recorded in this run

    ghost predicate Waiting()
      reads this
    {
      writer.None? && enabled ==> reported == [header] + queued
    }

    /** The file never holds anything but a beginning of what was reported. */
    ghost predicate OnDisk()
      reads this
    {
      writer.Some? ==> writer.value.lines <= reported
    }

    /** What is queued does not wait in vain: opening the writer has begun. */
    ghost predicate Begun()
      reads this
    {
      writer.None? && enabled && !closing && queued != [] ==> initializing
    }

    ghost predicate Valid()
      reads this
    {
      Waiting() && OnDisk() && Begun() && header.Header?
    }

    constructor (id: string)
      ensures Valid() && enabled && !closing && !initializing && writer == None && queued == []
      ensures this.id == id && header == Header(id, None) && reported == [header]
    {
      this.id := id;
      header, enabled, closing, initializing, writer, queued := Header(id, None), true, false, false, None, [];
      reported := [Header(id, None)];
    }
  }

  /** Call records carry the number of their start, each at most once, and none of a call still pending. */
  ghost predicate Indexed(records: seq<Record>, pending: map<string, PendingCall>, starts: seq<string>)
  {
    && (forall i | 0 <= i < |records| && records[i].CallRecord? ::
          records[i].callIndex < |starts| && starts[records[i].callIndex] == records[i].callId)
    && (forall i, j | 0 <= i < j < |records| && records[i].CallRecord? && records[j].CallRecord? :: records[i].callIndex != records[j].callIndex)
    && (forall id | id in pending :: pending[id].id == id && pending[id].index < |starts| && starts[pending[id].index] == id)
    && (forall id, i | id in pending && 0 <= i < |records| && records[i].CallRecord? :: records[i].callIndex != pending[id].index)
  }

  lemma StartIndexed(records: seq<Record>, pending: map<string, PendingCall>, starts: seq<string>, call: PendingCall)
    requires Indexed(records, pending, starts) && call.index == |starts|
    ensures Indexed(records, pending[call.id := call], starts + [call.id])
  {
  }

  lemma EndIndexed(records: seq<Record>, pending: map<string, PendingCall>, starts: seq<string>, call: PendingCall, facts: string)
    requires Indexed(records, pending, starts) && call.id in pending && pending[call.id] == call
    ensures Indexed(records, pending - {call.id}, starts)
    ensures Indexed(records + [CallRecord(call.id, call.index, call.tool, facts)], pending - {call.id}, starts)
  {
    var record := CallRecord(call.id, call.index, call.tool, facts);
    forall id | id in pending - {call.id} ensures pending[id].index != call.index {
      assert starts[pending[id].index] == id;
    }
  }

  class TelemetryService {
    var run: RunState?
    var pending: map<string, PendingCall>
    var records: seq<Record>
    var nextCallIndex: nat
    ghost var starts: seq<string>     // the calls of this run in the order they started

    /** What is on disk is what is reported; before the writer is open, the header and the queue are. */
    ghost predicate Reported()
      reads this, run
    {
      if run == null then records == []
      else if !run.enabled then records == [] && pending == map[] && run.queued == []
      else
        && records == run.reported && records != [] && records[0] == run.header
        && (run.writer.Some? ==> run.writer.value.lines == records && run.queued == [])
        && (run.writer.None? ==> records == [run.header] + run.queued)
    }

    ghost predicate Valid()
      reads this, run
    {
      && Reported()
      && nextCallIndex == |starts|
      && (run == null ==> pending == map[])
      && (run != null ==> run.Valid() && Indexed(run.reported, pending, starts))
    }

    constructor ()
      ensures Valid() && run == null
    {
      run, pending, records, nextCallIndex := null, map[], [], 0;
      starts := [];
    }

    /** A new run starts with its header; the one before it is left to close. */
    method OnSessionStart(runId: string)
      requires Valid()
      modifies this, run
      ensures Valid() && run != null && fresh(run) && run.id == runId && run.enabled && run.writer == None && !run.initializing
      ensures records == [Header(runId, None)] && pending == map[] && starts == []
      ensures old(run) != null ==> old(run).Valid() && old(run).closing && old(run).reported == old(run.reported)
    {
      var previous := run;
      pending, records, nextCallIndex := map[], [], 0;
      starts := [];
      run := new RunState(runId);
      records := [run.header];
      if previous != null { previous.closing := true; }
    }

    method OnToolExecutionStart(id: string, tool: string)
      requires Valid()
      modifies this
      ensures Valid() && run == old(run) && records == old(records)
      ensures if run != null && run.enabled then
                pending == old(pending)[id := PendingCall(id, old(nextCallIndex), tool)] && starts == old(starts) + [id]
              else pending == old(pending) && starts == old(starts)
    {
      if run == null || !run.enabled { return; }
      var call := PendingCall(id, nextCallIndex, tool);
      StartIndexed(run.reported, pending, starts, call);
      nextCallIndex := nextCallIndex + 1;
      pending := pending[id := call];
      starts := starts + [id];
    }

    /** A pending call that ends is reported once, unless the write fails or the run closed before its
      * writer was open. */
    method OnToolExecutionEnd(id: string, tool: string, facts: string)
      requires Valid()
      modifies this, run
      ensures Valid() && run == old(run) && starts == old(starts)
      ensures run == null || !old(run.enabled) || !(id in old(pending) && old(pending)[id].tool == tool) ==>
                records == old(records) && pending == old(pending)
      ensures run != null && old(run.enabled) && id in old(pending) && old(pending)[id].tool == tool && run.enabled ==>
                && pending == old(pending) - {id}
                && records == if run.writer.None? && run.closing then old(records)
                              else old(records) + [CallRecord(id, old(pending)[id].index, tool, facts)]
      ensures run != null && run.writer.None? ==> run.enabled == old(run.enabled)
    {
      hide Indexed;
      if run == null || !run.enabled || id !in pending || pending[id].tool != tool { return; }
      var call := pending[id];
      PendingHasId(run.reported, pending, starts, id);
      EndIndexed(run.reported, pending, starts, call, facts);
      pending := pending - {id};
      FewerPending(run.reported, pending, starts);
      Append(CallRecord(id, call.index, tool, facts));
    }

    method Append(record: Record)
      requires run != null && run.enabled && run.Valid() && Reported()
      modifies this`records, this`pending, run`writer, run`queued, run`reported, run`enabled, run`initializing
      ensures run.Valid() && Reported() && run.header == old(run.header)
      ensures run.enabled ==>
                && pending == old(pending)
                && records == if run.writer.None? && run.closing then old(records) else old(records) + [record]
      ensures !run.enabled ==> run.reported == old(run.reported)
      ensures run.writer.None? <==> old(run.writer).None?
      ensures run.writer.None? ==> run.enabled
    {
      if run.writer.None? {
        if !run.closing {
          run.queued := run.queued + [record];
          records := records + [record];
          run.reported := run.reported + [record];
          EnsureRunInitialized(run);
        }
        return;
      }
      var ok := WriteToRun(run, record);
      if ok {
        records := records + [record];
        run.reported := run.reported + [record];
      }
    }

    method EnsureRunInitialized(r: RunState)
      modifies r`initializing
      ensures r.initializing <==> old(r.initializing) || (!r.closing && r.enabled && r.queued != [])
    {
      if r.initializing || r.closing || !r.enabled || r.queued == [] { return; }
      r.initializing := true;
    }

    /** One line for a run: it is taken, or the current run is disabled. */
    method WriteToRun(r: RunState, record: Record) returns (ok: bool)
      requires run != null && r.id == run.id ==> r == run
      requires r.enabled && r.writer.Some?
      modifies this`records, this`pending, r`writer, r`enabled, r`queued
      ensures r.writer.Some? && r.writer.value.lines == if ok then old(r.writer).value.lines + [record] else old(r.writer).value.lines
      ensures ok <==> r.writer.value.accepting
      ensures ok || run != r ==> r.enabled && r.queued == old(r.queued) && records == old(records) && pending == old(pending)
      ensures !ok && run == r ==> !r.enabled && r.queued == [] && records == [] && pending == map[]
    {
      var accepted: bool := *;
      if r.writer.value.accepting && accepted {
        r.writer := Some(r.writer.value.(lines := r.writer.value.lines + [record]));
        return true;
      }
      r.writer := Some(r.writer.value.(accepting := false));
      if run != null && r.id == run.id { DisableRun(); }
      return false;
    }

    /** `disableRun` for the current run; for any other it does nothing. */
    method DisableRun()
      requires run != null
      modifies this`records, this`pending, run`enabled, run`queued
      ensures !run.enabled
      ensures if old(run.enabled) then run.queued == [] && records == [] && pending == map[]
              else run.queued == old(run.queued) && records == old(records) && pending == old(pending)
    {
      if !run.enabled { return; }
      run.enabled := false;
      pending := map[];
      run.queued := [];
      records := [];
    }

    /** The rest of `initializeRun`, once the writer (if it could be opened) and the revision are there.
      * A write that fails leaves a beginning of the header and the queue in the file. */
    method FinishInitialization(r: RunState, ready: bool, git: Option<string>)
      requires Valid() && r.Valid() && r.initializing && r.writer.None?
      requires run != null && r.id == run.id ==> r == run
      modifies this, r
      ensures Valid() && r.Valid() && run == old(run) && starts == old(starts)
      ensures ready && old(r.enabled) ==>
                && r.writer.Some? && r.reported == [r.header] + old(r.queued)
                && r.header == (if git.None? then old(r.header) else old(r.header).(git := git))
                && (r == run && r.enabled ==>
                      records == r.writer.value.lines == [r.header] + old(r.queued) && r.writer.value.accepting && pending == old(pending))
      ensures !ready || !old(r.enabled) ==> r.writer.None? && (r == run ==> records == if ready then old(records) else [])
      ensures r != run ==> records == old(records) && pending == old(pending)
    {
      hide Indexed;
      if !ready {
        if run != null && r.id == run.id {
          FewerPending(run.reported, pending, starts);
          DisableRun();
        }
        return;
      }
      if !r.enabled { return; }
      r.writer := Some(Writer([], true));
      var original := r.header;
      if git.Some? { r.header := original.(git := git); }
      if run == r { records := [r.header] + records[1..]; }
      if run == r { HeaderIndexed(original, r.queued, pending, starts, r.header); }
      r.reported := [r.header] + r.queued;
      if run == r { FewerPending(r.reported, pending, starts); }
      Flush(r);
    }

    method Flush(r: RunState)
      requires r.enabled && r.writer.Some? && r.writer.value.lines == [] && r.reported == [r.header] + r.queued && r.header.Header?
      requires run != null && r.id == run.id ==> r == run
      requires r == run ==> records == r.reported
      modifies this`records, this`pending, r`writer, r`enabled, r`queued
      ensures r.Valid() && r.writer.Some?
      ensures r == run ==> Reported() && (r.enabled ==> pending == old(pending) && records == old(records) && r.writer.value.accepting)
      ensures r != run ==> records == old(records) && pending == old(pending)
    {
      var ok := WriteToRun(r, r.header);
      if !ok { return; }
      var next := 0;
      ghost var all := r.reported;
      assert [r.header] == all[..1];
      while next < |r.queued|
        invariant next <= |r.queued| && r.queued == old(r.queued) && r.enabled && r.writer.Some?
        invariant r.writer.value.lines == all[..next + 1]
        invariant records == old(records) && pending == old(pending) && r.writer.value.accepting
      {
        assert all[next + 1] == r.queued[next] && all[..next + 2] == all[..next + 1] + [all[next + 1]];
        ok := WriteToRun(r, r.queued[next]);
        if !ok { return; }
        next := next + 1;
      }
      assert all[..next + 1] == all;
      r.queued := [];
    }

    /** The session ends: pending calls are dropped, and the writer will be closed. */
    method OnSessionShutdown()
      requires Valid()
      modifies this, run
      ensures Valid() && run == old(run) && pending == map[] && records == old(records)
      ensures run != null ==> run.closing && run.reported == old(run.reported)
    {
      hide Indexed;
      pending := map[];
      if run != null {
        FewerPending(run.reported, old(pending), starts);
        run.closing := true;
      }
    }

    /** The writer stops taking lines: it was closed, or reported an error of its own accord. */
    method StopWriter(r: RunState, failed: bool)
      requires Valid() && r.Valid() && r.writer.Some?
      requires run != null && r.id == run.id ==> r == run
      modifies this, r
      ensures Valid() && r.Valid() && run == old(run)
      ensures r.writer == Some(Writer(old(r.writer).value.lines, false))
      ensures if r == run && failed then !r.enabled && records == [] else records == old(records)
    {
      hide Indexed;
      r.writer := Some(r.writer.value.(accepting := false));
      if failed && run != null && r.id == run.id {
        FewerPending(run.reported, pending, starts);
        DisableRun();
      }
    }
  }

  lemma PendingHasId(records: seq<Record>, pending: map<string, PendingCall>, starts: seq<string>, id: string)
    requires Indexed(records, pending, starts) && id in pending
    ensures pending[id].id == id
  {
  }

  lemma HeaderIndexed(header: Record, calls: seq<Record>, pending: map<string, PendingCall>, starts: seq<string>, changed: Record)
    requires Indexed([header] + calls, pending, starts) && header.Header? && changed.Header?
    ensures Indexed([changed] + calls, pending, starts)
  {
    assert forall i | 0 < i < |calls| + 1 :: ([changed] + calls)[i] == ([header] + calls)[i];
  }

  lemma FewerPending(records: seq<Record>, pending: map<string, PendingCall>, starts: seq<string>)
    requires Indexed(records, pending, starts)
    ensures Indexed(records, map[], starts)
  {
  }

  /** Whatever part of a run is on disk, its calls have distinct numbers, in the order they started. */
  lemma DiskIsIndexed(service: TelemetryService)
    requires service.Valid() && service.run != null && service.run.writer.Some?
    ensures Indexed(service.run.writer.value.lines, map[], service.starts)
    ensures service.run.enabled ==> service.run.writer.value.lines == service.records
  {
    var lines, reported := service.run.writer.value.lines, service.run.reported;
    assert forall i | 0 <= i < |lines| :: lines[i] == reported[i];
  }
}
