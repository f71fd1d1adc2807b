/** The event-sourced session: its events, its state, and what one event does to the state. */
module SessionModel {
  import opened Wrappers
  import opened Protocol

  const SESSION_SCHEMA_VERSION: nat := 4

  datatype GoalStatus = Active | Complete

  datatype Goal = Goal(objective: string, status: GoalStatus, timeUsedSeconds: u64,
                       createdAt: string, updatedAt: string, tokensUsed: u64)

  datatype ContextCheckpoint = ContextCheckpoint(baseMessageId: u64, messages: seq<Message>, reason: string)

  datatype Event =
    | MessageAdded(message: Message)
    | MessageEdit(messageId: u64, edited: Message)
    | TruncateAfter(lastKept: u64)
    | CheckpointRecorded(checkpoint: ContextCheckpoint)
    | Finish(finishReason: Option<string>)
    | Error(error: string)
    | GoalSet(goal: Goal)
    | GoalCleared
    | GoalCompleted(completed: Goal)
    | GoalUsage(seconds: u64, tokens: u64)

  datatype EventLine = EventLine(schemaVersion: nat, seqNo: u64, tsMs: u64, event: Event)

  datatype Meta = Meta(lastSeq: u64, lastSnapshotSeq: u64, messageCount: nat,
                       lastFinishReason: Option<string>, lastError: Option<string>, goal: Option<Goal>)

  datatype State = State(meta: Meta, messages: seq<Message>, messageIds: seq<u64>,
                         contextCheckpoint: Option<ContextCheckpoint>)

  const EMPTY := State(Meta(0, 0, 0, None, None, None), [], [], None)

  function Max(a: u64, b: u64): u64 {
    if a < b then b else a
  }

  /** Position of the first occurrence of `id`, or the length when there is none. */
  function IndexOf(ids: seq<u64>, id: u64): (i: nat)
    ensures i <= |ids|
    ensures i < |ids| ==> ids[i] == id
    ensures i == |ids| <==> id !in ids
  {
    if ids == [] then 0 else if ids[0] == id then 0 else 1 + IndexOf(ids[1..], id)
  }

  function AddUsage(goal: Goal, seconds: u64, tokens: u64, now: string): Goal {
    goal.(timeUsedSeconds := SatAdd(goal.timeUsedSeconds, seconds),
          tokensUsed := SatAdd(goal.tokensUsed, tokens),
          updatedAt := now)
  }

  /** Rewinds to the first `count` messages, forgetting how the run ended. */
  function Rewind(s: State, count: nat, id: u64): State
    requires count <= |s.messages| && count <= |s.messageIds|
  {
    State(s.meta.(messageCount := count, lastFinishReason := None, lastError := None),
          s.messages[..count], s.messageIds[..count],
          if s.contextCheckpoint.Some? && s.contextCheckpoint.value.baseMessageId >= id
          then None else s.contextCheckpoint)
  }

  /** What one event does; `now` is the wall clock a usage event stamps on the goal. */
  function Apply(s0: State, line: EventLine, now: string): State
    requires |s0.messages| == |s0.messageIds|
    ensures |Apply(s0, line, now).messages| == |Apply(s0, line, now).messageIds|
  {
    var s := s0.(meta := s0.meta.(lastSeq := Max(s0.meta.lastSeq, line.seqNo)));
    match line.event
    case MessageAdded(message) =>
      s.(messages := s.messages + [message], messageIds := s.messageIds + [line.seqNo],
         meta := s.meta.(messageCount := |s.messages| + 1))
    case MessageEdit(id, message) =>
      var i := IndexOf(s.messageIds, id);
      if i < |s.messageIds| then s.(messages := s.messages[i := message]) else s
    case TruncateAfter(id) =>
      var i := IndexOf(s.messageIds, id);
      if i < |s.messageIds| then Rewind(s, i + 1, id) else s
    case CheckpointRecorded(checkpoint) => s.(contextCheckpoint := Some(checkpoint))
    case Finish(reason) => s.(meta := s.meta.(lastFinishReason := reason))
    case Error(error) => s.(meta := s.meta.(lastError := Some(error)))
    case GoalSet(goal) => s.(meta := s.meta.(goal := Some(goal)))
    case GoalCleared => s.(meta := s.meta.(goal := None))
    case GoalCompleted(goal) => s.(meta := s.meta.(goal := Some(goal)))
    case GoalUsage(seconds, tokens) =>
      if s.meta.goal.Some?
      then s.(meta := s.meta.(goal := Some(AddUsage(s.meta.goal.value, seconds, tokens, now)))) else s
  }

  // ---- histories ----

  /** Sequence numbers start at one and strictly increase. */
  ghost predicate Increasing(log: seq<EventLine>) {
    && (forall i | 0 <= i < |log| :: 1 <= log[i].seqNo)
    && (forall i, j | 0 <= i < j < |log| :: log[i].seqNo < log[j].seqNo)
  }

  /** The part of the state a restart must bring back: all but the goal's wall-clock stamp and the snapshot mark. */
  function Durable(s: State): State {
    s.(meta := s.meta.(lastSnapshotSeq := 0,
                       goal := if s.meta.goal.Some? then Some(s.meta.goal.value.(updatedAt := "")) else None))
  }

  /** The durable state a log stands for: every event applied, oldest first, to the empty session. */
  ghost function Replay(log: seq<EventLine>): (s: State)
    ensures |s.messages| == |s.messageIds|
  {
    if log == [] then EMPTY
    else Durable(Apply(Replay(log[..|log| - 1]), log[|log| - 1], ""))
  }

  /** What an event does to the durable part depends on the durable part alone. */
  lemma {:induction false} ApplyToDurable(s: State, line: EventLine, now: string, later: string)
    requires |s.messages| == |s.messageIds|
    ensures Durable(Apply(s, line, now)) == Durable(Apply(Durable(s), line, later))
  {
    hide IndexOf, SatAdd, Max;
  }

  /** Durable states cannot tell when, or after which snapshot, an event was applied. */
  lemma {:induction false} ApplyDurable(a: State, b: State, line: EventLine, now: string, later: string)
    requires |a.messages| == |a.messageIds| && |b.messages| == |b.messageIds|
    requires Durable(a) == Durable(b)
    ensures Durable(Apply(a, line, now)) == Durable(Apply(b, line, later))
  {
    ApplyToDurable(a, line, now, later);
    ApplyToDurable(b, line, later, later);
  }

  ghost function LastSeq(log: seq<EventLine>): u64 {
    if log == [] then 0 else log[|log| - 1].seqNo
  }

  // ---- invariants of every reachable state ----

  ghost predicate StateInvariant(s: State) {
    && |s.messages| == |s.messageIds| == s.meta.messageCount
    && (forall i, j | 0 <= i < j < |s.messageIds| :: s.messageIds[i] < s.messageIds[j])
    && (forall i | 0 <= i < |s.messageIds| :: s.messageIds[i] <= s.meta.lastSeq)
  }

  lemma {:induction false} ApplyInvariant(s: State, line: EventLine, now: string)
    requires StateInvariant(s) && s.meta.lastSeq < line.seqNo
    ensures StateInvariant(Apply(s, line, now))
    ensures Apply(s, line, now).meta.lastSeq == line.seqNo
  {
    var t := Apply(s, line, now);
    if line.event.MessageAdded? {
      forall i, j | 0 <= i < j < |t.messageIds| ensures t.messageIds[i] < t.messageIds[j] {
        assert s.messageIds[i] == t.messageIds[i] <= s.meta.lastSeq;
      }
    } else {
      assert t.messageIds <= s.messageIds;
    }
  }

  lemma {:induction false} ReplayInvariant(log: seq<EventLine>)
    requires Increasing(log)
    ensures StateInvariant(Replay(log))
    ensures Replay(log).meta.lastSeq == LastSeq(log)
  {
    if log != [] {
      var init, line := log[..|log| - 1], log[|log| - 1];
      ReplayInvariant(init);
      ApplyInvariant(Replay(init), line, "");
    }
  }

  /** Every context checkpoint in the log names a message that was live when it was recorded. */
  ghost predicate CheckpointsLive(log: seq<EventLine>) {
    forall k | 0 <= k < |log| && log[k].event.CheckpointRecorded? ::
      log[k].event.checkpoint.baseMessageId in Replay(log[..k]).messageIds
  }

  ghost predicate BaseLive(s: State) {
    s.contextCheckpoint.Some? ==> s.contextCheckpoint.value.baseMessageId in s.messageIds
  }

  /** A rewind drops the checkpoint exactly when its base may have gone with the dropped messages. */
  lemma {:induction false} RewindBaseLive(s: State, i: nat, id: u64)
    requires StateInvariant(s) && BaseLive(s) && i < |s.messageIds| && s.messageIds[i] == id
    ensures BaseLive(Rewind(s, i + 1, id))
  {
    if Rewind(s, i + 1, id).contextCheckpoint.Some? {
      var base := s.contextCheckpoint.value.baseMessageId;
      var j := IndexOf(s.messageIds, base);
      assert j < i;
      assert s.messageIds[..i + 1][j] == base;
    }
  }

  lemma {:induction false} ApplyBaseLive(s: State, line: EventLine, now: string)
    requires StateInvariant(s) && BaseLive(s)
    requires line.event.CheckpointRecorded? ==> line.event.checkpoint.baseMessageId in s.messageIds
    ensures BaseLive(Apply(s, line, now))
  {
    if line.event.TruncateAfter? && line.event.lastKept in s.messageIds {
      RewindBaseLive(s, IndexOf(s.messageIds, line.event.lastKept), line.event.lastKept);
    }
  }

  lemma {:induction false} CheckpointBaseLive(log: seq<EventLine>)
    requires Increasing(log) && CheckpointsLive(log)
    ensures BaseLive(Replay(log))
  {
    if log != [] {
      var init, line := log[..|log| - 1], log[|log| - 1];
      assert forall k | 0 <= k < |init| :: init[..k] == log[..k];
      CheckpointBaseLive(init);
      ReplayInvariant(init);
      ApplyBaseLive(Replay(init), line, "");
    }
  }
}
