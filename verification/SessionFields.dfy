/** What the fold of a log holds besides the messages, read off the positions of its events. */
module SessionFields {
  import opened Wrappers
  import opened Protocol
  import opened SessionModel
  import opened EventLog

  datatype Field = ErrorField | FinishField | GoalField | CheckpointField

  /** The event at `k` is a truncation that names a message live at that point. */
  ghost predicate Cuts(log: seq<EventLine>, k: nat)
    requires k < |log|
  {
    log[k].event.TruncateAfter? && log[k].event.lastKept in Replay(log[..k]).messageIds
  }

  /** The event at `k` decides a field, whatever came before it. */
  ghost predicate Sets(log: seq<EventLine>, field: Field, k: nat)
    requires k < |log|
  {
    match field
    case ErrorField => log[k].event.Error? || Cuts(log, k)
    case FinishField => log[k].event.Finish? || Cuts(log, k)
    case GoalField => log[k].event.GoalSet? || log[k].event.GoalCompleted? || log[k].event.GoalCleared?
    case CheckpointField => log[k].event.CheckpointRecorded?
  }

  /** The last event to decide a field. */
  ghost predicate LastToSet(log: seq<EventLine>, field: Field, k: nat) {
    k < |log| && Sets(log, field, k) && forall j | k < j < |log| :: !Sets(log, field, j)
  }

  ghost predicate NeverSet(log: seq<EventLine>, field: Field) {
    forall j | 0 <= j < |log| :: !Sets(log, field, j)
  }

  lemma {:induction false} SetsInPrefix(log: seq<EventLine>, field: Field, k: nat)
    requires k + 1 < |log|
    ensures Sets(log[..|log| - 1], field, k) <==> Sets(log, field, k)
  {
    assert log[..|log| - 1][..k] == log[..k];
  }

  /** A last event that leaves a field alone leaves the deciding event where it was. */
  lemma {:induction false} LastToSetEarlier(log: seq<EventLine>, field: Field, k: nat)
    requires LastToSet(log, field, k) && k + 1 < |log|
    ensures LastToSet(log[..|log| - 1], field, k) && log[..|log| - 1][k] == log[k]
  {
    var init := log[..|log| - 1];
    forall j: nat | k <= j < |init| ensures Sets(init, field, j) <==> Sets(log, field, j) {
      SetsInPrefix(log, field, j);
    }
  }

  lemma {:induction false} NeverSetEarlier(log: seq<EventLine>, field: Field)
    requires log != [] && NeverSet(log, field)
    ensures NeverSet(log[..|log| - 1], field) && !Sets(log, field, |log| - 1)
  {
    var init := log[..|log| - 1];
    forall j: nat | j < |init| ensures !Sets(init, field, j) {
      SetsInPrefix(log, field, j);
    }
  }

  lemma {:induction false} LastFrom(log: seq<EventLine>, field: Field, k: nat)
    requires k < |log| && Sets(log, field, k)
    ensures exists last: nat :: LastToSet(log, field, last)
    decreases |log| - k
  {
    if !LastToSet(log, field, k) {
      var j :| k < j < |log| && Sets(log, field, j);
      LastFrom(log, field, j);
    }
  }

  lemma {:induction false} SetOrNever(log: seq<EventLine>, field: Field)
    ensures NeverSet(log, field) || exists k: nat :: LastToSet(log, field, k)
  {
    if !NeverSet(log, field) {
      var k: nat :| k < |log| && Sets(log, field, k);
      LastFrom(log, field, k);
    }
  }

  // ---- how the last run ended ----

  lemma {:induction false} LastErrorStep(log: seq<EventLine>)
    requires log != []
    ensures var last := |log| - 1;
      Replay(log).meta.lastError
      == if !Sets(log, ErrorField, last) then Replay(log[..last]).meta.lastError
         else if log[last].event.Error? then Some(log[last].event.error) else None
  {
  }

  /** The error is that of the last error event, unless a later truncation took effect. */
  lemma {:induction false} LastErrorIs(log: seq<EventLine>, k: nat)
    requires LastToSet(log, ErrorField, k)
    ensures Replay(log).meta.lastError == if log[k].event.Error? then Some(log[k].event.error) else None
  {
    LastErrorStep(log);
    if k < |log| - 1 {
      hide Replay;
      assert !Sets(log, ErrorField, |log| - 1);
      LastToSetEarlier(log, ErrorField, k);
      LastErrorIs(log[..|log| - 1], k);
    }
  }

  lemma {:induction false} NoError(log: seq<EventLine>)
    requires NeverSet(log, ErrorField)
    ensures Replay(log).meta.lastError == None
  {
    if log != [] {
      LastErrorStep(log);
      NeverSetEarlier(log, ErrorField);
      NoError(log[..|log| - 1]);
    }
  }

  lemma {:induction false} LastFinishStep(log: seq<EventLine>)
    requires log != []
    ensures var last := |log| - 1;
      Replay(log).meta.lastFinishReason
      == if !Sets(log, FinishField, last) then Replay(log[..last]).meta.lastFinishReason
         else if log[last].event.Finish? then log[last].event.finishReason else None
  {
  }

  /** The finish reason is that of the last finish event, unless a later truncation took effect. */
  lemma {:induction false} LastFinishIs(log: seq<EventLine>, k: nat)
    requires LastToSet(log, FinishField, k)
    ensures Replay(log).meta.lastFinishReason == if log[k].event.Finish? then log[k].event.finishReason else None
  {
    LastFinishStep(log);
    if k < |log| - 1 {
      hide Replay;
      assert !Sets(log, FinishField, |log| - 1);
      LastToSetEarlier(log, FinishField, k);
      LastFinishIs(log[..|log| - 1], k);
    }
  }

  lemma {:induction false} NoFinish(log: seq<EventLine>)
    requires NeverSet(log, FinishField)
    ensures Replay(log).meta.lastFinishReason == None
  {
    if log != [] {
      LastFinishStep(log);
      NeverSetEarlier(log, FinishField);
      NoFinish(log[..|log| - 1]);
    }
  }

  // ---- the context checkpoint ----

  /** A truncation after `k` reached down to the base of the checkpoint recorded there. */
  ghost predicate CutToBase(log: seq<EventLine>, k: nat)
    requires k < |log| && log[k].event.CheckpointRecorded?
  {
    exists j | k < j < |log| :: Cuts(log, j) && log[j].event.lastKept <= log[k].event.checkpoint.baseMessageId
  }

  lemma {:induction false} CheckpointStep(log: seq<EventLine>)
    requires log != []
    ensures var last, before := |log| - 1, Replay(log[..|log| - 1]).contextCheckpoint;
      Replay(log).contextCheckpoint
      == if log[last].event.CheckpointRecorded? then Some(log[last].event.checkpoint)
         else if before.Some? && Cuts(log, last) && log[last].event.lastKept <= before.value.baseMessageId then None
         else before
  {
  }

  lemma {:induction false} CutToBaseStep(log: seq<EventLine>, k: nat)
    requires k + 1 < |log| && log[k].event.CheckpointRecorded?
    ensures var last := |log| - 1;
      CutToBase(log, k) <==>
        || CutToBase(log[..last], k)
        || (Cuts(log, last) && log[last].event.lastKept <= log[k].event.checkpoint.baseMessageId)
  {
    var init := log[..|log| - 1];
    forall j | k < j < |init| ensures Cuts(init, j) <==> Cuts(log, j) {
      assert init[..j] == log[..j];
    }
  }

  /** The checkpoint is the last one recorded, unless a later truncation reached down to its base. */
  lemma {:induction false} CheckpointIs(log: seq<EventLine>, k: nat)
    requires LastToSet(log, CheckpointField, k)
    ensures Replay(log).contextCheckpoint == if CutToBase(log, k) then None else Some(log[k].event.checkpoint)
  {
    CheckpointStep(log);
    if k < |log| - 1 {
      hide Replay;
      assert !Sets(log, CheckpointField, |log| - 1);
      LastToSetEarlier(log, CheckpointField, k);
      CheckpointIs(log[..|log| - 1], k);
      CutToBaseStep(log, k);
    }
  }

  lemma {:induction false} NoCheckpoint(log: seq<EventLine>)
    requires NeverSet(log, CheckpointField)
    ensures Replay(log).contextCheckpoint == None
  {
    if log != [] {
      CheckpointStep(log);
      NeverSetEarlier(log, CheckpointField);
      NoCheckpoint(log[..|log| - 1]);
    }
  }

  // ---- the goal ----

  /** Seconds and tokens of the usage events after `k`. */
  ghost function SecondsAfter(log: seq<EventLine>, k: nat): nat {
    if |log| <= k + 1 then 0
    else
      var last := log[|log| - 1].event;
      SecondsAfter(log[..|log| - 1], k) + (if last.GoalUsage? then last.seconds else 0)
  }

  ghost function TokensAfter(log: seq<EventLine>, k: nat): nat {
    if |log| <= k + 1 then 0
    else
      var last := log[|log| - 1].event;
      TokensAfter(log[..|log| - 1], k) + (if last.GoalUsage? then last.tokens else 0)
  }

  ghost function Capped(n: nat): u64 {
    if n <= U64_MAX then n else U64_MAX
  }

  /** The goal an event leaves, once all later usage is added to it. */
  ghost function GoalFrom(e: Event, seconds: nat, tokens: nat): Option<Goal>
    requires e.GoalSet? || e.GoalCompleted? || e.GoalCleared?
  {
    if e.GoalCleared? then None
    else
      var goal := if e.GoalSet? then e.goal else e.completed;
      Some(Goal(goal.objective, goal.status, Capped(goal.timeUsedSeconds + seconds), goal.createdAt, "",
                Capped(goal.tokensUsed + tokens)))
  }

  /** A goal with usage added, its stamp of the wall clock aside. */
  ghost function Used(goal: Option<Goal>, seconds: nat, tokens: nat): Option<Goal> {
    if goal.None? then None
    else
      Some(goal.value.(timeUsedSeconds := Capped(goal.value.timeUsedSeconds + seconds),
                       tokensUsed := Capped(goal.value.tokensUsed + tokens),
                       updatedAt := ""))
  }

  ghost predicate SetsGoal(e: Event) {
    e.GoalSet? || e.GoalCompleted? || e.GoalCleared?
  }

  lemma {:induction false} GoalOfSet(s: State, line: EventLine)
    requires |s.messages| == |s.messageIds| && SetsGoal(line.event)
    ensures Durable(Apply(s, line, "")).meta.goal == GoalFrom(line.event, 0, 0)
  {
  }

  lemma {:induction false} GoalOfUsage(s: State, line: EventLine)
    requires |s.messages| == |s.messageIds| && line.event.GoalUsage?
    ensures Durable(Apply(s, line, "")).meta.goal == Used(s.meta.goal, line.event.seconds, line.event.tokens)
  {
  }

  lemma {:induction false} GoalOfOther(s: State, line: EventLine)
    requires |s.messages| == |s.messageIds| && !SetsGoal(line.event) && !line.event.GoalUsage?
    ensures Durable(Apply(s, line, "")).meta.goal == Used(s.meta.goal, 0, 0)
  {
    hide IndexOf;
  }

  lemma {:induction false} GoalStep(log: seq<EventLine>)
    requires log != []
    ensures var e, before := log[|log| - 1].event, Replay(log[..|log| - 1]).meta.goal;
      Replay(log).meta.goal
      == if SetsGoal(e) then GoalFrom(e, 0, 0)
         else Used(before, if e.GoalUsage? then e.seconds else 0, if e.GoalUsage? then e.tokens else 0)
  {
    hide Apply, Durable, Used;
    var before, line := Replay(log[..|log| - 1]), log[|log| - 1];
    if SetsGoal(line.event) {
      GoalOfSet(before, line);
    } else if line.event.GoalUsage? {
      GoalOfUsage(before, line);
    } else {
      GoalOfOther(before, line);
    }
  }

  lemma {:induction false} UsedTwice(e: Event, seconds: nat, tokens: nat, moreSeconds: nat, moreTokens: nat)
    requires SetsGoal(e)
    ensures Used(GoalFrom(e, seconds, tokens), moreSeconds, moreTokens)
         == GoalFrom(e, seconds + moreSeconds, tokens + moreTokens)
  {
  }

  /** The goal is that of the last event to set, complete or clear it, with all later usage added, saturating; its
      stamp of the wall clock aside. */
  lemma {:induction false} GoalIs(log: seq<EventLine>, k: nat)
    requires LastToSet(log, GoalField, k)
    ensures Replay(log).meta.goal == GoalFrom(log[k].event, SecondsAfter(log, k), TokensAfter(log, k))
  {
    hide Replay, GoalFrom, Used;
    GoalStep(log);
    if k < |log| - 1 {
      var e, init := log[|log| - 1].event, log[..|log| - 1];
      assert !Sets(log, GoalField, |log| - 1);
      LastToSetEarlier(log, GoalField, k);
      GoalIs(init, k);
      UsedTwice(log[k].event, SecondsAfter(init, k), TokensAfter(init, k),
                if e.GoalUsage? then e.seconds else 0, if e.GoalUsage? then e.tokens else 0);
    }
  }

  lemma {:induction false} NoGoal(log: seq<EventLine>)
    requires NeverSet(log, GoalField)
    ensures Replay(log).meta.goal == None
  {
    if log != [] {
      GoalStep(log);
      NeverSetEarlier(log, GoalField);
      NoGoal(log[..|log| - 1]);
    }
  }

  // ---- when the goal was last touched ----

  /** The stamp of the goal after one event of a replay. */
  lemma {:induction false} StampAfterEvent(s: State, line: EventLine, now: string)
    requires |s.messages| == |s.messageIds| && Apply(s, line, now).meta.goal.Some?
    ensures !line.event.GoalCleared? && (!SetsGoal(line.event) ==> s.meta.goal.Some?)
    ensures Apply(s, line, now).meta.goal.value.updatedAt
         == match line.event
            case GoalSet(goal) => goal.updatedAt
            case GoalCompleted(goal) => goal.updatedAt
            case GoalUsage(_, _) => now
            case _ => s.meta.goal.value.updatedAt
  {
    hide IndexOf;
  }

  /** Whether the event at `k` is the last one past the snapshot that touches the goal. */
  ghost predicate LastToTouch(log: seq<EventLine>, snapshotSeq: u64, k: nat)
    requires k < |log|
  {
    && Touches(log[k], snapshotSeq)
    && forall j | k < j < |log| :: !Touches(log[j], snapshotSeq)
  }

  ghost predicate Touches(line: EventLine, snapshotSeq: u64) {
    line.seqNo > snapshotSeq && (SetsGoal(line.event) || line.event.GoalUsage?)
  }

  /** After a replay the goal carries the stamp it was set with or, when usage was counted last, the clock at which the
      replay counted it. */
  lemma {:induction false} GoalStamped(s: State, log: seq<EventLine>, snapshotSeq: u64, clock: Clock, k: nat)
    requires |s.messages| == |s.messageIds| && k < |log| && LastToTouch(log, snapshotSeq, k)
    requires ReplayAfter(s, log, snapshotSeq, clock).meta.goal.Some?
    ensures ReplayAfter(s, log, snapshotSeq, clock).meta.goal.value.updatedAt
         == match log[k].event
            case GoalSet(goal) => goal.updatedAt
            case GoalCompleted(goal) => goal.updatedAt
            case _ => clock(log[k].seqNo)
    decreases |log|
  {
    hide Apply;
    var init, line := log[..|log| - 1], log[|log| - 1];
    if line.seqNo > snapshotSeq {
      StampAfterEvent(ReplayAfter(s, init, snapshotSeq, clock), line, clock(line.seqNo));
    }
    if k < |log| - 1 {
      assert !Touches(log[|log| - 1], snapshotSeq);
      assert forall j | k < j < |init| :: init[j] == log[j];
      GoalStamped(s, init, snapshotSeq, clock, k);
    }
  }
}
