/** Inputs on which the state machine, the diarizer and the event store do not keep what their names or
    comments promise; the lemmas they go with say on exactly which inputs they do. */
module Counterexamples {
  import AgentStates
  import Diarization
  import EventStore

  /** A machine started in the error state does not recover. */
  lemma RecoverStuck()
    ensures AgentStates.MachineRun(AgentStates.ErrorRecoverable, [AgentStates.Recover]).state
            == AgentStates.ErrorRecoverable
  {
    assert [AgentStates.Recover][..0] == [];
  }

  /** Of two speakers heard once each, merging -1 into 1 forgets the second. */
  lemma MergeForgets(v: Diarization.Vec, w: Diarization.Vec)
    ensures var s := Diarization.Clusters([v, w], [1, 1], map[]);
            Diarization.CountSum(s.counts) == 2 && Diarization.CountSum(Diarization.Merged(s, -1, 1).counts) == 1
  {
    var s := Diarization.Clusters([v, w], [1, 1], map[]);
    Diarization.MergeKeepsTotalExactly(s, -1, 1);
    assert [1, 1][..1] == [1];
    assert Diarization.CountSum([1]) == 1;
  }

  /** An event appended between the end of the replay and the registration of the queue is never heard. */
  lemma EventSlips() returns (c: EventStore.Client, ops: seq<EventStore.FeedOp>, f: EventStore.Feed)
    ensures f == EventStore.FeedRun(c, [], 0, ops)
    ensures f.phase == EventStore.Listening([]) && |f.rows| == 2 && f.delivered == [f.rows[0]] && f.rows[0] != f.rows[1]
    ensures EventStore.AskedFor(c, f, 1) && f.rows[1].session == c.session
  {
    c := EventStore.Client("s", 0);
    f := EventStore.Feed([], 0, EventStore.NotStarted, [], 0, 0, {});
    ops := [];
    ops, f := FedOn(c, ops, f, EventStore.Append(1, "s", "a", 0));
    var row := f.rows[0];
    assert f.rows == [row] && row == EventStore.Row(1, 1, "s", "a");
    OneListed(row);
    ops, f := FedOn(c, ops, f, EventStore.Poll);
    ops, f := FedOn(c, ops, f, EventStore.Append(2, "s", "b", 0));
    ops, f := FedOn(c, ops, f, EventStore.Poll);
    assert f.delivered == [row] && f.phase == EventStore.Listening([]);
  }

  lemma FedOn(c: EventStore.Client, ops: seq<EventStore.FeedOp>, f: EventStore.Feed, op: EventStore.FeedOp)
    returns (more: seq<EventStore.FeedOp>, g: EventStore.Feed)
    requires f == EventStore.FeedRun(c, [], 0, ops)
    ensures g == EventStore.FeedRun(c, [], 0, more) && g == EventStore.FeedStep(c, f, op)
  {
    more, g := ops + [op], EventStore.FeedStep(c, f, op);
    assert (ops + [op])[..|ops|] == ops;
  }

  lemma OneListed(row: EventStore.Row)
    requires row.session == "s" && row.sequence > 0
    ensures EventStore.ListEvents([row], "s", 0, EventStore.REPLAY_LIMIT) == [row]
  {
    assert [row][..0] == [];
    assert EventStore.Select([row], "s", 0) == [row];
  }
}
