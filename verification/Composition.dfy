/** How the three layers fit: what the adapter promises is what the protocol assumes of replies,
    and what a failed action leaves behind in the service. */
module Composition {
  import opened Wrappers
  import InputDriver
  import opened Adapter
  import opened Worker
  import Protocol
  import ProtocolInvariant
  import ProtocolEffects

  /** A truthful exit is one the protocol reckons with, whatever becomes of the pipe. */
  lemma TruthfulIsPossible(sent: seq<InputDriver.Command>, transport: Transport, exit: Exit)
    requires Truthful(sent, exit)
    ensures Protocol.Possible(sent != [], transport, exit)
  {
    NoSendReplyIsTrue(transport, exit, sent);
  }

  /** The reply and what was sent are an outcome of `act` that the protocol admits. */
  ghost predicate Admitted(sent: bool, reply: Reply) {
    exists transport: Transport, exit: Exit :: reply == Receive(true, transport, exit) && Protocol.Possible(sent, transport, exit)
  }

  lemma Witness(sent: bool, transport: Transport, exit: Exit)
    requires Protocol.Possible(sent, transport, exit)
    ensures Admitted(sent, Receive(true, transport, exit))
  {
  }

  /** One `act` through all layers: the worker passes the command to the adapter unless it has no
      process to run it, and the reply travels back. Every reply is one the protocol admits for
      what was really sent, and one that permits rollback proves that nothing was. */
  method CallAct(worker: Worker, state: TabState, action: Action, transport: Transport) returns (reply: Reply, ghost exit: Exit)
    requires state.Valid()
    modifies worker`process, state, state.tab, state.pendingInput
    ensures state.Valid() && InputDriver.Inputs(old(state.tab.log)) <= InputDriver.Inputs(state.tab.log)
    ensures Admitted(state.SentSince(old(state.tab.log)) != [], reply)
    ensures GuaranteesNoSend(reply) ==> state.SentSince(old(state.tab.log)) == []
    ensures old(state.tab.log) <= state.tab.log
    ensures worker.process == Live && !action.AnswerPrompt? ==> Reported(action, exit, state.Since(old(state.tab.log)))
    ensures worker.process == Live ==> reply == Receive(true, transport, exit)
  {
    ghost var before := state.tab.log;
    var result := Raised(OtherCode, None);
    if worker.process == Live || (worker.process == NoProcess && !worker.cleanupFailed) {
      result := state.Act(action);
    }
    exit := result;
    var process := worker.process;
    var ran;
    reply, ran := worker.Call(true, transport, result);
    ghost var sent := state.SentSince(before);
    if ran {
      NoSendReplyIsTrue(transport, exit, sent);
      TruthfulIsPossible(sent, transport, exit);
      Witness(sent != [], transport, exit);
    } else if process == Dead {
      Witness(sent != [], WrongRequestId, exit);
    } else {
      Witness(sent != [], Delivered, Raised(OtherCode, None));
    }
  }

  /** Whatever the adapter reports about an action that it dispatched and could not see through, and
      whatever becomes of the pipe: the living session can no longer be used for actions, unless the
      worker itself is given up, which takes every session. Nothing is undone. */
  lemma UnclearActionLatches(s: Protocol.State, t: Protocol.TaskId, a: Action, read: seq<InputDriver.Entry>,
                             transport: Transport, exit: Exit)
    requires ProtocolInvariant.Inv(s) && Protocol.Enabled(s, Protocol.ActDone(t, transport, exit))
    requires s.tasks[t].request.sid in s.sessions && Reported(a, exit, read)
    requires transport.Delivered? ==> exit.Raised? && exit.flag == Some(true) && !exit.code.ActionGoalNotMet?
    ensures var sid := s.tasks[t].request.sid;
      var s' := Protocol.Next(s, Protocol.ActDone(t, transport, exit));
      (if transport.WrongRequestId? then s'.sessions == map[] else sid in s'.sessions && s'.sessions[sid].uncertain)
      && s'.executions == s.executions && s'.approvals == s.approvals
  {
    if transport.WrongRequestId? {
      ProtocolEffects.LostActionClears(s, t, exit);
    } else {
      ProtocolEffects.UncertainReplyLatches(s, t, transport, exit);
    }
  }
}
