/** The IPC layer: how one adapter command becomes a reply, and what a reply proves. */
module Worker {
  import opened Wrappers
  import opened InputDriver
  import opened Adapter

  /** What happens to the pipe and the process during one call. */
  datatype Transport = Delivered | SilentFor45s | PipeBroken | WrongRequestId

  datatype Reply = Ok(performed: bool) | Error(code: ErrorCode, flag: Option<bool>)

  /** `worker_main`: errors travel with their details, unexpected exceptions lose them. */
  function Encode(isAct: bool, exit: Exit): Reply {
    match exit
    case Returned(performed, _) => Ok(performed)
    case Raised(code, flag) => Error(code, flag)
    case Crashed => Error(if isAct then ResultUncertain else OtherCode, None)
  }

  /** `Worker.call` once the request was written to a live process. */
  function Receive(isAct: bool, transport: Transport, exit: Exit): Reply {
    match transport
    case Delivered => Encode(isAct, exit)
    case SilentFor45s => Error(if isAct then ResultUncertain else WorkerTimeout, None)
    case PipeBroken => Error(if isAct then ResultUncertain else SessionExpired(false), None)
    case WrongRequestId => Error(SessionExpired(false), None)
  }

  datatype Process = NoProcess | Live | Dead

  class Worker {
    var process: Process
    var cleanupFailed: bool

    constructor ()
      ensures process == NoProcess && !cleanupFailed
    {
      process, cleanupFailed := NoProcess, false;
    }

    /** `ran` says whether the adapter was given the command at all. */
    method Call(isAct: bool, transport: Transport, exit: Exit) returns (reply: Reply, ran: bool)
      modifies this`process
      ensures ran <==> old(process) == Live || (old(process) == NoProcess && !cleanupFailed)
      ensures ran ==> reply == Receive(isAct, transport, exit)
      ensures !ran ==> reply == Error(if old(process) == Dead then SessionExpired(false) else OtherCode, None)
      ensures process == if !ran then old(process)
                         else if transport in {SilentFor45s, WrongRequestId} then Dead
                         else Live
    {
      if process == NoProcess {
        if cleanupFailed { return Error(OtherCode, None), false; }
        process := Live;
      }
      if process == Dead { return Error(SessionExpired(false), None), false; }
      ran := true;
      match transport {
        case Delivered =>
          reply := Encode(isAct, exit);
        case SilentFor45s =>
          process := Dead;
          reply := Error(if isAct then ResultUncertain else WorkerTimeout, None);
        case PipeBroken =>
          reply := Error(if isAct then ResultUncertain else SessionExpired(false), None);
        case WrongRequestId =>
          process := Dead;
          reply := Error(SessionExpired(false), None);
      }
    }

    /** Shutting down ends the process; only a failed clean-up blocks the next start. */
    method Shutdown(cleanupOk: bool)
      modifies this
      ensures process == NoProcess
      ensures cleanupFailed == (old(cleanupFailed) || (old(process) != NoProcess && !cleanupOk))
    {
      if process != NoProcess {
        process := NoProcess;
        if !cleanupOk { cleanupFailed := true; }
      }
    }
  }

  /** The replies after which the service is allowed to undo its records. */
  predicate GuaranteesNoSend(reply: Reply) {
    reply.Error? && !reply.code.ResultUncertain? && reply.flag == Some(false)
  }

  /** A no-send reply can only be a delivered answer of a truthful adapter: across every
      transport failure and every exit, it proves that no input was sent. */
  lemma NoSendReplyIsTrue(transport: Transport, exit: Exit, sent: seq<Command>)
    requires Truthful(sent, exit)
    ensures GuaranteesNoSend(Receive(true, transport, exit)) ==>
      transport.Delivered? && exit.Raised? && sent == []
  {
  }
}
