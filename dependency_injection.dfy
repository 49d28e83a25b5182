/** Dependency injection: a `UserService` receives its logger through its
    constructor or a setter, and an `Injector` wires services to loggers. */
module DependencyInjection {
  import opened Common

  /** A logger that keeps every message it is given, in order. */
  class MemoryLogger {
    var entries: seq<string>

    constructor ()
      ensures entries == []
    {
      entries := [];
    }

    method Log(msg: string)
      modifies this
      ensures entries == old(entries) + [msg]
    {
      entries := entries + [msg];
    }
  }

  /** The two implementations of the logger interface: one writes to the
      console, the other to memory. */
  datatype Logger = ConsoleLogger(out: Console) | MemoryLog(memory: MemoryLogger) {
    /** The object a call to `log` changes. */
    function Sink(): object {
      match this
      case ConsoleLogger(out) => out
      case MemoryLog(memory) => memory
    }

    /** Everything this logger has recorded so far. */
    function Entries(): seq<string>
      reads Sink()
    {
      match this
      case ConsoleLogger(out) => out.lines
      case MemoryLog(memory) => memory.entries
    }

    /** `log`: records exactly the message, after what was recorded before. */
    method Log(msg: string)
      modifies Sink()
      ensures Entries() == old(Entries()) + [msg]
    {
      match this
      case ConsoleLogger(out) => out.Log(msg);
      case MemoryLog(memory) => memory.Log(msg);
    }
  }

  const NoLoggerMessage := "Logger not provided"

  const ActionPrefix := "Action for user "

  /** The message an action for `userId` logs and returns. */
  function ActionMessage(userId: int): (m: string)
    ensures |m| > |ActionPrefix| && m[..|ActionPrefix|] == ActionPrefix
    ensures m[|ActionPrefix|..] == IntToString(userId)
  {
    ActionPrefix + IntToString(userId)
  }

  /** Different users get different messages: the message names the user. */
  lemma ActionMessageInjective(m: int, n: int)
    requires ActionMessage(m) == ActionMessage(n)
    ensures m == n
  {
    assert IntToString(m) == ActionMessage(m)[|ActionPrefix|..];
    IntToStringInjective(m, n);
  }

  class UserService {
    var logger: Option<Logger>

    /** Constructor injection; the logger is optional. */
    constructor (logger: Option<Logger>)
      ensures this.logger == logger
    {
      this.logger := logger;
    }

    /** Setter injection: replaces whatever logger the service had. */
    method SetLogger(logger: Logger)
      modifies this
      ensures this.logger == Some(logger)
    {
      this.logger := Some(logger);
    }

    /** The objects an action may change: the logger's sink, when there is a logger. */
    function Touches(): set<object>
      reads this
    {
      if logger.Some? then {logger.value.Sink()} else {}
    }

    /** `performAction`: with a logger, logs the message once and returns it;
        without one, fails with "Logger not provided" and changes nothing. */
    method PerformAction(userId: int) returns (r: Result<string>)
      modifies Touches()
      ensures logger.None? <==> r.Failure?
      ensures r.Failure? ==> r.error == NoLoggerMessage
      ensures r.Success? ==> r.value == ActionMessage(userId)
      ensures logger.Some? ==> logger.value.Entries() == old(logger.value.Entries()) + [ActionMessage(userId)]
    {
      var message := ActionMessage(userId);
      if logger.None? {
        return Failure(NoLoggerMessage);
      }
      logger.value.Log(message);
      return Success(message);
    }
  }

  /** `Injector.createWithConsoleLogger`: a new service logging to the console. */
  method CreateWithConsoleLogger(out: Console) returns (service: UserService)
    ensures fresh(service) && service.logger == Some(ConsoleLogger(out))
  {
    service := new UserService(Some(ConsoleLogger(out)));
  }

  /** `Injector.createWithMemoryLogger`: a new service and the new, empty memory
      logger it was given. */
  method CreateWithMemoryLogger() returns (service: UserService, logger: MemoryLogger)
    ensures fresh(service) && fresh(logger)
    ensures service.logger == Some(MemoryLog(logger)) && logger.entries == []
  {
    logger := new MemoryLogger();
    service := new UserService(Some(MemoryLog(logger)));
  }

  lemma ActionMessageTexts()
    ensures ActionMessage(42) == "Action for user 42"
    ensures ActionMessage(7) == "Action for user 7"
  {
    assert IntToString(42) == "42" && IntToString(7) == "7";
  }

  /** Constructor injection: the action for user 42 returns and logs its message. */
  method ConstructorInjection() returns (res: Result<string>, entries: seq<string>)
    ensures res == Success("Action for user 42")
    ensures entries == ["Action for user 42"]
  {
    var mem := new MemoryLogger();
    var svc := new UserService(Some(MemoryLog(mem)));
    res := svc.PerformAction(42);
    ActionMessageTexts();
    entries := mem.entries;
  }

  /** Setter injection: a service built without a logger works once one is set. */
  method SetterInjection() returns (res: Result<string>, entries: seq<string>)
    ensures res == Success("Action for user 7")
    ensures entries == ["Action for user 7"]
  {
    var svc := new UserService(None);
    var m2 := new MemoryLogger();
    svc.SetLogger(MemoryLog(m2));
    res := svc.PerformAction(7);
    ActionMessageTexts();
    entries := m2.entries;
  }

  /** The injector's memory logger is the one the service logs to. */
  method InjectorWiring() returns (count: nat)
    ensures count == 1
  {
    var service, logger := CreateWithMemoryLogger();
    var _ := service.PerformAction(1);
    count := |logger.entries|;
  }

  /** Without any logger the action fails and nothing is logged anywhere. */
  method MissingLogger(out: Console) returns (res: Result<string>)
    ensures res == Failure("Logger not provided")
    ensures out.lines == old(out.lines)
  {
    var svc := new UserService(None);
    res := svc.PerformAction(1);
  }
}
