/** The in-memory logger, the service that logs through an injected logger,
    and the token container of src/18-dependency-injection.ts. */
module DependencyInjection {
  import opened Wrappers

  /** A logger that keeps every message, in order. */
  class MemoryLogger {
    var logs: seq<string>

    constructor ()
      ensures logs == []
    {
      logs := [];
    }

    /** Appends the message; earlier entries stay as they were. */
    method Log(message: string)
      modifies this
      ensures logs == old(logs) + [message]
    {
      logs := logs + [message];
    }
  }

  /** The line `Service.run` hands to its logger. */
  function ServiceLine(message: string): (line: string)
    ensures |line| == |"Service: "| + |message|
    ensures line[..|"Service: "|] == "Service: " && line[|"Service: "|..] == message
  {
    "Service: " + message
  }

  /** A service that receives its logger from outside. */
  class Service {
    const logger: MemoryLogger

    constructor (logger: MemoryLogger)
      ensures this.logger == logger
    {
      this.logger := logger;
    }

    /** Exactly one log call, with the message behind the "Service: " prefix. */
    method Run(message: string)
      modifies logger
      ensures logger.logs == old(logger.logs) + [ServiceLine(message)]
    {
      logger.Log("Service: " + message);
    }
  }

  type Token = string

  /** A stored value; the container's values are `unknown`, so `undefined`
      can be stored like any other. */
  datatype Value<T> = Undefined | Defined(value: T)

  /** What `get` does with the bindings `m`: the value bound to `token`, or the
      error it throws when there is no binding or the binding is `undefined`. */
  function Lookup<T>(m: map<Token, Value<T>>, token: Token): (r: Result<T, string>)
    ensures r.Success? <==> token in m && m[token].Defined?
    ensures r.Success? ==> r.value == m[token].value
    ensures r.Failure? ==> r.error == "no binding for " + token
  {
    if token !in m || m[token].Undefined? then Failure("no binding for " + token)
    else Success(m[token].value)
  }

  /** A registry of values by token. */
  class Container<T> {
    var instances: map<Token, Value<T>>

    constructor ()
      ensures instances == map[]
    {
      instances := map[];
    }

    /** Binds `token` to `value`, replacing any earlier binding. */
    method Set(token: Token, value: Value<T>)
      modifies this
      ensures instances == old(instances)[token := value]
    {
      instances := instances[token := value];
    }

    /** Looks `token` up and fails exactly as `Lookup` says; reads only. */
    method Get(token: Token) returns (r: Result<T, string>)
      ensures r == Lookup(instances, token)
    {
      var v: Value<T> := if token in instances then instances[token] else Undefined;
      if v.Undefined? {
        return Failure("no binding for " + token);
      }
      return Success(v.value);
    }
  }

  /** `set(t, v)` followed by `get(t)` gives `v`. */
  lemma GetAfterSet<T>(m: map<Token, Value<T>>, token: Token, value: T)
    ensures Lookup(m[token := Defined(value)], token) == Success(value)
  {
  }

  /** A token that was never set cannot be got. */
  lemma GetUnbound<T>(m: map<Token, Value<T>>, token: Token)
    requires token !in m
    ensures Lookup(m, token) == Failure("no binding for " + token)
  {
  }

  /** Setting a token to `undefined` binds it, yet `get` still fails. */
  lemma GetAfterSetUndefined<T>(m: map<Token, Value<T>>, token: Token)
    ensures token in m[token := Undefined]
    ensures Lookup(m[token := Undefined], token).Failure?
  {
  }

  /** A second `set` on a token replaces the first. */
  lemma SetReplaces<T>(m: map<Token, Value<T>>, token: Token, first: Value<T>, second: T)
    ensures Lookup(m[token := first][token := Defined(second)], token) == Success(second)
  {
  }

  /** Setting one token leaves what every other token gives unchanged. */
  lemma SetLeavesOthers<T>(m: map<Token, Value<T>>, token: Token, value: Value<T>, other: Token)
    requires other != token
    ensures Lookup(m[token := value], other) == Lookup(m, other)
  {
  }

  /** The swap on lines 133-143: bind, get, rebind, get the new value. */
  method SwapBinding() returns (before: Result<string, string>, after: Result<string, string>, missing: Result<string, string>)
    ensures before == Success("console logger")
    ensures after == Success("memory logger")
    ensures missing == Failure("no binding for db")
  {
    var container := new Container<string>();
    container.Set("logger", Defined("console logger"));
    before := container.Get("logger");
    container.Set("logger", Defined("memory logger"));
    after := container.Get("logger");
    assert "db" != "logger" by { assert |"db"| != |"logger"|; }
    assert "no binding for " + "db" == "no binding for db";
    missing := container.Get("db");
  }
}
