/** The data that flows through promises: values, generator scripts, callbacks, promise records. */
module Values {

  datatype Option<+T> = None | Some(value: T)

  /** A zval, as far as the promise engine looks at it.  Promises and generators are named by
      their object handle. */
  datatype Value = Null | Plain(n: int) | Error(e: int) | Prom(id: nat) | Gen(g: nat)

  /** Neither a promise nor a generator. */
  predicate Plainly(v: Value) { !v.Prom? && !v.Gen? }

  /** The FINISHED bits of a result: exactly one of DONE and FAILED. */
  datatype Kind = Done | Failed

  /** The `type` argument of the resolver: DONE, FAILED, or FAILED | CANCELED. */
  datatype Signal = Settle(kind: Kind) | Cancel

  function KindOf(sig: Signal): Kind {
    match sig
    case Settle(k) => k
    case Cancel => Failed
  }

  /** What the engine can do to a suspended generator. */
  datatype Resume = Send(v: Value) | Throw(v: Value)

  /** A generator, as the finite tree of its possible behaviours.  `Yield(v, next)` is suspended at
      a yield of `v` and continues as `next[r]` when resumed with `r`; `Return` has finished;
      `Raise` is about to let an exception escape. */
  datatype Script = Return(v: Value) | Raise(e: int) | Yield(v: Value, next: imap<Resume, Script>)

  /** Error number of the failure to throw something that is not an exception. */
  const NOT_THROWABLE := -1

  function ErrorOf(v: Value): int {
    if v.Error? then v.e else NOT_THROWABLE
  }

  /** The generator after `send` or `throw`.  A yield without a branch for `r` ends the body:
      a value is ignored and an exception is not caught. */
  function Continue(sc: Script, r: Resume): Script {
    match sc
    case Yield(_, next) => if r in next then next[r] else if r.Send? then Return(Null) else Raise(ErrorOf(r.v))
    case Return(_) => if r.Send? then sc else Raise(ErrorOf(r.v))
    case Raise(_) => sc
  }

  /** How a generator object is kept once its last call is over: an escaped exception closes it. */
  function Rest(sc: Script): Script {
    if sc.Raise? then Return(Null) else sc
  }

  /** What a user function does with its argument.  `Fresh` creates a generator object. */
  datatype Ret = Returns(v: Value) | Raises(e: int) | Fresh(script: Script)

  /** A callback slot.  `required` and `args` are the declared parameter counts, `accepts` is the
      type hint of the first parameter, `generator` says that the function itself is a generator. */
  datatype Callback =
    | Unset
    | Php(required: nat, args: nat, accepts: Value -> bool, generator: bool, body: Value -> Ret)
    | Internal(action: Value -> Ret)

  datatype Flags = Flags(processing: bool, done: bool, failed: bool, canceled: bool,
                         isInternal: bool, proto: bool, autoclean: bool)

  /** One promise.  `handlers` lists the promises told of the result; `refs` is its reference count. */
  datatype Rec = Rec(flags: Flags, done: Callback, fail: Callback, canceler: Callback,
                     await: Option<nat>, gen: Option<nat>, result: Value, handlers: seq<nat>,
                     name: Option<string>, refs: int)

  predicate Finished(r: Rec) { r.flags.done || r.flags.failed }

  function OutcomeKind(r: Rec): Kind { if r.flags.done then Done else Failed }

  /** A generator object that a callback has made. */
  datatype Creation = Creation(g: nat, script: Script)

  function Made(ret: Ret, n: nat): Option<Creation> { if ret.Fresh? then Some(Creation(n, ret.script)) else None }

  /** Every call that leaves the engine; a callback's call with the generator that it made. */
  datatype Event =
    | Called(p: nat, sig: Signal, v: Value, made: Option<Creation>)
    | Resumed(g: nat, r: Resume)
    | Cleaned(p: nat)

  /** All promises and generators, named by position, and the calls made so far. */
  datatype State = State(recs: seq<Rec>, gens: seq<Script>, log: seq<Event>)
}
