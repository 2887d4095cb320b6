/** Values that flow through an advised call, and the shapes of user advice.
    Advice is user code: it is modelled as opaque total functions. */
module Values {

  datatype Option<+T> = None | Some(value: T)

  /** A JavaScript value as far as the dispatcher cares: `undefined` is the
      only value it ever tests for (the after phase and an absent around). */
  datatype Value = Undefined | Null | Bool(b: bool) | Num(n: int) | Str(s: string)

  /** The argument list of a call. */
  type Args = seq<Value>

  /** Calling something that is not a function: the only failure the
      dispatcher itself raises (a TypeError in JavaScript). */
  datatype Error = NotCallable

  /** What a call produces: a value, or an exception that propagates. */
  datatype Outcome = Returned(value: Value) | Threw(error: Error)

  /** What an advised around function does with its inner delegate: return
      without calling it, or call it once with (possibly new) arguments and
      post-process the value it returns. */
  datatype Step = Return(value: Value) | Delegate(args: Args, andThen: Value -> Value)

  /** The advice handed to `before`, `after` or `around`.
      - BeforeAdvice: returns a replacement argument list, or None for any
        falsy return (the arguments are then kept);
      - AfterAdvice: receives `(results, args)` and its return always becomes
        the result;
      - AfterReceivingArgs: an after advisor registered with
        `receiveArguments`: it receives the arguments, and a return other than
        `undefined` overrides the result;
      - AroundAdvice: the advised function produced by the factory;
      - BindHook: the before advice that underscore-aop installs on a
        library's `bind`. On the value arguments it is the identity: its effect
        is on the function being bound, which the engine carries out. */
  datatype Advice =
    | BeforeAdvice(replace: Args -> Option<Args>)
    | AfterAdvice(fold: (Value, Args) -> Value)
    | AfterReceivingArgs(observe: Args -> Value)
    | AroundAdvice(advised: Args -> Step)
    | BindHook
  {
    predicate IsBefore() { BeforeAdvice? || BindHook? }
    predicate IsAfter() { AfterAdvice? || AfterReceivingArgs? }
  }

  /** One before advisor applied to the current arguments: a truthy return
      (an argument list) replaces them, a falsy one keeps them. */
  function BeforeStep(advice: Advice, args: Args): (r: Args)
    ensures advice.BeforeAdvice? && advice.replace(args).Some? ==> r == advice.replace(args).value
    ensures r == args || (advice.BeforeAdvice? && advice.replace(args) == Some(r))
  {
    match advice
    case BeforeAdvice(replace) =>
      (match replace(args)
       case Some(replacement) => replacement
       case None => args)
    case _ => args
  }

  /** One after advisor applied to the current result: with
      `receiveArguments` the result changes only on a return other than
      `undefined`; otherwise the return always becomes the result. */
  function AfterStep(advice: Advice, results: Value, args: Args): (r: Value)
    ensures advice.AfterAdvice? ==> r == advice.fold(results, args)
    ensures advice.AfterReceivingArgs? && advice.observe(args) != Undefined ==> r == advice.observe(args)
    ensures advice.AfterReceivingArgs? && advice.observe(args) == Undefined ==> r == results
    ensures !advice.IsAfter() ==> r == results
  {
    match advice
    case AfterAdvice(fold) => fold(results, args)
    case AfterReceivingArgs(observe) =>
      var newResults := observe(args);
      if newResults == Undefined then results else newResults
    case _ => results
  }
}
