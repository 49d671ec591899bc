/// The test stub used by the unit tests: a `Call` records the
/// arguments of every invocation and answers with return values
/// configured in advance, in the order they were configured. The
/// arguments of a call are one tuple value of type `A`.
module Stub {

  /// `return_handler<R>`.
  class ReturnHandler<R> {
    /// `m_position`, `m_returns`.
    var position: nat
    var configured: seq<R>

    constructor()
      ensures position == 0 && configured == []
    {
      position := 0;
      configured := [];
    }

    /// `set_return`: one value after those already configured.
    method SetReturn(value: R)
      modifies this
      ensures configured == old(configured) + [value] && position == old(position)
    {
      configured := configured + [value];
    }

    /// `set_returns`: all the values, in order, after those already
    /// configured.
    method SetReturns(values: seq<R>)
      modifies this
      ensures configured == old(configured) + values && position == old(position)
    {
      configured := configured + values;
    }

    /// `operator()`: the source asserts a value is left; the next value
    /// is returned and the position advances.
    method Next() returns (value: R)
      requires position < |configured|
      modifies this
      ensures value == old(configured[position]) && position == old(position) + 1 && configured == old(configured)
    {
      value := configured[position];
      position := position + 1;
    }
  }

  /// `n` answers of a handler are the next `n` configured values, in
  /// order.
  method Replay<R>(handler: ReturnHandler<R>, n: nat) returns (values: seq<R>)
    requires handler.position + n <= |handler.configured|
    modifies handler
    ensures values == old(handler.configured[handler.position..handler.position + n])
    ensures handler.position == old(handler.position) + n && handler.configured == old(handler.configured)
  {
    values := [];
    var k := 0;
    while k < n
      invariant 0 <= k <= n
      invariant handler.configured == old(handler.configured) && handler.position == old(handler.position) + k
      invariant values == handler.configured[old(handler.position)..handler.position]
    {
      var v := handler.Next();
      values := values + [v];
      k := k + 1;
    }
  }

  /// `call_handler<Args...>`.
  class CallHandler<A(==)> {
    /// `m_calls`.
    var calls: seq<A>

    constructor()
      ensures calls == []
    {
      calls := [];
    }

    /// `add_call`.
    method AddCall(args: A)
      modifies this
      ensures calls == old(calls) + [args]
    {
      calls := calls + [args];
    }

    /// `called_with(args, predicate)`, with the predicate `matches`: the source asserts a call was
    /// recorded and compares only the most recent one.
    function CalledWithBy(args: A, matches: (A, A) -> bool): bool
      reads this
      requires |calls| > 0
    {
      matches(calls[|calls| - 1], args)
    }

    /// `called_with(args)`: compared by equality.
    function CalledWith(args: A): (r: bool)
      reads this
      requires |calls| > 0
      ensures r <==> calls[|calls| - 1] == args
    {
      CalledWithBy(args, (a: A, b: A) => a == b)
    }

    /// `called_once_with(args, predicate)`: false unless exactly one call
    /// was recorded.
    function CalledOnceWithBy(args: A, matches: (A, A) -> bool): bool
      reads this
    {
      if |calls| != 1 then false else CalledWithBy(args, matches)
    }

    /// `called_once_with(args)`: compared by equality; it holds exactly
    /// when the only recorded call had these arguments.
    function CalledOnceWith(args: A): (r: bool)
      reads this
      ensures r <==> calls == [args]
    {
      CalledOnceWithBy(args, (a: A, b: A) => a == b)
    }
  }

  /// `call<R (Args...)>`.
  class Call<R, A(==)> {
    const returnHandler: ReturnHandler<R>
    const callHandler: CallHandler<A>

    constructor()
      ensures fresh(returnHandler) && fresh(callHandler)
      ensures returnHandler.position == 0 && returnHandler.configured == [] && callHandler.calls == []
    {
      returnHandler := new ReturnHandler();
      callHandler := new CallHandler();
    }

    /// `operator()`: the arguments are recorded, then the next
    /// configured value is returned.
    method Invoke(args: A) returns (value: R)
      requires returnHandler.position < |returnHandler.configured|
      modifies returnHandler, callHandler
      ensures callHandler.calls == old(callHandler.calls) + [args]
      ensures value == old(returnHandler.configured[returnHandler.position])
      ensures returnHandler.position == old(returnHandler.position) + 1
      ensures returnHandler.configured == old(returnHandler.configured)
    {
      callHandler.AddCall(args);
      value := returnHandler.Next();
    }

    /// `set_returns`.
    method SetReturns(values: seq<R>)
      modifies returnHandler
      ensures returnHandler.configured == old(returnHandler.configured) + values
      ensures returnHandler.position == old(returnHandler.position)
    {
      returnHandler.SetReturns(values);
    }
  }

  /// A stub of a function of a number and a flag returning a number,
  /// configured with 1, 2, 3 and called three times: it answers 1, 2, 3,
  /// was last called with the third arguments, and was not called once.
  method StubExample() returns (answers: seq<nat>, lastMatches: bool, once: bool)
    ensures answers == [1, 2, 3] && lastMatches && !once
  {
    var f := new Call<nat, (nat, bool)>();
    f.SetReturns([1, 2]);
    f.returnHandler.SetReturn(3);
    var a := f.Invoke((7, true));
    var b := f.Invoke((8, false));
    var c := f.Invoke((9, true));
    answers := [a, b, c];
    lastMatches := f.callHandler.CalledWith((9, true));
    once := f.callHandler.CalledOnceWith((9, true));
  }
}
