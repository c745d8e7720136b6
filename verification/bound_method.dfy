/**
 A websocket handler method together with the parameters bound to its argument
 positions. Construction checks that every argument position is bound.
 */
module BoundMethod {
  import opened Wrappers
  import opened JavaInts

  /** The annotation users reach for by mistake instead of the websocket one. */
  const WrongPathParam: string := "javax.ws.rs.PathParam"

  /** One declared parameter of a reflected method: its type name and the type names of its annotations. */
  datatype Parameter = Parameter(declaredType: string, annotations: seq<string>)

  /** A reflected method, reduced to its name and declared parameters. */
  datatype Method = Method(name: string, parameters: seq<Parameter>)

  /** An argument value passed to the reflected method. */
  datatype Argument = Argument(id: nat)

  /** A binding that fills the argument positions `positions` when the method is invoked. */
  datatype BoundParameter = BoundParameter(name: string, positions: set<int>)

  datatype BoundMethod = BoundMethod(
    handler: Method,
    parameters: seq<BoundParameter>,
    paramTypes: set<string>,
    messageType: string,
    decoderRequired: bool,
    maxMessageSize: Int64)

  /** Construction failures; both report the positions no binding claims. */
  datatype DeploymentError =
    | InvalidParametersWithWrongAnnotation(handler: Method, missing: set<int>)
    | InvalidParameters(handler: Method, missing: set<int>)
  {
    function Missing(): set<int> {
      match this
      case InvalidParametersWithWrongAnnotation(_, missing) => missing
      case InvalidParameters(_, missing) => missing
    }
  }

  /** The argument positions `0..n-1`. */
  function Positions(n: nat): (s: set<int>)
    ensures forall x :: x in s <==> 0 <= x < n
  {
    if n == 0 then {} else Positions(n - 1) + {n - 1}
  }

  /** The positions left after each binding in turn removes the ones it claims. */
  function Unclaimed(n: nat, params: seq<BoundParameter>): set<int>
    decreases |params|
  {
    if params == [] then Positions(n)
    else Unclaimed(n, params[..|params| - 1]) - params[|params| - 1].positions
  }

  /** Some binding claims position `x`. */
  ghost predicate Claimed(x: int, params: seq<BoundParameter>) {
    exists j :: 0 <= j < |params| && x in params[j].positions
  }

  /** The set of declared parameter types. */
  function DeclaredTypes(ps: seq<Parameter>): set<string> {
    set i | 0 <= i < |ps| :: ps[i].declaredType
  }

  /** Some annotation on some parameter is the mistaken path-parameter annotation. */
  ghost predicate HasWrongAnnotation(m: Method) {
    exists i, j :: 0 <= i < |m.parameters| && 0 <= j < |m.parameters[i].annotations|
      && m.parameters[i].annotations[j] == WrongPathParam
  }

  /** What every constructed bound method satisfies. */
  ghost predicate Valid(b: BoundMethod) {
    && b.paramTypes == DeclaredTypes(b.handler.parameters)
    && forall x :: 0 <= x < |b.handler.parameters| ==> Claimed(x, b.parameters)
  }

  /** A position survives the removals exactly when it is in range and no binding claims it. */
  lemma {:induction false} UnclaimedIsUnboundPositions(n: nat, params: seq<BoundParameter>, x: int)
    ensures x in Unclaimed(n, params) <==> 0 <= x < n && !Claimed(x, params)
    decreases |params|
  {
    if params != [] {
      var init := params[..|params| - 1];
      UnclaimedIsUnboundPositions(n, init, x);
      if Claimed(x, init) {
        var j :| 0 <= j < |init| && x in init[j].positions;
        assert x in params[j].positions;
      }
    }
  }

  /** Claims outside `0..n-1` do not change which positions stay unclaimed. */
  lemma {:induction false} OutOfRangeClaimsIrrelevant(n: nat, params: seq<BoundParameter>, inRange: seq<BoundParameter>)
    requires |inRange| == |params|
    requires forall j :: 0 <= j < |params| ==> inRange[j].positions == params[j].positions * Positions(n)
    ensures Unclaimed(n, inRange) == Unclaimed(n, params)
    decreases |params|
  {
    if params != [] {
      OutOfRangeClaimsIrrelevant(n, params[..|params| - 1], inRange[..|inRange| - 1]);
      assert Unclaimed(n, params[..|params| - 1]) <= Positions(n) by {
        forall x | x in Unclaimed(n, params[..|params| - 1]) ensures x in Positions(n) {
          UnclaimedIsUnboundPositions(n, params[..|params| - 1], x);
        }
      }
    }
  }

  /**
   The constructor. Position `0..n-1` each start unclaimed and every binding
   removes the positions it claims; any position left over fails construction,
   with the more informative error when some parameter carries the mistaken
   path-parameter annotation.
   */
  method Construct(handler: Method, messageType: string, decoderRequired: bool, maxMessageSize: Int64,
                   params: seq<BoundParameter>)
    returns (r: Result<BoundMethod, DeploymentError>)
    ensures r.Success? <==> forall x :: 0 <= x < |handler.parameters| ==> Claimed(x, params)
    ensures r.Success? ==> r.value == BoundMethod(handler, params, DeclaredTypes(handler.parameters),
                                                  messageType, decoderRequired, maxMessageSize)
    ensures r.Success? ==> Valid(r.value)
    ensures r.Failure? ==> r.error.handler == handler
    ensures r.Failure? ==> r.error.Missing() == set x | 0 <= x < |handler.parameters| && !Claimed(x, params)
    ensures r.Failure? ==> (r.error.InvalidParametersWithWrongAnnotation? <==> HasWrongAnnotation(handler))
  {
    var n := |handler.parameters|;
    var allParams: set<int> := {};
    var paramTypes: set<string> := {};
    var i := 0;
    while i < n
      invariant 0 <= i <= n
      invariant allParams == Positions(i)
      invariant paramTypes == DeclaredTypes(handler.parameters[..i])
    {
      allParams := allParams + {i};
      paramTypes := paramTypes + {handler.parameters[i].declaredType};
      assert handler.parameters[..i + 1] == handler.parameters[..i] + [handler.parameters[i]];
      i := i + 1;
    }
    assert handler.parameters[..n] == handler.parameters;

    var bound: seq<BoundParameter> := [];
    var k := 0;
    while k < |params|
      invariant 0 <= k <= |params|
      invariant bound == params[..k]
      invariant allParams == Unclaimed(n, params[..k])
    {
      bound := bound + [params[k]];
      allParams := allParams - params[k].positions;
      assert params[..k + 1][..k] == params[..k];
      k := k + 1;
    }
    assert params[..k] == params;

    forall x ensures x in allParams <==> 0 <= x < n && !Claimed(x, params) {
      UnclaimedIsUnboundPositions(n, params, x);
    }

    if allParams != {} {
      ghost var unbound :| unbound in allParams;
      assert !Claimed(unbound, params);
      var wrongAnnotation := false;
      var a := 0;
      while a < n
        invariant 0 <= a <= n
        invariant wrongAnnotation <==> exists i, j :: 0 <= i < a && 0 <= j < |handler.parameters[i].annotations|
                                                    && handler.parameters[i].annotations[j] == WrongPathParam
      {
        var annotations := handler.parameters[a].annotations;
        var b := 0;
        while b < |annotations|
          invariant 0 <= b <= |annotations|
          invariant wrongAnnotation <==>
            (exists i, j :: 0 <= i < a && 0 <= j < |handler.parameters[i].annotations|
                            && handler.parameters[i].annotations[j] == WrongPathParam)
            || (exists j :: 0 <= j < b && annotations[j] == WrongPathParam)
        {
          if annotations[b] == WrongPathParam {
            wrongAnnotation := true;
          }
          b := b + 1;
        }
        a := a + 1;
      }
      if wrongAnnotation {
        r := Failure(InvalidParametersWithWrongAnnotation(handler, allParams));
      } else {
        r := Failure(InvalidParameters(handler, allParams));
      }
    } else {
      r := Success(BoundMethod(handler, bound, paramTypes, messageType, decoderRequired, maxMessageSize));
    }
  }

  /** Whether some parameter position of the bound method is declared with type `t`. */
  function HasParameterType(b: BoundMethod, t: string): (r: bool)
    requires Valid(b)
    ensures r <==> exists i :: 0 <= i < |b.handler.parameters| && b.handler.parameters[i].declaredType == t
  {
    t in b.paramTypes
  }

  /**
   The argument array an invocation starts from: one empty slot per declared
   parameter, which the bindings then fill.
   */
  function InvokeArguments(b: BoundMethod): (args: seq<Option<Argument>>)
    ensures |args| == |b.handler.parameters|
    ensures forall i :: 0 <= i < |args| ==> args[i].None?
  {
    seq(|b.handler.parameters|, _ => None)
  }
}
