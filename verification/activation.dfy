/** The activation-function family as a closed variant {ReLU, Sigmoid}.

    The logistic function is transcendental and has no exact counterpart over
    `real`, so the Sigmoid variant carries it as a field: everything proved
    here about Sigmoid holds for whatever function it carries, and the few
    facts that need the logistic curve's shape take that shape as a
    precondition. */
module Activations {
  import Operators

  datatype Activation = ReLU | Sigmoid(logistic: real -> real)

  /** `activation(x)`: max(0, x) for ReLU, the logistic curve for Sigmoid. */
  function Apply(a: Activation, x: real): (r: real)
    ensures a.ReLU? ==> r >= 0.0 && r >= x
    ensures a.ReLU? ==> r == x || r == 0.0
  {
    match a
    case ReLU => Operators.Max(0.0, x)
    case Sigmoid(f) => f(x)
  }

  /** `activation.derivative(x)`: for ReLU the step 1.0 for x > 0 and 0.0
      otherwise (0.0 at x = 0 by convention); for Sigmoid s(x) * (1 - s(x)). */
  function Derivative(a: Activation, x: real): (r: real)
    ensures a.ReLU? ==> (r == 1.0 <==> x > 0.0)
    ensures a.ReLU? ==> (r == 0.0 <==> x <= 0.0)
  {
    match a
    case ReLU => if x > 0.0 then 1.0 else 0.0
    case Sigmoid(f) => f(x) * (1.0 - f(x))
  }

  /** The ReLU activation is the operator library's relu. */
  lemma ReluApplyIsRelu(x: real)
    ensures Apply(ReLU, x) == Operators.Relu(x)
    ensures Apply(ReLU, Apply(ReLU, x)) == Apply(ReLU, x)
  {
  }

  /** The ReLU derivative is what relu_back multiplies the upstream
      gradient by: d * relu'(x) == relu_back(x, d). */
  lemma ReluDerivativeIsReluBack(x: real, d: real)
    ensures d * Derivative(ReLU, x) == Operators.ReluBack(x, d)
  {
  }

  /** ReLU on 5, -3 and 0, and its derivative at the same points. */
  lemma ReluExamples()
    ensures Apply(ReLU, 5.0) == 5.0 && Apply(ReLU, -3.0) == 0.0 && Apply(ReLU, 0.0) == 0.0
    ensures Derivative(ReLU, 5.0) == 1.0 && Derivative(ReLU, -3.0) == 0.0 && Derivative(ReLU, 0.0) == 0.0
  {
  }

  /** Where the logistic value lies strictly between 0 and 1, the Sigmoid
      derivative s(1 - s) is positive and at most 1/4. */
  lemma SigmoidDerivativeBounds(f: real -> real, x: real)
    requires 0.0 < f(x) < 1.0
    ensures 0.0 < Derivative(Sigmoid(f), x) <= 0.25
  {
    var s := f(x);
    var t := 1.0 - s;
    assert Derivative(Sigmoid(f), x) == s * t;
    assert s * t == 0.25 - (s - 0.5) * (s - 0.5);
    assert (s - 0.5) * (s - 0.5) >= 0.0;
    assert 0.0 < s * t by {
      assert 0.0 < s && 0.0 < t;
    }
  }

  /** Example: for a logistic curve with sigmoid(0) = 0.5, the Sigmoid
      derivative at 0 is 0.5 * 0.5 = 0.25. */
  lemma SigmoidDerivativeAtZero(f: real -> real)
    requires f(0.0) == 0.5
    ensures Derivative(Sigmoid(f), 0.0) == 0.25
  {
  }
}
