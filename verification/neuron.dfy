/** A single neuron: a weight vector, a bias and an activation function. */
module Neurons {
  import opened Wrappers
  import opened Vectors
  import opened Activations
  import Operators

  datatype Neuron = Neuron(weights: Vector, bias: real, activation: Activation)

  /** `neuron.forward(inputs)`: checks that the inputs have as many
      elements as the weights, then applies the activation to the weighted
      sum plus the bias. */
  function Forward(n: Neuron, inputs: Vector): (r: Result<real>)
    ensures r.Err? <==> Length(inputs) != Length(n.weights)
    ensures r.Err? ==> r.error == DimensionMismatch
    ensures r.Ok? ==> r.value == Apply(n.activation, DotSpec(n.weights.values, inputs.values) + n.bias)
  {
    if Length(inputs) != Length(n.weights) then Err(DimensionMismatch)
    else
      var s := Dot(n.weights, inputs).value;
      Ok(Apply(n.activation, s + n.bias))
  }

  /** Under ReLU a neuron outputs relu(w . x + b): never negative, 0 when
      the pre-activation sum is negative, the sum itself otherwise. */
  lemma ReluForward(n: Neuron, inputs: Vector)
    requires n.activation.ReLU?
    requires Length(inputs) == Length(n.weights)
    ensures Forward(n, inputs).Ok?
    ensures Forward(n, inputs).value == Operators.Relu(Dot(n.weights, inputs).value + n.bias)
    ensures Forward(n, inputs).value >= 0.0
    ensures Dot(n.weights, inputs).value + n.bias < 0.0 ==> Forward(n, inputs).value == 0.0
  {
  }

  /** The weighted sum does not depend on which side the inputs are on. */
  lemma ForwardUsesDotEitherWay(n: Neuron, inputs: Vector)
    requires Length(inputs) == Length(n.weights)
    ensures Forward(n, inputs) == Ok(Apply(n.activation, Dot(inputs, n.weights).value + n.bias))
  {
    DotSymmetric(n.weights, inputs);
  }

  /** Weights [-0.1, -0.2, -0.3], bias -0.5 and ReLU on [1, 2, 3] give 0;
      inputs of dimension 2 are a dimension mismatch. */
  lemma ForwardNegativeExample()
    ensures Forward(Neuron(Vector([-0.1, -0.2, -0.3]), -0.5, ReLU), Vector([1.0, 2.0, 3.0])) == Ok(0.0)
    ensures Forward(Neuron(Vector([-0.1, -0.2, -0.3]), -0.5, ReLU), Vector([1.0, 2.0])) == Err(DimensionMismatch)
  {
    var w := [-0.1, -0.2, -0.3];
    var x := [1.0, 2.0, 3.0];
    assert w[1..][1..][1..] == [];
    assert DotSpec(w, x) == -1.4;
  }

  /** The neuron test's expectation as written: weights [0.1, 0.2, 0.3],
      bias 0.5 and ReLU on [1, 2, 3] should give 1.6. */
  predicate ForwardTestExpectation(out: Result<real>)
  {
    out == Ok(1.6)
  }

  /** The expectation as written is not met: 0.1 + 0.4 + 0.9 + 0.5 is 1.9. */
  lemma ForwardTestExpectationFails()
    ensures !ForwardTestExpectation(Forward(Neuron(Vector([0.1, 0.2, 0.3]), 0.5, ReLU), Vector([1.0, 2.0, 3.0])))
  {
    ForwardExample();
  }

  /** Weights [0.1, 0.2, 0.3], bias 0.5 and ReLU on [1, 2, 3] give
      relu(0.1 * 1 + 0.2 * 2 + 0.3 * 3 + 0.5) = 1.9. */
  lemma ForwardExample()
    ensures Forward(Neuron(Vector([0.1, 0.2, 0.3]), 0.5, ReLU), Vector([1.0, 2.0, 3.0])) == Ok(1.9)
  {
    var w := [0.1, 0.2, 0.3];
    var x := [1.0, 2.0, 3.0];
    assert w[1..][1..][1..] == [];
    assert DotSpec(w, x) == 1.4;
  }
}
