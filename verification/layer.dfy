/** A layer: an ordered sequence of neurons that all see the same inputs. */
module Layers {
  import opened Wrappers
  import opened Vectors
  import opened Activations
  import Neurons

  datatype Layer = Layer(neurons: seq<Neuron>)

  type Neuron = Neurons.Neuron

  /** Runs every neuron on the inputs in order; the first neuron whose
      weights do not match the inputs makes the whole run fail. */
  function ForwardAll(neurons: seq<Neuron>, inputs: Vector): (r: Result<seq<real>>)
    ensures r.Ok? <==> forall i :: 0 <= i < |neurons| ==> Length(neurons[i].weights) == Length(inputs)
    ensures r.Err? ==> r.error == DimensionMismatch
    ensures r.Ok? ==> |r.value| == |neurons|
    ensures r.Ok? ==> forall i :: 0 <= i < |neurons| ==> Neurons.Forward(neurons[i], inputs) == Ok(r.value[i])
  {
    if |neurons| == 0 then Ok([])
    else
      var first :- Neurons.Forward(neurons[0], inputs);
      var rest :- ForwardAll(neurons[1..], inputs);
      Ok([first] + rest)
  }

  /** `layer.forward(inputs)`: the vector of neuron outputs, in neuron order.
      It fails exactly when some neuron fails, with that neuron's error. */
  function Forward(l: Layer, inputs: Vector): (r: Result<Vector>)
    ensures r.Err? <==> exists i :: 0 <= i < |l.neurons| && Neurons.Forward(l.neurons[i], inputs).Err?
    ensures r.Err? ==> r.error == DimensionMismatch
    ensures r.Ok? ==> Length(r.value) == |l.neurons|
    ensures r.Ok? ==> forall i :: 0 <= i < |l.neurons| ==> Neurons.Forward(l.neurons[i], inputs) == Ok(r.value.values[i])
  {
    var outs :- ForwardAll(l.neurons, inputs);
    Ok(Vector(outs))
  }

  /** A ReLU neuron with weights [0.1, 0.2], bias 0.1 and a Sigmoid neuron
      with weights [0.3, 0.4], bias 0.2 map [1, 2] to [0.6, sigmoid(1.3)];
      inputs of dimension 3 fail. */
  lemma ForwardExample(sigmoid: real -> real)
    ensures
      var l := Layer([Neurons.Neuron(Vector([0.1, 0.2]), 0.1, ReLU),
                      Neurons.Neuron(Vector([0.3, 0.4]), 0.2, Sigmoid(sigmoid))]);
      && Forward(l, Vector([1.0, 2.0])) == Ok(Vector([0.6, sigmoid(1.3)]))
      && Forward(l, Vector([1.0, 2.0, 3.0])) == Err(DimensionMismatch)
  {
    var l := Layer([Neurons.Neuron(Vector([0.1, 0.2]), 0.1, ReLU),
                    Neurons.Neuron(Vector([0.3, 0.4]), 0.2, Sigmoid(sigmoid))]);
    var x := [1.0, 2.0];
    var w0 := [0.1, 0.2];
    var w1 := [0.3, 0.4];
    assert w0[1..][1..] == [] && w1[1..][1..] == [];
    assert DotSpec(w0, x) == 0.5;
    assert DotSpec(w1, x) == 1.1;
    var r := Forward(l, Vector(x)).value.values;
    assert Neurons.Forward(l.neurons[0], Vector(x)) == Ok(0.6);
    assert Neurons.Forward(l.neurons[1], Vector(x)) == Ok(sigmoid(1.3));
    assert r == [0.6, sigmoid(1.3)];
    assert Neurons.Forward(l.neurons[0], Vector([1.0, 2.0, 3.0])).Err?;
  }
}
