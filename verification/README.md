# ML fundamentals: operator prelude and value types in Dafny

This project models the two pure-computation components of a machine-learning
teaching repository:

- **The scalar operator prelude** (`fundamentals/operators.py`). It covers
  the arithmetic and predicate operators `mul`, `id`, `add`, `neg`, `lt`,
  `eq`, `max`, `is_close`, `relu` and `inv`. It covers the chain-rule
  backward helpers `log_back`, `inv_back` and `relu_back`. It covers the
  higher-order combinators `map`, `zipWith` and `reduce`, and the list
  functions built from them: `negList`, `addLists`, `sum` and `prod`.
- **The ML value types** (`fundamentals/ml_data_structures.py`). These are
  `Vector` (`len`, indexing, `+`, scalar `*`, `dot`) and the activation
  family {ReLU, Sigmoid} as a closed variant. They also include
  `Neuron.forward`, `Layer.forward`, and `Dataset` (construction,
  `len`, indexing, `split`).

The Python bodies in both files are unfinished: they raise
`NotImplementedError` or do nothing. The model therefore follows what the
docstrings, the TODO comments and `tests/test_ml_data_structures.py`
promise.

Modelling choices:

- Python floats are `real`, so each identity is exact.
- Every exception becomes an `Err` of one `Result` type (module
  `Wrappers`):
  - length mismatch of vectors or lists;
  - dimension mismatch of a neuron's inputs;
  - index out of range;
  - split ratio out of range;
  - division by zero;
  - an argument outside the domain of `log`.
- `map`, `zipWith` and `reduce` return closures in Python. Here each takes
  the function and the list(s) in one call.
- `reduce` is defined as the docstring writes it: the last element is
  applied outermost. `Operators.ReduceIterative` is the single front-to-back
  loop a Python implementation would run, and it is proved equal to that
  definition.
- `Vector` indexing and `Dataset` indexing follow Python list indexing. A
  negative index counts from the end.
- The `Sigmoid` variant carries its logistic function as a field. So
  `Neuron` and `Layer` are verified for any logistic curve. The facts that
  need the curve's shape take it as a precondition.
- The dot product is computed with the operator library as
  `sum(zipWith(mul))`. It is proved equal to an independent front-to-back
  definition, `Vectors.DotSpec`.
- `Vectors.Length` and `Datasets.Len` model `__len__`. They return the
  element count and the sample count.
- Default feature names are `"feature_0"`, `"feature_1"`, and so on. Module
  `Decimal` models the decimal rendering of an index and its parse. A
  numeral with no leading zero is the rendering of the number it parses to,
  so the suffix of each default name is exactly `str(i)`, and the names are
  distinct.
- `split` puts floor(ratio × n) samples in the training half. For a
  non-negative product, Python's `int()` truncation gives the same number.
  Both halves are built through the constructor from the parent's
  description and feature names, and are named `<name>_train` and
  `<name>_test`. So both keep the description, and both keep a non-empty
  name list. An empty name list is regenerated by the constructor for each
  half, from that half's own first vector.
- The dataclass defaults are default parameters: `name` is
  `"Unnamed Dataset"`, `description` is empty, `feature_names` is empty, and
  `split`'s ratio is 0.8.
- The source does not fix a few behaviours, so the model picks them:
  - `zipWith` on lists of different lengths returns a length-mismatch
    error. The docstring only says that the lists have equal size.
  - Default names are generated only when the dataset has a first feature
    vector.
  - `log_back` is an error outside `log`'s domain, x ≤ 0.

## Model

| member | source | states |
|---|---|---|
| Operators.Mul | fundamentals/operators.py:17-28 | definition, as the docstring writes it: x·y (its laws are in Operators.AddMulLaws) |
| Operators.Id | fundamentals/operators.py:31-41 | definition, as the docstring writes it: x (see Operators.NegInvolution) |
| Operators.Add | fundamentals/operators.py:44-55 | definition, as the docstring writes it: x + y (its laws are in Operators.AddMulLaws) |
| Operators.Neg | fundamentals/operators.py:58-68 | definition, as the docstring writes it: −x (see Operators.NegInvolution) |
| Operators.NegInvolution | fundamentals/operators.py:31-68 | neg(neg(x)) = x, add(x, neg(x)) = 0 and id(x) = x |
| Operators.AddMulLaws | fundamentals/operators.py:17-55 | add and mul are commutative, with units 0 and 1 |
| Operators.Lt | fundamentals/operators.py:71-82 | the result is 0.0 or 1.0, and it is 1.0 exactly when x < y |
| Operators.Eq | fundamentals/operators.py:85-96 | the result is 0.0 or 1.0, and it is 1.0 exactly when x == y |
| Operators.LtEqTrichotomy | fundamentals/operators.py:71-96 | exactly one of lt(x,y), eq(x,y), lt(y,x) is 1.0; eq is symmetric; lt is irreflexive |
| Operators.Max | fundamentals/operators.py:99-110 | the result is at least both arguments and equals one of them |
| Operators.MaxCommutative | fundamentals/operators.py:99-110 | max(x,y) = max(y,x) and max(x,x) = x |
| Operators.IsClose | fundamentals/operators.py:113-124 | the result is 0.0 or 1.0, and it is 1.0 exactly when \|x − y\| < 1e-2 |
| Operators.IsCloseReflexiveSymmetric | fundamentals/operators.py:113-124 | is_close(x,x) = 1.0 and is_close is symmetric |
| Operators.Relu | fundamentals/operators.py:148-161 | the result is ≥ 0 and ≥ x, and it is either x or 0 |
| Operators.ReluIdempotent | fundamentals/operators.py:148-161 | relu(x) = max(0, x) and relu(relu(x)) = relu(x) |
| Operators.Inv | fundamentals/operators.py:207-217 | an error exactly at x = 0; otherwise the result r satisfies r·x = 1 |
| Operators.LogBack | fundamentals/operators.py:193-204 | an error exactly for x ≤ 0; otherwise the result r satisfies r·x = d, i.e. r = d·log′(x) |
| Operators.InvBack | fundamentals/operators.py:220-231 | an error exactly at x = 0; otherwise the result r satisfies r·x² = −d, i.e. r = d·(−1/x²) |
| Operators.ReluBack | fundamentals/operators.py:234-245 | passes d through when x > 0 and gives 0 otherwise |
| Operators.InvBackIsChainRule | fundamentals/operators.py:207-231 | inv_back(x,d) = −d·inv(x)² for x ≠ 0 |
| Operators.LogBackIsChainRule | fundamentals/operators.py:193-217 | log_back(x,d) = d·inv(x) for x > 0 |
| Operators.BackwardLinear | fundamentals/operators.py:193-245 | relu_back, inv_back and log_back are linear in the upstream gradient d |
| Operators.Map | fundamentals/operators.py:248-262 | the result has the list's length, and element i is fn(ls[i]) |
| Operators.NegList | fundamentals/operators.py:265-275 | map(neg) preserves length and negates element i |
| Operators.NegListInvolution | fundamentals/operators.py:265-275 | negList(negList(ls)) = ls |
| Operators.ZipWith | fundamentals/operators.py:278-294 | an error exactly when the lengths differ; otherwise the common length, with element i = fn(ls1[i], ls2[i]) |
| Operators.AddLists | fundamentals/operators.py:297-308 | an error exactly when the lengths differ; otherwise element i is ls1[i] + ls2[i] |
| Operators.AddListsCommutative | fundamentals/operators.py:297-308 | addLists(a,b) = addLists(b,a), in the error case too |
| Operators.Reduce | fundamentals/operators.py:311-327 | definition, as the docstring writes it: fn(xn, … fn(x2, fn(x1, x0))), the last element outermost |
| Operators.Sum | fundamentals/operators.py:330-340 | definition, as the docstring writes it: reduce(add, 0) |
| Operators.Prod | fundamentals/operators.py:343-353 | definition, as the docstring writes it: reduce(mul, 1) |
| Operators.ReduceIterative | fundamentals/operators.py:311-327 | one front-to-back accumulating pass computes fn(xn, … fn(x2, fn(x1, x0))) |
| Operators.ReduceCons | fundamentals/operators.py:311-327 | fold order: reducing x :: ls from start is reducing ls from fn(x, start) |
| Operators.ReduceEmpty | fundamentals/operators.py:311-353 | reducing [] gives start, so sum([]) = 0 and prod([]) = 1 |
| Operators.SumCons | fundamentals/operators.py:330-340 | sum(x :: ls) = x + sum(ls) |
| Operators.SumAppend | fundamentals/operators.py:330-340 | sum(a ++ b) = sum(a) + sum(b) |
| Operators.ProdAppend | fundamentals/operators.py:343-353 | prod(a ++ b) = prod(a)·prod(b) |
| Operators.SumAddLists | fundamentals/operators.py:297-340 | sum(addLists(a,b)) = sum(a) + sum(b) for equal lengths |
| Operators.SumNegList | fundamentals/operators.py:265-340 | sum(negList(ls)) = −sum(ls) |
| Vectors.Length | fundamentals/ml_data_structures.py:22-24 | definition: `len(v)` is the number of elements |
| Vectors.Get | fundamentals/ml_data_structures.py:26-28 | valid exactly for −len ≤ idx < len, otherwise an index error; a non-negative idx reads values[idx] |
| Vectors.GetNegativeIndex | fundamentals/ml_data_structures.py:26-28 | a negative index reads the element len places later |
| Vectors.Add | fundamentals/ml_data_structures.py:30-33 | a length mismatch exactly when the lengths differ; otherwise the same length, with element i = v[i] + w[i] |
| Vectors.AddCommutative | fundamentals/ml_data_structures.py:30-33 | v + w = w + v |
| Vectors.AddExample | tests/test_ml_data_structures.py:25-34 | [1,2,3] + [4,5,6] = [5,7,9]; adding a length-2 vector fails |
| Vectors.Scale | fundamentals/ml_data_structures.py:35-38 | the length is kept and every element is multiplied by the scalar |
| Vectors.ScaleExample | tests/test_ml_data_structures.py:36-39 | [1,2,3] · 2.5 = [2.5, 5, 7.5] |
| Vectors.Dot | fundamentals/ml_data_structures.py:40-44 | a length mismatch exactly when the lengths differ; otherwise the reference sum of pairwise products |
| Vectors.SumOfProductsIsDotSpec | fundamentals/ml_data_structures.py:40-44 | sum(zipWith(mul)) computed back to front equals the front-to-back reference dot product |
| Vectors.DotSymmetric | fundamentals/ml_data_structures.py:40-44 | v·w = w·v, in the error case too |
| Vectors.DotDistributesOverAdd | fundamentals/ml_data_structures.py:30-44 | (u + v)·w = u·w + v·w |
| Vectors.DotScale | fundamentals/ml_data_structures.py:35-44 | (v·c)·w = c·(v·w) |
| Vectors.DotExample | tests/test_ml_data_structures.py:44-51 | [1,2,3]·[4,5,6] = 32; a length-2 argument fails |
| Activations.Apply | fundamentals/ml_data_structures.py:64-69 | ReLU(x) is ≥ 0 and ≥ x, and it is either x or 0 |
| Activations.Derivative | fundamentals/ml_data_structures.py:71-73 | the ReLU derivative is 1.0 exactly for x > 0 and 0.0 exactly for x ≤ 0 |
| Activations.ReluApplyIsRelu | fundamentals/ml_data_structures.py:64-69 | the ReLU activation is the operator library's relu, and it is idempotent |
| Activations.ReluDerivativeIsReluBack | fundamentals/ml_data_structures.py:71-73 | d·ReLU′(x) = relu_back(x, d) |
| Activations.ReluExamples | tests/test_ml_data_structures.py:59-68 | ReLU at 5, −3 and 0 is 5, 0 and 0; its derivative there is 1, 0 and 0 |
| Activations.SigmoidDerivativeBounds | fundamentals/ml_data_structures.py:84-86 | where 0 < s(x) < 1, the derivative s(1 − s) lies in (0, 1/4] |
| Activations.SigmoidDerivativeAtZero | tests/test_ml_data_structures.py:70-77 | example: for a curve with sigmoid(0) = 0.5, the derivative at 0 is 0.25 |
| Neurons.Forward | fundamentals/ml_data_structures.py:98-106 | a dimension mismatch exactly when the input and weight lengths differ; otherwise activation(w·x + bias) |
| Neurons.ReluForward | fundamentals/ml_data_structures.py:98-106 | under ReLU the output is relu(w·x + b): never negative, and 0 when the sum is negative |
| Neurons.ForwardUsesDotEitherWay | fundamentals/ml_data_structures.py:98-106 | the output does not depend on whether the weighted sum is w·x or x·w |
| Neurons.ForwardExample | tests/test_ml_data_structures.py:91-99 | weights [0.1,0.2,0.3], bias 0.5, ReLU on [1,2,3] give 1.9 |
| Neurons.ForwardTestExpectationFails | tests/test_ml_data_structures.py:97-99 | the test's expected 1.6 is not the neuron's output |
| Neurons.ForwardNegativeExample | tests/test_ml_data_structures.py:101-109 | a negative weighted sum under ReLU gives 0; inputs of dimension 2 fail |
| Layers.ForwardAll | fundamentals/ml_data_structures.py:116-122 | succeeds exactly when every neuron's weights match the inputs; then one output per neuron, and output i is neuron i's forward |
| Layers.Forward | fundamentals/ml_data_structures.py:116-122 | fails exactly when some neuron fails, with a dimension mismatch; otherwise a vector of length #neurons whose element i is neurons[i].forward(inputs) |
| Layers.ForwardExample | tests/test_ml_data_structures.py:121-135 | the two-neuron ReLU/Sigmoid layer maps [1,2] to [0.6, sigmoid(1.3)]; dimension-3 inputs fail |
| Decimal.NatToString | fundamentals/ml_data_structures.py:136-139 | the rendering of i is a canonical numeral (digits only, no leading zero), and it starts with 0 exactly when i = 0 |
| Decimal.ParseNatToString | fundamentals/ml_data_structures.py:136-139 | parsing the decimal rendering of n gives n back |
| Decimal.CanonicalIsNatToString | fundamentals/ml_data_structures.py:136-139 | every canonical numeral is the rendering of the number it parses to, so str(i) is the only canonical numeral for i |
| Decimal.NatToStringInjective | fundamentals/ml_data_structures.py:136-139 | different indices render differently |
| Datasets.DefaultFeatureNames | fundamentals/ml_data_structures.py:136-139 | k names, each "feature_" followed by a canonical numeral (digits only, no leading zero) that parses back to its own position, which makes it exactly "feature_" + str(i) |
| Datasets.DefaultFeatureNamesDistinct | fundamentals/ml_data_structures.py:136-139 | the default names are pairwise distinct |
| Datasets.New | fundamentals/ml_data_structures.py:136-139 | a length mismatch exactly when #features ≠ #labels; otherwise keeps its inputs, and with no names given it names as many features as the first vector has elements; name, description and names default to "Unnamed Dataset", "" and [] |
| Datasets.NewExample | tests/test_ml_data_structures.py:138-154 | two 2-dimensional samples get two feature names; a missing label fails |
| Datasets.Len | fundamentals/ml_data_structures.py:141-143 | definition: `len(ds)` is the number of samples |
| Datasets.Get | fundamentals/ml_data_structures.py:145-147 | valid exactly for −len ≤ idx < len, otherwise an index error; ds[i] = (features[i], labels[i]) |
| Datasets.GetNegativeIndex | fundamentals/ml_data_structures.py:145-147 | a negative index names the sample len places later |
| Datasets.GetExample | tests/test_ml_data_structures.py:156-163 | ds[1] is the second feature vector and label |
| Datasets.SplitIndex | fundamentals/ml_data_structures.py:149-155 | the training size k is floor(ratio·n), with k ≤ n and k < n when n > 0 |
| Datasets.Split | fundamentals/ml_data_structures.py:149-155 | a range error exactly unless 0 < ratio < 1; otherwise train ++ test rebuilds the features and the labels in order, train has floor(ratio·n) samples, the names get the _train/_test suffixes, both halves keep the description, a non-empty name list is kept by both, and an empty one is regenerated from each half's first vector; the ratio defaults to 0.8 |
| Datasets.SplitLengths | fundamentals/ml_data_structures.py:149-155 | the two halves' lengths add up to the parent's, and a non-empty parent leaves a non-empty test half |
| Datasets.SplitPreservesSamples | fundamentals/ml_data_structures.py:149-155 | train[i] = ds[i] and test[i] = ds[k + i] |
| Datasets.SplitExample | tests/test_ml_data_structures.py:165-179 | 4 samples at 0.75 give 3 and 1, named "Test Dataset_train" and "Test Dataset_test"; the default ratio 0.8 also keeps 3; ratio 1.5 fails |
| Datasets.SplitRegeneratesNamesExample | fundamentals/ml_data_structures.py:136-155 | a parent whose first vector is empty has no names, but its test half [[1.0]] is named by the constructor |

## Left out

- `sigmoid`, `log`, `exp` and the `EPS` clamp (fundamentals/operators.py:127-190) are transcendental floating-point functions with no exact counterpart over `real`. The Sigmoid activation instead carries its logistic function as an uninterpreted field.
- `Vector.magnitude` (fundamentals/ml_data_structures.py:46-49) needs a square root, so it is left out.
- The runtime type checks are left out, because Dafny's static types already exclude non-numeric input. These are the non-list or non-numeric `Vector` contents and the non-numeric scalar given to `*`.
- The `ActivationFunction` base class that raises `NotImplementedError` is left out. The closed variant has no abstract member.
- Floating-point rounding and exact float equality are left out, because all arithmetic is over `real`.
- Object identity (`is`) in the creation tests is left out.
- The Bayesian scripts under `bayesian-statistics/` drive an external sampler and plotting library, so they are not part of this model.
- Activations.Apply: states nothing about the Sigmoid branch, because the logistic function is an uninterpreted field.
- Activations.Derivative: states nothing about the Sigmoid branch beyond its definition s(x)·(1 − s(x)). Its bounds are in `Activations.SigmoidDerivativeBounds`, under a precondition on s.
- Operators.LogBack: the clamped `log(x + EPS)` that a numerically guarded implementation might differentiate is not modelled. Only the mathematical derivative on x > 0 is.

## Findings

| source | as written | input that shows it | evidently intended | confidence | as-written member | corrected member |
|---|---|---|---|---|---|---|
| tests/test_ml_data_structures.py:97-99 | expects `neuron.forward([1,2,3]) == 1.6` for weights [0.1, 0.2, 0.3], bias 0.5 and ReLU | weights [0.1, 0.2, 0.3], bias 0.5, inputs [1, 2, 3]: 0.1 + 0.4 + 0.9 + 0.5 = 1.9 | the expected value relu(1.9) = 1.9; the arithmetic in the test comment is off by 0.3 | high; not executed | Neurons.ForwardTestExpectationFails | Neurons.ForwardExample |
