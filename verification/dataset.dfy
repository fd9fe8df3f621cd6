/** A dataset: feature vectors paired with labels, a name, a description and
    feature names, with sample access and an order-preserving train/test
    split. */
module Datasets {
  import opened Wrappers
  import opened Vectors
  import Decimal

  /** A label is a scalar or a vector. */
  datatype Label = ScalarLabel(x: real) | VectorLabel(v: Vector)

  datatype Dataset = Dataset(
    features: seq<Vector>,
    labels: seq<Label>,
    name: string,
    description: string,
    featureNames: seq<string>)

  /** The name a dataset gets when none is given. */
  const DefaultName: string := "Unnamed Dataset"

  /** The train ratio `split` uses when none is given. */
  const DefaultTrainRatio: real := 0.8

  const FeaturePrefix: string := "feature_"
  const TrainSuffix: string := "_train"
  const TestSuffix: string := "_test"

  /** Every dataset that construction accepts pairs each feature vector with
      exactly one label. */
  predicate Valid(ds: Dataset)
  {
    |ds.features| == |ds.labels|
  }

  /** The placeholder names "feature_0", "feature_1", ... for k features:
      each is the prefix followed by the canonical decimal numeral of its own
      position (which `Decimal.CanonicalIsNatToString` shows is exactly
      `str(i)`). */
  function DefaultFeatureNames(k: nat): (names: seq<string>)
    ensures |names| == k
    ensures forall i :: 0 <= i < k ==> |names[i]| > |FeaturePrefix| && names[i][..|FeaturePrefix|] == FeaturePrefix
    ensures forall i :: 0 <= i < k ==> Decimal.Canonical(names[i][|FeaturePrefix|..])
    ensures forall i :: 0 <= i < k ==> Decimal.ParseNat(names[i][|FeaturePrefix|..]) == i
  {
    var names := seq(k, i requires 0 <= i < k => FeaturePrefix + Decimal.NatToString(i));
    forall i | 0 <= i < k
      ensures Decimal.Canonical(names[i][|FeaturePrefix|..])
      ensures Decimal.ParseNat(names[i][|FeaturePrefix|..]) == i
    {
      assert names[i][|FeaturePrefix|..] == Decimal.NatToString(i);
      Decimal.ParseNatToString(i);
    }
    names
  }

  /** The default feature names are pairwise distinct. */
  lemma DefaultFeatureNamesDistinct(k: nat, i: nat, j: nat)
    requires i < j < k
    ensures DefaultFeatureNames(k)[i] != DefaultFeatureNames(k)[j]
  {
    var names := DefaultFeatureNames(k);
    assert Decimal.ParseNat(names[i][|FeaturePrefix|..]) == i;
    assert Decimal.ParseNat(names[j][|FeaturePrefix|..]) == j;
  }

  /** `Dataset(features, labels, name, description, feature_names)`:
      fails when there are not as many labels as feature vectors; otherwise
      keeps what it was given and, when no feature names were given, names
      as many features as the first vector has elements. The name, the
      description and the feature names default as in the dataclass. */
  function New(features: seq<Vector>, labels: seq<Label>, name: string := DefaultName,
               description: string := "", featureNames: seq<string> := []): (r: Result<Dataset>)
    ensures r.Err? <==> |features| != |labels|
    ensures r.Err? ==> r.error == LengthMismatch
    ensures r.Ok? ==> Valid(r.value)
    ensures r.Ok? ==> r.value.features == features && r.value.labels == labels
    ensures r.Ok? ==> r.value.name == name && r.value.description == description
    ensures r.Ok? && |featureNames| > 0 ==> r.value.featureNames == featureNames
    ensures r.Ok? && |featureNames| == 0 && |features| > 0 ==>
              r.value.featureNames == DefaultFeatureNames(Length(features[0]))
    ensures r.Ok? && |featureNames| == 0 && |features| == 0 ==> r.value.featureNames == []
  {
    if |features| != |labels| then Err(LengthMismatch)
    else
      var names :=
        if |featureNames| == 0 && |features| > 0 then DefaultFeatureNames(Length(features[0]))
        else featureNames;
      Ok(Dataset(features, labels, name, description, names))
  }

  /** `len(ds)`: the number of samples. */
  function Len(ds: Dataset): nat
  {
    |ds.features|
  }

  /** `ds[idx]`: the sample at idx as a (features, label) pair, with Python
      list indexing (a negative index counts from the end). */
  function Get(ds: Dataset, idx: int): (r: Result<(Vector, Label)>)
    requires Valid(ds)
    ensures r.Ok? <==> -(Len(ds) as int) <= idx < Len(ds)
    ensures r.Err? ==> r.error == IndexOutOfRange
    ensures 0 <= idx < Len(ds) ==> r == Ok((ds.features[idx], ds.labels[idx]))
  {
    var n := |ds.features|;
    if 0 <= idx < n then Ok((ds.features[idx], ds.labels[idx]))
    else if -n <= idx < 0 then Ok((ds.features[n + idx], ds.labels[n + idx]))
    else Err(IndexOutOfRange)
  }

  /** A negative index names the same sample as the index len larger. */
  lemma GetNegativeIndex(ds: Dataset, idx: int)
    requires Valid(ds)
    requires -(Len(ds) as int) <= idx < 0
    ensures Get(ds, idx) == Get(ds, idx + Len(ds))
  {
  }

  /** The number of training samples: floor(ratio * n), which for a ratio
      strictly between 0 and 1 leaves at least one test sample whenever
      there is a sample at all. */
  function SplitIndex(n: nat, ratio: real): (k: nat)
    requires 0.0 < ratio < 1.0
    ensures k <= n
    ensures n > 0 ==> k < n
    ensures k as real <= ratio * n as real < k as real + 1.0
  {
    var x := ratio * n as real;
    assert 0.0 <= x by {
      assert 0.0 <= n as real;
    }
    assert n > 0 ==> x < n as real by {
      if n > 0 {
        assert (1.0 - ratio) * n as real > 0.0;
      }
    }
    x.Floor
  }

  /** `ds.split(ratio)`: fails unless 0 < ratio < 1; otherwise the first
      floor(ratio * n) samples form "<name>_train" and the rest, in order,
      "<name>_test". Both halves are built by the constructor from the
      parent's description and feature names, so an empty name list is
      regenerated for each half from that half's own first vector. */
  function Split(ds: Dataset, ratio: real := DefaultTrainRatio): (r: Result<(Dataset, Dataset)>)
    requires Valid(ds)
    ensures r.Err? <==> !(0.0 < ratio < 1.0)
    ensures r.Err? ==> r.error == RatioOutOfRange
    ensures r.Ok? ==> Valid(r.value.0) && Valid(r.value.1)
    ensures r.Ok? ==> r.value.0.features + r.value.1.features == ds.features
    ensures r.Ok? ==> r.value.0.labels + r.value.1.labels == ds.labels
    ensures r.Ok? ==> Len(r.value.0) == SplitIndex(Len(ds), ratio)
    ensures r.Ok? ==> r.value.0.name == ds.name + TrainSuffix && r.value.1.name == ds.name + TestSuffix
    ensures r.Ok? ==> r.value.0.description == ds.description && r.value.1.description == ds.description
    ensures r.Ok? && |ds.featureNames| > 0 ==>
              r.value.0.featureNames == ds.featureNames && r.value.1.featureNames == ds.featureNames
    ensures r.Ok? && |ds.featureNames| == 0 && Len(r.value.0) > 0 ==>
              r.value.0.featureNames == DefaultFeatureNames(Length(ds.features[0]))
    ensures r.Ok? && |ds.featureNames| == 0 && Len(r.value.1) > 0 ==>
              r.value.1.featureNames == DefaultFeatureNames(Length(ds.features[Len(r.value.0)]))
  {
    if !(0.0 < ratio < 1.0) then Err(RatioOutOfRange)
    else
      var k := SplitIndex(|ds.features|, ratio);
      var trainFeatures, trainLabels := ds.features[..k], ds.labels[..k];
      var testFeatures, testLabels := ds.features[k..], ds.labels[k..];
      assert trainFeatures + testFeatures == ds.features;
      assert trainLabels + testLabels == ds.labels;
      var train := New(trainFeatures, trainLabels, ds.name + TrainSuffix, ds.description, ds.featureNames).value;
      var test := New(testFeatures, testLabels, ds.name + TestSuffix, ds.description, ds.featureNames).value;
      assert train.features == trainFeatures && test.features == testFeatures;
      assert |testFeatures| > 0 ==> testFeatures[0] == ds.features[k];
      Ok((train, test))
  }

  /** The two halves of a split together hold exactly the parent's samples. */
  lemma SplitLengths(ds: Dataset, ratio: real)
    requires Valid(ds)
    requires 0.0 < ratio < 1.0
    ensures Split(ds, ratio).Ok?
    ensures Len(Split(ds, ratio).value.0) + Len(Split(ds, ratio).value.1) == Len(ds)
    ensures Len(ds) > 0 ==> Len(Split(ds, ratio).value.1) > 0
  {
    var r := Split(ds, ratio).value;
    assert |r.0.features + r.1.features| == |ds.features|;
  }

  /** Sample i of the training half is sample i of the parent, and sample j
      of the test half is the parent's sample just after the training ones. */
  lemma SplitPreservesSamples(ds: Dataset, ratio: real, i: nat)
    requires Valid(ds)
    requires 0.0 < ratio < 1.0
    ensures Split(ds, ratio).Ok?
    ensures i < Len(Split(ds, ratio).value.0) ==> Get(Split(ds, ratio).value.0, i) == Get(ds, i)
    ensures i < Len(Split(ds, ratio).value.1) ==>
              Get(Split(ds, ratio).value.1, i) == Get(ds, Len(Split(ds, ratio).value.0) + i)
  {
    var r := Split(ds, ratio).value;
    var k := Len(r.0);
    if i < k {
      assert r.0.features[i] == (r.0.features + r.1.features)[i];
      assert r.0.labels[i] == (r.0.labels + r.1.labels)[i];
    }
    if i < Len(r.1) {
      assert r.1.features[i] == (r.0.features + r.1.features)[k + i];
      assert r.1.labels[i] == (r.0.labels + r.1.labels)[k + i];
    }
  }

  /** Two 2-dimensional samples named "Test Dataset" get two feature names;
      a missing label is a length mismatch. */
  lemma NewExample()
    ensures var r := New([Vector([1.0, 2.0]), Vector([3.0, 4.0])], [ScalarLabel(0.0), ScalarLabel(1.0)],
                         "Test Dataset");
            r.Ok? && r.value.name == "Test Dataset" && |r.value.featureNames| == 2
    ensures New([Vector([1.0, 2.0]), Vector([3.0, 4.0])], [ScalarLabel(0.0)]).Err?
  {
  }

  /** ds[1] of a two-sample dataset is its second feature vector and label. */
  lemma GetExample()
    ensures var ds := New([Vector([1.0, 2.0]), Vector([3.0, 4.0])], [ScalarLabel(0.0), ScalarLabel(1.0)]).value;
            Get(ds, 1) == Ok((Vector([3.0, 4.0]), ScalarLabel(1.0)))
  {
  }

  /** Four samples named "Test Dataset" split at 0.75 give three training
      samples and one test sample with the suffixed names; the default ratio
      0.8 also keeps three; a ratio of 1.5 is rejected. */
  lemma SplitExample()
    ensures var ds := New([Vector([1.0, 2.0]), Vector([3.0, 4.0]), Vector([5.0, 6.0]), Vector([7.0, 8.0])],
                          [ScalarLabel(0.0), ScalarLabel(1.0), ScalarLabel(0.0), ScalarLabel(1.0)],
                          "Test Dataset").value;
            var r := Split(ds, 0.75);
            && r.Ok?
            && Len(r.value.0) == 3 && Len(r.value.1) == 1
            && r.value.0.name == "Test Dataset_train" && r.value.1.name == "Test Dataset_test"
            && Len(Split(ds).value.0) == 3
            && Split(ds, 1.5) == Err(RatioOutOfRange)
  {
    var ds := New([Vector([1.0, 2.0]), Vector([3.0, 4.0]), Vector([5.0, 6.0]), Vector([7.0, 8.0])],
                  [ScalarLabel(0.0), ScalarLabel(1.0), ScalarLabel(0.0), ScalarLabel(1.0)],
                  "Test Dataset").value;
    var r := Split(ds, 0.75);
    assert Len(r.value.0) == 3 by {
      assert SplitIndex(4, 0.75) == 3;
    }
    assert Len(r.value.1) == 1 by {
      assert |r.value.0.features + r.value.1.features| == 4;
    }
    assert Len(Split(ds).value.0) == 3 by {
      assert SplitIndex(4, 0.8) == 3;
    }
  }

  /** A parent whose first vector is empty gets no default names, but its
      test half, rebuilt by the constructor, names the features of its own
      first vector. */
  lemma SplitRegeneratesNamesExample()
    ensures var ds := New([Vector([]), Vector([1.0])], [ScalarLabel(0.0), ScalarLabel(1.0)], "d").value;
            && ds.featureNames == []
            && Split(ds, 0.5).value.1.featureNames == DefaultFeatureNames(1)
  {
    var ds := New([Vector([]), Vector([1.0])], [ScalarLabel(0.0), ScalarLabel(1.0)], "d").value;
    assert SplitIndex(2, 0.5) == 1;
  }
}
