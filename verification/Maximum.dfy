/** The index of the first greatest value. */
module Maximum {

  ghost predicate IsArgmax(values: seq<real>, best: nat) {
    if values == [] then best == 0
    else
      && best < |values|
      && (forall j :: 0 <= j < |values| ==> values[j] <= values[best])
      && (forall j :: 0 <= j < best ==> values[j] < values[best])
  }

  lemma ArgmaxIsUnique(values: seq<real>, a: nat, b: nat)
    requires IsArgmax(values, a) && IsArgmax(values, b)
    ensures a == b
  {
    if values != [] {
      assert values[a] <= values[b] && values[b] <= values[a];
    }
  }

  function FirstMax(values: seq<real>): (best: nat)
    ensures IsArgmax(values, best)
  {
    if |values| <= 1 then 0
    else
      var last := |values| - 1;
      var best := FirstMax(values[..last]);
      assert forall j :: 0 <= j < last ==> values[..last][j] == values[j];
      if values[last] > values[best] then last else best
  }

  /** The loop: a later value wins only if it is strictly greater. */
  method Argmax(values: seq<real>) returns (best: nat)
    ensures best == FirstMax(values)
  {
    best := 0;
    var bestValue := 0.0;
    for i := 0 to |values|
      invariant i == 0 ==> best == 0
      invariant i > 0 ==> best < i && bestValue == values[best] && IsArgmax(values[..i], best)
    {
      if i == 0 || values[i] > bestValue {
        bestValue := values[i];
        best := i;
      }
      assert forall j :: 0 <= j <= i ==> values[..i + 1][j] == values[j];
    }
    assert values[..|values|] == values;
    ArgmaxIsUnique(values, best, FirstMax(values));
  }
}
