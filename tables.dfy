/** The table of categorical columns with their options and weights, and
    the weighted choice that draws an option from such a table. */
module Tables {

  /** The categorical columns: attributes drawn per row from a fixed
      weighted table, with no scenario logic of their own except that a
      scenario may set `TransactionType` first. */
  datatype CatColumn = Gender | AccountType | TransactionType | Device | ReceiverAccType | DeviceOs

  /** The order in which the fill visits the table. */
  const CatOrder: seq<CatColumn> := [Gender, AccountType, TransactionType, Device, ReceiverAccType, DeviceOs]

  /** The values a categorical column can take. */
  function Options(c: CatColumn): seq<string>
  {
    match c
    case Gender => ["m", "f"]
    case AccountType => ["corrente", "poupanca", "salario", "pagamento"]
    case TransactionType => ["pix", "ted", "boleto"]
    case Device => ["cellphone", "desktop"]
    case ReceiverAccType => ["corrente", "poupanca", "salario", "pagamento"]
    case DeviceOs => ["myos", "bot", "bluescreen", "cheeseos", "penguin"]
  }

  /** The relative weight of each of those values, in the same order. */
  function Weights(c: CatColumn): seq<real>
  {
    match c
    case Gender => [0.5, 0.5]
    case AccountType => [0.4, 0.2, 0.2, 0.2]
    case TransactionType => [0.7, 0.1, 0.2]
    case Device => [0.8, 0.2]
    case ReceiverAccType => [0.4, 0.2, 0.2, 0.2]
    case DeviceOs => [0.2, 0.5, 0.1, 0.1, 0.1]
  }

  function Sum(w: seq<real>): real
    decreases |w|
  {
    if w == [] then 0.0 else w[0] + Sum(w[1..])
  }

  /** Peeling the first weight off a prefix sum. */
  lemma {:induction false} SumPrefixShift(w: seq<real>)
    ensures forall k :: 0 < k <= |w| ==> Sum(w[..k]) == w[0] + Sum(w[1..][..k - 1])
  {
    forall k | 0 < k <= |w|
      ensures Sum(w[..k]) == w[0] + Sum(w[1..][..k - 1])
    {
      assert w[..k][1..] == w[1..][..k - 1];
    }
  }

  /** The index a cumulative-weight bisection picks for the point `x`: the
      first index whose cumulative weight exceeds `x`. */
  function WeightedChoice(w: seq<real>, x: real): (k: nat)
    requires 0.0 <= x < Sum(w)
    ensures k < |w|
    ensures Sum(w[..k]) <= x < Sum(w[..k + 1])
    ensures forall j :: 0 < j <= k ==> Sum(w[..j]) <= x
    decreases |w|
  {
    SumPrefixShift(w);
    if x < w[0] then
      0
    else
      var k := WeightedChoice(w[1..], x - w[0]);
      1 + k
  }

  lemma ScaleBelow(u: real, s: real)
    requires 0.0 <= u < 1.0 && s > 0.0
    ensures 0.0 <= u * s < s
  {
    assert s - u * s == (1.0 - u) * s;
  }

  /** A weighted choice driven by a uniform draw `u` in [0, 1), scaled by the
      total weight as a cumulative-weight choice does. */
  function Choose(w: seq<real>, u: real): (k: nat)
    requires 0.0 <= u < 1.0 && Sum(w) > 0.0
    ensures k < |w|
    ensures Sum(w[..k]) <= u * Sum(w) < Sum(w[..k + 1])
  {
    ScaleBelow(u, Sum(w));
    WeightedChoice(w, u * Sum(w))
  }

  /** Options and weights line up, and the weights are positive and add up to one. */
  ghost predicate WellFormedColumn(c: CatColumn)
  {
    && |Options(c)| == |Weights(c)| > 0
    && Sum(Weights(c)) == 1.0
    && forall k :: 0 <= k < |Weights(c)| ==> Weights(c)[k] > 0.0
  }

  /** Every column of the categorical table is well formed. */
  lemma ColumnWellFormed(c: CatColumn)
    ensures WellFormedColumn(c)
  {
    var w := Weights(c);
    assert Sum(w[|w| - 1..]) == w[|w| - 1];
    match c
    case Gender =>
      assert w[1..] == [0.5];
    case AccountType =>
      assert w[3..] == [0.2] && w[2..] == [0.2, 0.2] && w[1..] == [0.2, 0.2, 0.2];
    case TransactionType =>
      assert w[2..] == [0.2] && w[1..] == [0.1, 0.2];
    case Device =>
      assert w[1..] == [0.2];
    case ReceiverAccType =>
      assert w[3..] == [0.2] && w[2..] == [0.2, 0.2] && w[1..] == [0.2, 0.2, 0.2];
    case DeviceOs =>
      assert w[4..] == [0.1] && w[3..] == [0.1, 0.1] && w[2..] == [0.1, 0.1, 0.1];
      assert w[1..] == [0.5, 0.1, 0.1, 0.1];
  }

  /** The fill order visits every column exactly once. */
  lemma CatOrderCovers()
    ensures forall j, k :: 0 <= j < k < |CatOrder| ==> CatOrder[j] != CatOrder[k]
    ensures forall c :: c in CatOrder
  {
    forall c ensures c in CatOrder {
      assert CatOrder[CatIndex(c)] == c;
    }
  }

  /** The position of a column in the fill order. */
  function CatIndex(c: CatColumn): (j: nat)
    ensures j < |CatOrder| && CatOrder[j] == c
  {
    match c
    case Gender => 0
    case AccountType => 1
    case TransactionType => 2
    case Device => 3
    case ReceiverAccType => 4
    case DeviceOs => 5
  }

  /** The option column `c` takes for the uniform draw `u`: the one whose
      stretch of cumulative weight contains `u`. */
  function CatOption(c: CatColumn, u: real): (o: string)
    requires 0.0 <= u < 1.0
    ensures o in Options(c)
    ensures exists k :: 0 <= k < |Options(c)| && o == Options(c)[k] &&
                        Sum(Weights(c)[..k]) <= u < Sum(Weights(c)[..k + 1])
  {
    ColumnWellFormed(c);
    var w := Weights(c);
    assert u * Sum(w) == u;
    var k := Choose(w, u);
    Options(c)[k]
  }
}
