/** The disjoint setting of the experiment script: the 1100 training classes
    are cut into `meta_batch_size` contiguous blocks of
    `unit = int(1100 / meta_batch_size)` labels, client i owning
    `[unit*i, unit*(i+1))`; the labels past `clients*unit` are dropped. */
module Partition {
  import opened Wrappers

  /** `train_class`, the number of training classes the script assumes. */
  const TRAIN_CLASS: nat := 1100

  /** `list(range(unit*i, unit*(i+1)))` */
  function ClientLabels(unit: nat, i: nat): (labels: seq<int>)
    ensures |labels| == unit
  {
    seq(unit, j => unit * i + j)
  }

  /** `int(train_class / client_number)`: for a positive client count the
      truncated float quotient is the floor of the exact one. */
  function Unit(clients: nat): (unit: nat)
    requires clients > 0
    ensures unit <= TRAIN_CLASS
    ensures clients <= TRAIN_CLASS ==> unit > 0
  {
    TRAIN_CLASS / clients
  }

  /** What the partition loop leaves in `disjoint_setting`, or Python's
      ZeroDivisionError when there are no clients. */
  function PartitionOf(clients: nat): (r: Result<seq<seq<int>>>)
    ensures r.Err? <==> clients == 0
    ensures r.Err? ==> r.error == DivisionByZero
    ensures r.Ok? ==> |r.value| == clients
  {
    if clients == 0 then Err(DivisionByZero)
    else Ok(seq(clients, i requires 0 <= i => ClientLabels(Unit(clients), i)))
  }

  /** test_refact.py lines 94-99: append one label list per client. */
  method DisjointSetting(clientNumber: nat) returns (r: Result<seq<seq<int>>>)
    ensures r == PartitionOf(clientNumber)
  {
    if clientNumber == 0 {
      return Err(DivisionByZero);
    }
    var unit := TRAIN_CLASS / clientNumber;
    var setting: seq<seq<int>> := [];
    for i := 0 to clientNumber
      invariant |setting| == i
      invariant forall k :: 0 <= k < i ==> setting[k] == ClientLabels(unit, k)
    {
      var tmp := ClientLabels(unit, i);
      setting := setting + [tmp];
    }
    var expected := PartitionOf(clientNumber).value;
    assert |expected| == |setting|;
    assert forall k :: 0 <= k < clientNumber ==> expected[k] == setting[k];
    assert expected == setting;
    return Ok(setting);
  }

  /** A label belongs to client i exactly when it lies in `[unit*i, unit*(i+1))`. */
  lemma Membership(unit: nat, i: nat, x: int)
    ensures x in ClientLabels(unit, i) <==> unit * i <= x < unit * i + unit
  {
    if unit * i <= x < unit * i + unit {
      assert ClientLabels(unit, i)[x - unit * i] == x;
    }
  }

  lemma MulMonotone(unit: nat, a: nat, b: nat)
    requires a <= b
    ensures unit * a <= unit * b
  {
    assert unit * b == unit * a + unit * (b - a);
  }

  /** Two different clients share no label. */
  lemma ClientsDisjoint(unit: nat, i: nat, j: nat, x: int)
    requires i != j
    ensures !(x in ClientLabels(unit, i) && x in ClientLabels(unit, j))
  {
    Membership(unit, i, x);
    Membership(unit, j, x);
    if i < j {
      MulMonotone(unit, i + 1, j);
    } else {
      MulMonotone(unit, j + 1, i);
    }
  }

  /** The labels of client i lie below `clients*unit` when i < clients. */
  lemma ClientBelow(unit: nat, clients: nat, i: nat, x: int)
    requires i < clients
    ensures x in ClientLabels(unit, i) ==> 0 <= x < clients * unit
  {
    Membership(unit, i, x);
    MulMonotone(unit, i + 1, clients);
  }

  /** A label below `clients*unit` belongs to client `label / unit`. */
  lemma ClientOf(unit: nat, clients: nat, x: int)
    requires 0 <= x < clients * unit
    ensures unit > 0 && x / unit < clients && x in ClientLabels(unit, x / unit)
  {
    assert unit > 0;
    var i := x / unit;
    assert unit * i <= x < unit * i + unit;
    if i >= clients {
      MulMonotone(unit, clients, i);
    }
    Membership(unit, i, x);
  }

  /** Facts valid for every client count: the exact quotient bound. */
  lemma UnitBound(clients: nat)
    requires clients > 0
    ensures clients * Unit(clients) <= TRAIN_CLASS
    ensures TRAIN_CLASS - clients * Unit(clients) < clients
  {
  }

  /** There are `clients` label lists of `unit` labels each, and the
      `clients*unit` labels they can hold fit in the 1100 classes with fewer
      than `clients` classes to spare. */
  lemma PartitionShape(clients: nat)
    requires clients > 0
    ensures PartitionOf(clients).Ok?
    ensures var p := PartitionOf(clients).value;
      var unit := TRAIN_CLASS / clients;
      && |p| == clients
      && clients * unit <= TRAIN_CLASS < clients * unit + clients
      && (forall i :: 0 <= i < clients ==> |p[i]| == unit)
  {
    UnitBound(clients);
  }

  /** The clients are pairwise disjoint. */
  lemma PartitionDisjoint(clients: nat)
    requires clients > 0
    ensures PartitionOf(clients).Ok?
    ensures var p := PartitionOf(clients).value;
      forall i, j, x :: 0 <= i < j < clients && x in p[i] ==> x !in p[j]
  {
    var p := PartitionOf(clients).value;
    forall i, j, x | 0 <= i < j < clients && x in p[i]
      ensures x !in p[j]
    {
      ClientsDisjoint(Unit(clients), i, j, x);
    }
  }

  /** Every label of every client lies in `[0, clients*unit)`, so below 1100,
      and the classes from `clients*unit` to 1099 belong to no client. */
  lemma PartitionBounds(clients: nat)
    requires clients > 0
    ensures PartitionOf(clients).Ok?
    ensures var p := PartitionOf(clients).value;
      var unit := TRAIN_CLASS / clients;
      && (forall i, x :: 0 <= i < clients && x in p[i] ==> 0 <= x < clients * unit <= TRAIN_CLASS)
      && (forall i, x :: 0 <= i < clients && clients * unit <= x < TRAIN_CLASS ==> x !in p[i])
  {
    var p := PartitionOf(clients).value;
    var unit := Unit(clients);
    UnitBound(clients);
    forall i, x | 0 <= i < clients
      ensures x in p[i] ==> 0 <= x < clients * unit
    {
      ClientBelow(unit, clients, i, x);
    }
  }

  /** Every class below `clients*unit` belongs to client `class / unit`. */
  lemma PartitionCovers(clients: nat)
    requires clients > 0
    ensures PartitionOf(clients).Ok?
    ensures var p := PartitionOf(clients).value;
      var unit := TRAIN_CLASS / clients;
      forall x :: 0 <= x < clients * unit ==> unit > 0 && 0 <= x / unit < clients == |p| && x in p[x / unit]
  {
    var p := PartitionOf(clients).value;
    var unit := TRAIN_CLASS / clients;
    assert forall i :: 0 <= i < clients ==> p[i] == ClientLabels(unit, i);
    CoversWith(p, unit, clients);
  }

  /** Blocks of `unit` labels, one per client, cover every class below `clients*unit`. */
  lemma CoversWith(p: seq<seq<int>>, unit: nat, clients: nat)
    requires |p| == clients && forall i :: 0 <= i < clients ==> p[i] == ClientLabels(unit, i)
    ensures forall x :: 0 <= x < clients * unit ==> unit > 0 && 0 <= x / unit < clients == |p| && x in p[x / unit]
  {
    forall x | 0 <= x < clients * unit
      ensures unit > 0 && 0 <= x / unit < clients == |p| && x in p[x / unit]
    {
      ClientOf(unit, clients, x);
    }
  }

  /** Twenty clients own 55 labels each and together cover all 1100 classes. */
  lemma TwentyClients()
    ensures PartitionOf(20).Ok? && |PartitionOf(20).value| == 20
    ensures forall i :: 0 <= i < 20 ==> PartitionOf(20).value[i] == seq(55, j => 55 * i + j)
    ensures forall x :: 0 <= x < TRAIN_CLASS ==> x in PartitionOf(20).value[x / 55]
  {
    PartitionShape(20);
    PartitionCovers(20);
  }

  /** Seven clients own 157 labels each; class 1099 belongs to none of them. */
  lemma SevenClients()
    ensures PartitionOf(7).Ok? && |PartitionOf(7).value| == 7
    ensures forall i :: 0 <= i < 7 ==> |PartitionOf(7).value[i]| == 157
    ensures forall x :: 0 <= x < 1099 ==> x in PartitionOf(7).value[x / 157]
    ensures forall i :: 0 <= i < 7 ==> 1099 !in PartitionOf(7).value[i]
  {
    PartitionShape(7);
    PartitionCovers(7);
    PartitionBounds(7);
  }
}
