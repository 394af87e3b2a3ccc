/** Finite sets of keys in their order, as an ordered map iterates them. */
module Keys {
  function Least(keys: set<nat>): (m: nat)
    requires keys != {}
    ensures m in keys && forall x :: x in keys ==> m <= x
  {
    LeastExists(keys);
    var m :| m in keys && forall x :: x in keys ==> m <= x;
    m
  }

  /** The keys of a std::map in iteration order. */
  function Ascending(keys: set<nat>): seq<nat>
    decreases |keys|
  {
    if keys == {} then []
    else
      Smaller(keys, Least(keys));
      [Least(keys)] + Ascending(keys - {Least(keys)})
  }

  lemma Smaller<T>(s: set<T>, x: T)
    requires x in s
    ensures |s - {x}| == |s| - 1
  {
    assert s == s - {x} + {x};
  }

  lemma {:induction false} AscendingProperties(keys: set<nat>)
    ensures |Ascending(keys)| == |keys|
    ensures forall x :: x in Ascending(keys) <==> x in keys
    ensures forall i, j :: 0 <= i < j < |Ascending(keys)| ==> Ascending(keys)[i] < Ascending(keys)[j]
    decreases |keys|
  {
    hide *;
    AscendingStep(keys);
    if keys != {} {
      var m := Least(keys);
      Smaller(keys, m);
      AscendingProperties(keys - {m});
      LeastFirst(keys, m, Ascending(keys - {m}));
    }
  }

  lemma AscendingStep(keys: set<nat>)
    ensures Ascending(keys) == if keys == {} then [] else [Least(keys)] + Ascending(keys - {Least(keys)})
  {
  }

  lemma LeastFirst(keys: set<nat>, m: nat, rest: seq<nat>)
    requires m in keys && forall x :: x in keys ==> m <= x
    requires forall x :: x in rest <==> x in keys - {m}
    requires forall i, j :: 0 <= i < j < |rest| ==> rest[i] < rest[j]
    ensures var s := [m] + rest;
            && (forall x :: x in s <==> x in keys) && forall i, j :: 0 <= i < j < |s| ==> s[i] < s[j]
  {
    forall j | 0 <= j < |rest| ensures m < rest[j] {
      assert rest[j] in rest;
    }
  }

  lemma {:induction false} LeastBelow(keys: set<nat>, y: nat)
    requires y in keys
    ensures exists m :: m in keys && forall x :: x in keys ==> m <= x
    decreases y
  {
    if z :| z in keys && z < y {
      LeastBelow(keys, z);
    }
  }

  lemma LeastExists(keys: set<nat>)
    requires keys != {}
    ensures exists m :: m in keys && forall x :: x in keys ==> m <= x
  {
    var y := Pick(keys);
    LeastBelow(keys, y);
  }

  lemma Pick<T>(s: set<T>) returns (x: T)
    requires s != {}
    ensures x in s
  {
    x :| x in s;
  }
}
