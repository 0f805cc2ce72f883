/** The array operations the inventory relies on (`filter`, `findIndex`, `some`),
    as functions on sequences, with the order and identity facts the store needs. */
module Listas {

  /** `r` can be obtained from `s` by deleting elements, keeping the order of the rest. */
  ghost predicate Subsequencia<T>(r: seq<T>, s: seq<T>)
    decreases |s|
  {
    if r == [] then true
    else if s == [] then false
    else (r[0] == s[0] && Subsequencia(r[1..], s[1..])) || Subsequencia(r, s[1..])
  }

  /** `Array.prototype.filter`: the elements of `s` that satisfy `p`, in their order,
      each as many times as it occurs in `s`. */
  function Filtrar<T(!new)>(s: seq<T>, p: T -> bool): (r: seq<T>)
    ensures forall x :: x in r <==> x in s && p(x)
    ensures Subsequencia(r, s)
    decreases |s|
  {
    if s == [] then []
    else
      var resto := Filtrar(s[1..], p);
      if p(s[0]) then [s[0]] + resto else resto
  }

  /** A kept element occurs in the result as many times as in `s`. */
  lemma {:induction false} FiltrarMultiplicidade<T(!new)>(s: seq<T>, p: T -> bool)
    ensures forall x :: multiset(Filtrar(s, p))[x] == if p(x) then multiset(s)[x] else 0
    decreases |s|
  {
    if s != [] {
      FiltrarMultiplicidade(s[1..], p);
      assert s == [s[0]] + s[1..];
    }
  }

  /** `Array.prototype.findIndex`: the first index whose element satisfies `p`, or -1. */
  function PrimeiroIndice<T>(s: seq<T>, p: T -> bool): (r: int)
    ensures -1 <= r < |s|
    ensures r == -1 <==> forall i :: 0 <= i < |s| ==> !p(s[i])
    ensures 0 <= r ==> p(s[r]) && forall i :: 0 <= i < r ==> !p(s[i])
    decreases |s|
  {
    if s == [] then -1
    else if p(s[0]) then 0
    else
      var k := PrimeiroIndice(s[1..], p);
      if k == -1 then -1 else k + 1
  }

  /** `Array.prototype.some`. */
  function Algum<T(!new)>(s: seq<T>, p: T -> bool): (r: bool)
    ensures r <==> exists x :: x in s && p(x)
  {
    PrimeiroIndice(s, p) != -1
  }

  /** Filtering with a predicate every element satisfies gives the sequence back. */
  lemma {:induction false} FiltrarTodos<T(!new)>(s: seq<T>, p: T -> bool)
    requires forall x :: x in s ==> p(x)
    ensures Filtrar(s, p) == s
    decreases |s|
  {
    if s != [] {
      FiltrarTodos(s[1..], p);
    }
  }

  /** Filtering depends only on what the predicate says about the elements present. */
  lemma {:induction false} FiltrarExtensional<T(!new)>(s: seq<T>, p: T -> bool, q: T -> bool)
    requires forall x :: x in s ==> p(x) == q(x)
    ensures Filtrar(s, p) == Filtrar(s, q)
    decreases |s|
  {
    if s != [] {
      FiltrarExtensional(s[1..], p, q);
    }
  }

  /** The identifiers of `s`, read through `id`, strictly increase along the sequence. */
  ghost predicate IdsCrescentes<T>(s: seq<T>, id: T -> int) {
    forall i, j :: 0 <= i < j < |s| ==> id(s[i]) < id(s[j])
  }

  /** The identifiers that occur in `s`. */
  ghost function Ids<T>(s: seq<T>, id: T -> int): set<int> {
    set x | x in s :: id(x)
  }

  /** Keeps the elements whose identifier is not `k`. */
  function IdDiferente<T>(id: T -> int, k: int): T -> bool {
    x => id(x) != k
  }

  /** Keeps the elements whose identifier is `k`. */
  function IdIgual<T>(id: T -> int, k: int): T -> bool {
    x => id(x) == k
  }

  /** Filtering keeps identifiers strictly increasing. */
  lemma {:induction false} FiltrarPreservaIdsCrescentes<T(!new)>(s: seq<T>, p: T -> bool, id: T -> int)
    requires IdsCrescentes(s, id)
    ensures IdsCrescentes(Filtrar(s, p), id)
    decreases |s|
  {
    if s != [] {
      FiltrarPreservaIdsCrescentes(s[1..], p, id);
      var resto := Filtrar(s[1..], p);
      forall x | x in resto
        ensures id(s[0]) < id(x)
      {
        var k :| 0 <= k < |s[1..]| && s[1..][k] == x;
        assert s[k + 1] == x;
      }
      if p(s[0]) {
        var r := [s[0]] + resto;
        forall i, j | 0 <= i < j < |r|
          ensures id(r[i]) < id(r[j])
        {
          assert r[j] == resto[j - 1];
          if i > 0 {
            assert r[i] == resto[i - 1];
          }
        }
      }
    }
  }

  /** With strictly increasing identifiers, removing an identifier that occurs
      removes exactly one element. */
  lemma {:induction false} RemoverIdPresenteRemoveUm<T(!new)>(s: seq<T>, id: T -> int, k: int)
    requires IdsCrescentes(s, id)
    requires exists x :: x in s && id(x) == k
    ensures |Filtrar(s, IdDiferente(id, k))| == |s| - 1
    decreases |s|
  {
    var p := IdDiferente(id, k);
    if id(s[0]) == k {
      forall x | x in s[1..]
        ensures p(x)
      {
        var j :| 0 <= j < |s[1..]| && s[1..][j] == x;
        assert s[j + 1] == x;
      }
      FiltrarTodos(s[1..], p);
    } else {
      var x :| x in s && id(x) == k;
      assert x in s[1..] by {
        assert s == [s[0]] + s[1..];
      }
      RemoverIdPresenteRemoveUm(s[1..], id, k);
    }
  }

  /** Replacing an element by one with the same identifier keeps the identifiers
      increasing and brings in no element but the new one. */
  lemma SubstituirMesmoId<T(!new)>(s: seq<T>, i: nat, x: T, id: T -> int)
    requires i < |s| && id(x) == id(s[i])
    requires IdsCrescentes(s, id)
    ensures IdsCrescentes(s[i := x], id)
    ensures forall y :: y in s[i := x] ==> y == x || y in s
    ensures Ids(s[i := x], id) == Ids(s, id)
  {
    assert s[i] in s && s[i := x][i] == x;
    assert forall j :: 0 <= j < |s| ==> id(s[i := x][j]) == id(s[j]);
  }

  /** Removing an identifier that does not occur changes nothing. */
  lemma RemoverIdAusenteNadaMuda<T(!new)>(s: seq<T>, id: T -> int, k: int)
    requires forall x :: x in s ==> id(x) != k
    ensures Filtrar(s, IdDiferente(id, k)) == s
  {
    FiltrarTodos(s, IdDiferente(id, k));
  }
}
