/** The list operations the handlers perform on the expense records: finding the
    first record with an id (`Array.prototype.find`) and dropping every record with
    an id (`Array.prototype.filter`). */
module ExpenseList {
  import opened Wrappers
  import opened BudgetModel

  /** The ids in use. */
  function Ids(es: seq<Expense>): set<string> {
    set e | e in es :: e.id
  }

  /** No two records share an id. */
  predicate UniqueIds(es: seq<Expense>) {
    forall i, j :: 0 <= i < j < |es| ==> es[i].id != es[j].id
  }

  /** Position of the first record whose id is `id`, or None when there is none. */
  function FindIndex(es: seq<Expense>, id: string): (k: Option<nat>)
    ensures k.None? <==> id !in Ids(es)
    ensures k.Some? ==> k.value < |es| && es[k.value].id == id
    ensures k.Some? ==> forall j :: 0 <= j < k.value ==> es[j].id != id
  {
    if es == [] then None
    else if es[0].id == id then Some(0)
    else
      match FindIndex(es[1..], id)
      case None =>
        assert forall e :: e in es ==> e == es[0] || e in es[1..];
        None
      case Some(k) => Some(k + 1)
  }

  /** The records whose id differs from `id`, in their original order. */
  function Without(es: seq<Expense>, id: string): (r: seq<Expense>)
    ensures forall e :: e in r <==> e in es && e.id != id
    ensures id !in Ids(r)
    ensures |r| <= |es|
  {
    if es == [] then []
    else (if es[0].id == id then [] else [es[0]]) + Without(es[1..], id)
  }

  /** Filtering distributes over concatenation: the surviving records of each part
      stay in place relative to each other. */
  lemma {:induction false} WithoutAppend(a: seq<Expense>, b: seq<Expense>, id: string)
    ensures Without(a + b, id) == Without(a, id) + Without(b, id)
  {
    if a == [] {
      assert a + b == b;
    } else {
      assert (a + b)[1..] == a[1..] + b;
      WithoutAppend(a[1..], b, id);
    }
  }

  /** Removing an id nobody has leaves the list as it was. */
  lemma {:induction false} WithoutAbsent(es: seq<Expense>, id: string)
    requires id !in Ids(es)
    ensures Without(es, id) == es
  {
    if es != [] {
      assert es[0] in es;
      assert Ids(es[1..]) <= Ids(es);
      WithoutAbsent(es[1..], id);
      assert [es[0]] + es[1..] == es;
    }
  }

  /** When ids are unique and `id` sits at position `k`, removal cuts out exactly that
      record and keeps the rest in order. */
  lemma {:induction false} WithoutUnique(es: seq<Expense>, id: string, k: nat)
    requires UniqueIds(es)
    requires k < |es| && es[k].id == id
    ensures Without(es, id) == es[..k] + es[k + 1..]
  {
    var pre, post := es[..k], es[k + 1..];
    assert es == pre + ([es[k]] + post);
    UniqueAround(es, k);
    calc {
      Without(es, id);
      { WithoutAppend(pre, [es[k]] + post, id); }
      Without(pre, id) + Without([es[k]] + post, id);
      { WithoutAppend([es[k]], post, id); }
      Without(pre, id) + (Without([es[k]], id) + Without(post, id));
      { WithoutAbsent(pre, id); WithoutAbsent(post, id); assert [es[k]][1..] == []; }
      pre + ([] + post);
      { assert [] + post == post; }
      pre + post;
    }
  }

  /** With unique ids, the id at `k` occurs neither before nor after position `k`. */
  lemma {:induction false} UniqueAround(es: seq<Expense>, k: nat)
    requires UniqueIds(es)
    requires k < |es|
    ensures es[k].id !in Ids(es[..k])
    ensures es[k].id !in Ids(es[k + 1..])
  {
    forall e | e in es[..k] ensures e.id != es[k].id {
      var i :| 0 <= i < k && es[..k][i] == e;
      assert es[i] == e;
    }
    forall e | e in es[k + 1..] ensures e.id != es[k].id {
      var i :| 0 <= i < |es| - k - 1 && es[k + 1..][i] == e;
      assert es[k + 1 + i] == e;
    }
  }

  /** A subsequence-by-filtering of a list with unique ids has unique ids. */
  lemma {:induction false} WithoutKeepsUnique(es: seq<Expense>, id: string)
    requires UniqueIds(es)
    ensures UniqueIds(Without(es, id))
  {
    if es != [] {
      WithoutKeepsUnique(es[1..], id);
      var rest := Without(es[1..], id);
      assert forall e :: e in rest ==> e in es[1..];
      assert forall e :: e in es[1..] ==> e.id != es[0].id;
    }
  }
}
