/** Small vocabulary shared by every component: optional values and greatest elements. */
module Common {

  datatype Option<+T> = None | Some(value: T)

  lemma MaxExists(s: set<nat>)
    requires s != {}
    ensures exists k :: k in s && forall j :: j in s ==> j <= k
  {
    var x :| x in s;
    var rest := s - {x};
    if rest == {} {
      assert s == {x};
    } else {
      MaxExists(rest);
      var y :| y in rest && forall j :: j in rest ==> j <= y;
      var k := if x <= y then y else x;
      forall j | j in s ensures j <= k {
        assert j == x || j in rest;
      }
    }
  }

  lemma {:induction false} SubsetSize<T>(a: set<T>, b: set<T>)
    requires a <= b
    ensures |a| <= |b|
  {
    if a != {} {
      var x :| x in a;
      SubsetSize(a - {x}, b - {x});
    }
  }

  /** Greatest element, 0 for the empty set: `max(...) or 0`. */
  ghost function MaxOf(s: set<nat>): (k: nat)
    ensures forall j :: j in s ==> j <= k
    ensures s == {} <==> k !in s
    ensures k !in s ==> k == 0
  {
    if s == {} then 0
    else
      MaxExists(s);
      var k :| k in s && forall j :: j in s ==> j <= k;
      k
  }

  lemma MaxIs(s: set<nat>, k: nat)
    requires k in s && forall j :: j in s ==> j <= k
    ensures MaxOf(s) == k
  {
    assert MaxOf(s) in s;
  }

  /** Largest key of a numbered table: `order by ... desc limit 1`, with `or 0`. */
  ghost function MaxKey<V>(m: map<nat, V>): (k: nat)
    ensures forall j :: j in m ==> j <= k
    ensures m == map[] <==> k !in m
    ensures k !in m ==> k == 0
  {
    MaxOf(m.Keys)
  }

  lemma MaxKeyIs<V>(m: map<nat, V>, k: nat)
    requires k in m && forall j :: j in m ==> j <= k
    ensures MaxKey(m) == k
  {
    MaxIs(m.Keys, k);
  }

  /** Reads the latest row number the way the query does. */
  method Latest(numbers: set<nat>) returns (k: nat)
    ensures k == MaxOf(numbers)
  {
    k := 0;
    var left := numbers;
    while left != {}
      invariant left <= numbers
      invariant forall i :: i in numbers && i !in left ==> i <= k
      invariant (k == 0 && left == numbers) || k in numbers
    {
      var j :| j in left;
      if j > k { k := j; }
      left := left - {j};
    }
  }
}
