/** Small shared vocabulary: optional values, outcomes, totals over finite maps. */
module Common {
  datatype Option<+T> = None | Some(value: T)

  datatype Result<+T, +E> = Ok(value: T) | Err(error: E)

  // Times and durations are whole seconds.
  type Time = int

  const MINUTE: int := 60
  const HOUR: int := 60 * MINUTE
  const DAY: int := 24 * HOUR

  // How far the fixed zone of dates is ahead of UTC.
  const ZONE: int := 8 * HOUR

  predicate IsSpace(c: char) {
    c == ' ' || '\t' <= c <= '\r'
  }

  // True of texts that trimming leaves empty.
  predicate Blank(s: string) {
    forall c :: c in s ==> IsSpace(c)
  }

  predicate Distinct<T(==)>(s: seq<T>) {
    forall i, j :: 0 <= i < j < |s| ==> s[i] != s[j]
  }

  lemma {:induction false} SmallerSet<T>(a: set<T>, b: set<T>)
    requires a <= b
    ensures |a| <= |b|
  {
    if a != {} {
      var x :| x in a;
      SmallerSet(a - {x}, b - {x});
    }
  }

  // The sum of all values of a finite map.
  ghost function Total<K>(m: map<K, nat>): nat {
    if m == map[] then 0
    else
      var k :| k in m;
      m[k] + Total(m - {k})
  }

  // The total does not depend on which key is taken out first.
  lemma {:induction false} TotalWithout<K>(m: map<K, nat>, k: K)
    requires k in m
    ensures Total(m) == m[k] + Total(m - {k})
    decreases |m|
  {
    var first :| first in m && Total(m) == m[first] + Total(m - {first});
    if first != k {
      TotalWithout(m - {first}, k);
      TotalWithout(m - {k}, first);
      assert m - {first} - {k} == m - {k} - {first};
    }
  }

  lemma TotalWith<K>(m: map<K, nat>, k: K, v: nat)
    requires k !in m
    ensures Total(m[k := v]) == Total(m) + v
  {
    var m' := m[k := v];
    TotalWithout(m', k);
    assert m' - {k} == m;
  }

  // Pointwise smaller values on a smaller domain give a smaller total.
  lemma {:induction false} TotalMonotone<K>(a: map<K, nat>, b: map<K, nat>)
    requires forall k :: k in a ==> k in b && a[k] <= b[k]
    ensures Total(a) <= Total(b)
    decreases |a|
  {
    if a != map[] {
      var k :| k in a;
      TotalWithout(a, k);
      TotalWithout(b, k);
      TotalMonotone(a - {k}, b - {k});
    }
  }

  // The part of a map whose keys belong to one owner.
  ghost function OwnedBy<K, O>(m: map<K, nat>, owner: K -> O, o: O): (part: map<K, nat>) {
    map k | k in m && owner(k) == o :: m[k]
  }

  lemma {:induction false} TotalSplit<K>(m: map<K, nat>, keys: set<K>)
    requires keys <= m.Keys
    ensures Total(m) == Total(m - (m.Keys - keys)) + Total(m - keys)
    decreases |keys|
  {
    if keys == {} {
      assert m - keys == m;
      assert m - (m.Keys - keys) == map[];
    } else {
      var k :| k in keys;
      var a := m - (m.Keys - keys);
      TotalWithout(m, k);
      TotalWithout(a, k);
      var m', keys' := m - {k}, keys - {k};
      TotalSplit(m', keys');
      assert m' - (m'.Keys - keys') == a - {k};
      assert m' - keys' == m - keys;
    }
  }

  // Values grouped by an owner, each group within its owner's allowance, are
  // together within the sum of the allowances.
  lemma {:induction false} TotalByOwner<K, O>(m: map<K, nat>, owner: K -> O, allowance: map<O, nat>)
    requires forall k :: k in m ==> owner(k) in allowance
    requires forall o :: o in allowance ==> Total(OwnedBy(m, owner, o)) <= allowance[o]
    ensures Total(m) <= Total(allowance)
    decreases |allowance|
  {
    if allowance == map[] {
      assert m == map[];
    } else {
      var o :| o in allowance;
      var mine := OwnedBy(m, owner, o);
      var rest := m - mine.Keys;
      TotalSplit(m, mine.Keys);
      assert m - (m.Keys - mine.Keys) == mine;
      forall p | p in allowance - {o}
        ensures Total(OwnedBy(rest, owner, p)) <= (allowance - {o})[p]
      {
        assert OwnedBy(rest, owner, p) == OwnedBy(m, owner, p);
      }
      TotalByOwner(rest, owner, allowance - {o});
      TotalWithout(allowance, o);
    }
  }
}
