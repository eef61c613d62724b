/** Lists kept in the order of a distance, as a multimap keeps them. */
module Ordered {
  import opened Ids

  /** Where a new key goes: behind all keys that are not larger. */
  function UpperBound<T>(s: seq<(Metric, T)>, key: Metric): (u: nat)
    ensures u <= |s|
  {
    if s == [] then 0 else if Less(key, s[0].0) then 0 else 1 + UpperBound(s[1..], key)
  }

  function Insert<T>(s: seq<(Metric, T)>, key: Metric, value: T): seq<(Metric, T)> {
    var u := UpperBound(s, key);
    s[..u] + [(key, value)] + s[u..]
  }

  ghost predicate InOrder<T>(s: seq<(Metric, T)>) {
    forall i, j :: 0 <= i < j < |s| ==> !Less(s[j].0, s[i].0)
  }

  lemma {:induction false} UpperBoundSplits<T>(s: seq<(Metric, T)>, key: Metric)
    requires InOrder(s)
    ensures var u := UpperBound(s, key);
            && (forall i :: 0 <= i < u ==> !Less(key, s[i].0))
            && (forall i :: u <= i < |s| ==> Less(key, s[i].0))
  {
    if s != [] {
      if Less(key, s[0].0) {
        forall i | 0 <= i < |s|
          ensures Less(key, s[i].0)
        {
          LessIsStrictTotal(key, s[0].0, s[i].0);
          LessIsStrictTotal(s[0].0, s[i].0, key);
        }
      } else {
        UpperBoundSplits(s[1..], key);
        assert forall i :: 0 < i < |s| ==> s[i] == s[1..][i - 1];
      }
    }
  }

  lemma InsertInOrder<T>(s: seq<(Metric, T)>, key: Metric, value: T)
    requires InOrder(s)
    ensures InOrder(Insert(s, key, value))
  {
    UpperBoundSplits(s, key);
    var u := UpperBound(s, key);
    forall i | u <= i < |s|
      ensures !Less(s[i].0, key)
    {
      LessIsStrictTotal(key, s[i].0, key);
    }
  }

  lemma InsertAdds<T>(s: seq<(Metric, T)>, key: Metric, value: T)
    ensures multiset(Insert(s, key, value)) == multiset(s) + multiset{(key, value)}
    ensures |Insert(s, key, value)| == |s| + 1
  {
    var u := UpperBound(s, key);
    assert s == s[..u] + s[u..];
  }

  lemma TakeInOrder<T>(s: seq<(Metric, T)>, n: nat)
    requires InOrder(s) && n <= |s|
    ensures InOrder(s[..n]) && InOrder(s[n..])
    ensures forall i, j :: 0 <= i < n <= j < |s| ==> !Less(s[j].0, s[i].0)
  {
  }
}
