/** The list updates the admin pages apply to the records they show, each record carrying an
    `id`: replace by id (`prev.map(v => v.id === x.id ? x : v)`), delete by id
    (`prev.filter(v => v.id !== id)`) and append (`[...prev, x]`). */
module Lists {
  import opened Seqs

  /** The ids of the records, in list order. */
  function Keys<T>(s: seq<T>, key: T -> string): (ks: seq<string>)
    ensures |ks| == |s| && forall i :: 0 <= i < |s| ==> ks[i] == key(s[i])
  {
    MapSeq(s, key)
  }

  /** No two records share an id. */
  predicate UniqueKeys<T>(s: seq<T>, key: T -> string) {
    forall i, j :: 0 <= i < j < |s| ==> key(s[i]) != key(s[j])
  }

  /** The record's id is `k`. */
  function KeyIs<T>(key: T -> string, k: string): T -> bool { y => key(y) == k }

  function KeyIsNot<T>(key: T -> string, k: string): T -> bool { y => key(y) != k }

  /** Every record whose id is that of `x` becomes `x`. */
  function ReplaceByKey<T>(s: seq<T>, key: T -> string, x: T): seq<T> {
    ReplaceWhere(s, KeyIs(key, key(x)), x)
  }

  /** Every record with id `k` is dropped. */
  function RemoveByKey<T>(s: seq<T>, key: T -> string, k: string): seq<T> {
    Filter(s, KeyIsNot(key, k))
  }

  /** How many records have id `k`. */
  function CountKey<T>(s: seq<T>, key: T -> string, k: string): nat {
    |Filter(s, KeyIs(key, k))|
  }

  /** Replacing keeps the length and the sequence of ids: the record with a matching id takes
      the new value in place, and every other record stays where it was. */
  lemma ReplaceByKeySpec<T>(s: seq<T>, key: T -> string, x: T)
    ensures var r := ReplaceByKey(s, key, x);
      && |r| == |s|
      && Keys(r, key) == Keys(s, key)
      && (forall i :: 0 <= i < |s| && key(s[i]) == key(x) ==> r[i] == x)
      && (forall i :: 0 <= i < |s| && key(s[i]) != key(x) ==> r[i] == s[i])
  {
  }

  /** A record whose id is not listed changes nothing. */
  lemma ReplaceAbsent<T>(s: seq<T>, key: T -> string, x: T)
    requires key(x) !in Keys(s, key)
    ensures ReplaceByKey(s, key, x) == s
  {
    var r := ReplaceByKey(s, key, x);
    forall i | 0 <= i < |s|
      ensures r[i] == s[i]
    {
      assert Keys(s, key)[i] == key(s[i]);
    }
  }

  /** When the id is listed, the new value is in the list. */
  lemma ReplacePresent<T>(s: seq<T>, key: T -> string, x: T)
    requires key(x) in Keys(s, key)
    ensures x in ReplaceByKey(s, key, x)
  {
    var i :| 0 <= i < |s| && Keys(s, key)[i] == key(x);
    assert ReplaceByKey(s, key, x)[i] == x;
  }

  /** Replacing twice with the same record is replacing once. */
  lemma ReplaceIdempotent<T>(s: seq<T>, key: T -> string, x: T)
    ensures ReplaceByKey(ReplaceByKey(s, key, x), key, x) == ReplaceByKey(s, key, x)
  {
  }

  /** Replacing keeps the ids distinct when they were. */
  lemma ReplaceKeepsUnique<T>(s: seq<T>, key: T -> string, x: T)
    requires UniqueKeys(s, key)
    ensures UniqueKeys(ReplaceByKey(s, key, x), key)
  {
    var r := ReplaceByKey(s, key, x);
    forall i, j | 0 <= i < j < |r|
      ensures key(r[i]) != key(r[j])
    {
      assert key(r[i]) == key(s[i]) && key(r[j]) == key(s[j]);
    }
  }

  /** Deleting leaves no record with the id and keeps every other record, in order. */
  lemma {:induction false} RemoveByKeySpec<T>(s: seq<T>, key: T -> string, k: string)
    ensures var r := RemoveByKey(s, key, k);
      && k !in Keys(r, key)
      && (forall i :: 0 <= i < |s| && key(s[i]) != k ==> s[i] in r)
      && |r| + CountKey(s, key, k) == |s|
    decreases |s|
  {
    var r := RemoveByKey(s, key, k);
    if s != [] {
      RemoveByKeySpec(s[1..], key, k);
    }
    forall i | 0 <= i < |r|
      ensures Keys(r, key)[i] != k
    {
      assert KeyIsNot(key, k)(r[i]);
    }
  }

  /** With distinct ids, deleting a listed id removes exactly one record; deleting an id
      that is not listed changes nothing. */
  lemma {:induction false} RemoveSize<T>(s: seq<T>, key: T -> string, k: string)
    requires UniqueKeys(s, key)
    ensures k in Keys(s, key) ==> |RemoveByKey(s, key, k)| == |s| - 1
    ensures k !in Keys(s, key) ==> RemoveByKey(s, key, k) == s
    decreases |s|
  {
    if s != [] {
      var t := s[1..];
      assert UniqueKeys(t, key) by {
        forall i, j | 0 <= i < j < |t|
          ensures key(t[i]) != key(t[j])
        {
          assert t[i] == s[i + 1] && t[j] == s[j + 1];
        }
      }
      RemoveSize(t, key, k);
      if key(s[0]) == k {
        assert k !in Keys(t, key) by {
          forall i | 0 <= i < |t|
            ensures Keys(t, key)[i] != k
          {
            assert t[i] == s[i + 1];
          }
        }
      } else {
        assert k in Keys(s, key) <==> k in Keys(t, key) by {
          assert Keys(s, key) == [key(s[0])] + Keys(t, key);
        }
      }
    }
  }

  /** Deleting the same id twice is deleting it once. */
  lemma RemoveIdempotent<T>(s: seq<T>, key: T -> string, k: string)
    ensures RemoveByKey(RemoveByKey(s, key, k), key, k) == RemoveByKey(s, key, k)
  {
    var r := RemoveByKey(s, key, k);
    FilterAll(r, KeyIsNot(key, k));
  }

  /** Appending adds the record at the end and keeps the rest. */
  lemma AppendSpec<T>(s: seq<T>, key: T -> string, x: T)
    ensures Keys(s + [x], key) == Keys(s, key) + [key(x)]
    ensures key(x) !in Keys(s, key) && UniqueKeys(s, key) ==> UniqueKeys(s + [x], key)
  {
    var r := s + [x];
    if key(x) !in Keys(s, key) && UniqueKeys(s, key) {
      forall i, j | 0 <= i < j < |r|
        ensures key(r[i]) != key(r[j])
      {
        if j == |s| {
          assert Keys(s, key)[i] == key(s[i]);
        }
      }
    }
  }

  /** Deleting keeps the ids distinct when they were. */
  lemma {:induction false} RemoveKeepsUnique<T>(s: seq<T>, key: T -> string, k: string)
    requires UniqueKeys(s, key)
    ensures UniqueKeys(RemoveByKey(s, key, k), key)
    decreases |s|
  {
    if s != [] {
      var t := s[1..];
      assert UniqueKeys(t, key) by {
        forall i, j | 0 <= i < j < |t|
          ensures key(t[i]) != key(t[j])
        {
          assert t[i] == s[i + 1] && t[j] == s[j + 1];
        }
      }
      RemoveKeepsUnique(t, key, k);
      var rt := RemoveByKey(t, key, k);
      if key(s[0]) != k {
        var r := [s[0]] + rt;
        assert RemoveByKey(s, key, k) == r;
        forall i, j | 0 <= i < j < |r|
          ensures key(r[i]) != key(r[j])
        {
          if i == 0 {
            assert r[j] == rt[j - 1] && rt[j - 1] in t;
            var m :| 0 <= m < |t| && t[m] == rt[j - 1];
            assert s[m + 1] == t[m];
          }
        }
      }
    }
  }
}
