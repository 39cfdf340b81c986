/** Keys sorted by rank. */
module Ordering {

  ghost predicate Injective<K(!new)>(rank: map<K, nat>)
  {
    forall a, b :: a in rank && b in rank && rank[a] == rank[b] ==> a == b
  }

  ghost predicate Sorted<K(!new)>(rank: map<K, nat>, s: seq<K>)
  {
    && (forall k :: k in s <==> k in rank)
    && (forall i, j :: 0 <= i < j < |s| ==> s[i] != s[j] && rank[s[i]] <= rank[s[j]])
  }

  ghost function Ordered<K(!new)>(rank: map<K, nat>): (s: seq<K>)
    ensures Sorted(rank, s)
    decreases rank.Keys
  {
    if rank == map[] then []
    else
      var k := Least(rank);
      var rest := Ordered(rank - {k});
      SortedCons(rank, k, rest);
      [k] + rest
  }

  lemma SortedCons<K(!new)>(rank: map<K, nat>, k: K, rest: seq<K>)
    requires IsLeast(rank, k) && Sorted(rank - {k}, rest)
    ensures Sorted(rank, [k] + rest)
  {
    var s := [k] + rest;
    forall x ensures x in s <==> x in rank {
      assert x in s <==> x == k || x in rest;
    }
    forall i, j | 0 <= i < j < |s| ensures s[i] != s[j] && rank[s[i]] <= rank[s[j]] {
      assert s[j] == rest[j - 1] && s[j] in rest;
      if i > 0 {
        assert s[i] == rest[i - 1] && s[i] in rest;
      }
    }
  }

  ghost predicate IsLeast<K(!new)>(rank: map<K, nat>, k: K)
  {
    k in rank && forall x :: x in rank ==> rank[k] <= rank[x]
  }

  ghost function Least<K(!new)>(rank: map<K, nat>): (k: K)
    requires rank != map[]
    ensures IsLeast(rank, k)
  {
    LeastExists(rank);
    var k :| IsLeast(rank, k);
    k
  }

  lemma {:induction false} LeastExists<K(!new)>(rank: map<K, nat>)
    requires rank != map[]
    ensures exists k :: IsLeast(rank, k)
    decreases rank.Keys
  {
    var k :| k in rank;
    var rest := rank - {k};
    assert forall x :: x in rank ==> x == k || x in rest;
    if rest == map[] {
      assert IsLeast(rank, k);
    } else {
      LeastExists(rest);
      var least :| IsLeast(rest, least);
      assert IsLeast(rank, if rank[k] <= rank[least] then k else least);
    }
  }

  lemma SameEmptiness<K(!new)>(rank: map<K, nat>, s: seq<K>, t: seq<K>)
    requires Sorted(rank, s) && Sorted(rank, t)
    ensures s == [] <==> t == []
  {
    assert s != [] ==> s[0] in s && s[0] in t;
    assert t != [] ==> t[0] in t && t[0] in s;
  }

  /** When no two ranks are equal there is only one way to sort. */
  lemma {:induction false} SortedIsUnique<K(!new)>(rank: map<K, nat>, s: seq<K>, t: seq<K>)
    requires Injective(rank) && Sorted(rank, s) && Sorted(rank, t)
    ensures s == t
    decreases |s|
  {
    hide Sorted, Injective;
    SameEmptiness(rank, s, t);
    if s != [] {
      SameFirst(rank, s, t);
      InjectiveWithout(rank, s[0]);
      SortedTail(rank, s);
      SortedTail(rank, t);
      SortedIsUnique(rank - {s[0]}, s[1..], t[1..]);
      assert s == [s[0]] + s[1..] && t == [t[0]] + t[1..];
    }
  }

  lemma RankDecides<K(!new)>(rank: map<K, nat>, s: seq<K>, i: nat, j: nat)
    requires Sorted(rank, s) && i < |s| && j < |s| && s[i] in rank && s[j] in rank && rank[s[i]] < rank[s[j]]
    ensures i < j
  {
  }

  lemma InjectiveWithout<K(!new)>(rank: map<K, nat>, k: K)
    requires Injective(rank)
    ensures Injective(rank - {k})
  {
  }

  lemma SameFirst<K(!new)>(rank: map<K, nat>, s: seq<K>, t: seq<K>)
    requires Injective(rank) && Sorted(rank, s) && Sorted(rank, t) && s != [] && t != []
    ensures s[0] == t[0]
  {
    assert s[0] in s && t[0] in t;
    var i :| 0 <= i < |t| && t[i] == s[0];
    var j :| 0 <= j < |s| && s[j] == t[0];
    assert rank[t[0]] <= rank[t[i]] && rank[s[0]] <= rank[s[j]];
  }

  lemma SortedTail<K(!new)>(rank: map<K, nat>, s: seq<K>)
    requires Sorted(rank, s) && s != []
    ensures Sorted(rank - {s[0]}, s[1..])
  {
    var rest := rank - {s[0]};
    forall k ensures k in s[1..] <==> k in rest {
      if k in s[1..] {
        var i :| 0 <= i < |s| - 1 && s[1..][i] == k;
        assert s[i + 1] == k && s[0] != s[i + 1];
      }
      if k in rest {
        assert k in s;
        var i :| 0 <= i < |s| && s[i] == k;
        assert s[1..][i - 1] == k;
      }
    }
  }

  method LeastOf<K(!new, ==)>(rank: map<K, nat>, keys: set<K>) returns (best: K)
    requires keys != {} && keys <= rank.Keys
    ensures best in keys && forall k :: k in keys ==> rank[best] <= rank[k]
  {
    best :| best in keys;
    var others := keys - {best};
    while others != {}
      invariant others <= keys && best in keys && best !in others
      invariant forall k :: k in keys && k !in others ==> rank[best] <= rank[k]
      decreases |others|
    {
      var k :| k in others;
      others := others - {k};
      if rank[k] < rank[best] {
        best := k;
      }
    }
  }

  /** The sorted part and what is left of a selection sort. */
  ghost predicate Selected<K(!new)>(rank: map<K, nat>, s: seq<K>, todo: set<K>)
  {
    && todo <= rank.Keys
    && (forall k :: k in s <==> k in rank && k !in todo)
    && (forall i, j :: 0 <= i < j < |s| ==> s[i] != s[j] && rank[s[i]] <= rank[s[j]])
    && (forall i, k :: 0 <= i < |s| && k in todo ==> rank[s[i]] <= rank[k])
  }

  lemma SelectNext<K(!new)>(rank: map<K, nat>, s: seq<K>, todo: set<K>, best: K)
    requires Selected(rank, s, todo) && best in todo
    requires forall k :: k in todo ==> rank[best] <= rank[k]
    ensures Selected(rank, s + [best], todo - {best})
  {
    var t := s + [best];
    forall k ensures k in t <==> k in rank && k !in todo - {best} {
      assert k in t <==> k in s || k == best;
    }
    forall i, j | 0 <= i < j < |t| ensures t[i] != t[j] && rank[t[i]] <= rank[t[j]] {
      assert t[i] == s[i] && s[i] in s;
    }
  }

  /** `std::sort` by rank, as a selection loop. */
  method SortByRank<K(!new, ==)>(rank: map<K, nat>) returns (s: seq<K>)
    requires Injective(rank)
    ensures s == Ordered(rank)
  {
    hide Selected;
    s := [];
    var todo := rank.Keys;
    assert Selected(rank, s, todo) by {
      NothingSelected(rank);
    }
    while todo != {}
      invariant todo <= rank.Keys && Selected(rank, s, todo)
      decreases |todo|
    {
      var best := LeastOf(rank, todo);
      SelectNext(rank, s, todo, best);
      s := s + [best];
      todo := todo - {best};
    }
    AllSelected(rank, s);
    SortedIsUnique(rank, s, Ordered(rank));
  }

  lemma NothingSelected<K(!new)>(rank: map<K, nat>)
    ensures Selected(rank, [], rank.Keys)
  {
  }

  lemma AllSelected<K(!new)>(rank: map<K, nat>, s: seq<K>)
    requires Selected(rank, s, {})
    ensures Sorted(rank, s)
  {
  }
}
