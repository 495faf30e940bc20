/** The trim-and-dedup pass that `renderCards` runs over the fetched candidate
    topics: a single forward pass that keeps at most four topics and, when no
    category filter is given, at most one topic per category. In carousel mode
    the candidates are kept as they are. */
module Cards {
  import opened Topics

  /** The number of cards shown when the carousel is off. */
  const MaxCards: nat := 4

  /** The category ids of a list of topics. */
  function CidSet(ts: seq<Topic>): set<int> {
    set t | t in ts :: t.cid
  }

  /** No two topics of the list share a category id. */
  predicate DistinctCids(ts: seq<Topic>) {
    forall i, j :: 0 <= i < j < |ts| ==> ts[i].cid != ts[j].cid
  }

  /** `a` is `b` with some elements left out, in the order of `b`. */
  predicate IsSubsequence<T(==)>(a: seq<T>, b: seq<T>)
    decreases |b|
  {
    if a == [] then true
    else if b == [] then false
    else (a[0] == b[0] && IsSubsequence(a[1..], b[1..])) || IsSubsequence(a, b[1..])
  }

  /** The first `n` elements of `s`, or all of them when there are fewer. */
  function Take<T>(s: seq<T>, n: nat): (r: seq<T>)
    ensures |r| == if |s| <= n then |s| else n
    ensures r == s[..|r|]
  {
    if |s| <= n then s else s[..n]
  }

  /** The pass, stated recursively: `seen` holds the category ids taken so far
      and `room` the number of cards still free. A topic is taken when the pass
      is filtered or its category has not been seen. */
  function Pick(ts: seq<Topic>, filtered: bool, seen: set<int>, room: nat): (r: seq<Topic>)
    ensures |r| <= room
    ensures |r| <= |ts|
    decreases |ts|
  {
    if room == 0 || ts == [] then []
    else if filtered || ts[0].cid !in seen then
      [ts[0]] + Pick(ts[1..], filtered, seen + {ts[0].cid}, room - 1)
    else Pick(ts[1..], filtered, seen, room)
  }

  /** The topics `renderCards` puts in the template data; a non-zero
      `filterCid` is a category filter. */
  function Select(candidates: seq<Topic>, filterCid: int, carousel: bool): (r: seq<Topic>)
    ensures carousel ==> r == candidates
    ensures !carousel ==> |r| <= MaxCards
  {
    if carousel then candidates else Pick(candidates, filterCid != 0, {}, MaxCards)
  }

  /** The loop of `renderCards` as written: `cids` is the list of category ids
      of the topics taken so far. */
  method TrimAndDedup(topics: seq<Topic>, filterCid: int, carousel: bool)
    returns (finalTopics: seq<Topic>)
    ensures finalTopics == Select(topics, filterCid, carousel)
    ensures carousel ==> finalTopics == topics
    ensures !carousel ==> |finalTopics| <= MaxCards
  {
    if !carousel {
      var i := 0;
      var cids: seq<int> := [];
      finalTopics := [];
      assert topics[i..] == topics && (set c | c in cids) == {};
      while |finalTopics| < MaxCards && i < |topics|
        invariant 0 <= i <= |topics|
        invariant |finalTopics| <= MaxCards
        invariant finalTopics + Pick(topics[i..], filterCid != 0, (set c | c in cids), MaxCards - |finalTopics|)
          == Pick(topics, filterCid != 0, {}, MaxCards)
        decreases |topics| - i
      {
        var cid := topics[i].cid;
        assert topics[i..][1..] == topics[i + 1..];
        if filterCid != 0 || cid !in cids {
          assert (set c | c in cids + [cid]) == (set c | c in cids) + {cid};
          cids := cids + [cid];
          finalTopics := finalTopics + [topics[i]];
        }
        i := i + 1;
      }
    } else {
      finalTopics := topics;
    }
  }

  /** The topics of a list that are the first of their category, in order:
      a reference for the unfiltered pass, defined from the back of the list. */
  function FirstPerCategory(ts: seq<Topic>): (r: seq<Topic>)
    decreases |ts|
  {
    if ts == [] then []
    else
      var init := ts[..|ts| - 1];
      if ts[|ts| - 1].cid in CidSet(init) then FirstPerCategory(init)
      else FirstPerCategory(init) + [ts[|ts| - 1]]
  }

  // ---------------------------------------------------------------------------
  // Properties of the recursive pass

  lemma {:induction false} PickDistinct(ts: seq<Topic>, seen: set<int>, room: nat)
    ensures DistinctCids(Pick(ts, false, seen, room))
    ensures CidSet(Pick(ts, false, seen, room)) !! seen
    decreases |ts|
  {
    if room == 0 || ts == [] {
    } else if ts[0].cid !in seen {
      var rest := Pick(ts[1..], false, seen + {ts[0].cid}, room - 1);
      PickDistinct(ts[1..], seen + {ts[0].cid}, room - 1);
      var r := [ts[0]] + rest;
      forall i, j | 0 <= i < j < |r| ensures r[i].cid != r[j].cid {
        if i == 0 {
          assert r[j] in rest;
        } else {
          assert r[i] == rest[i - 1] && r[j] == rest[j - 1];
        }
      }
      assert CidSet(r) == {ts[0].cid} + CidSet(rest);
    } else {
      PickDistinct(ts[1..], seen, room);
    }
  }

  lemma {:induction false} PickSubsequence(ts: seq<Topic>, filtered: bool, seen: set<int>, room: nat)
    ensures IsSubsequence(Pick(ts, filtered, seen, room), ts)
    decreases |ts|
  {
    if room == 0 || ts == [] {
    } else if filtered || ts[0].cid !in seen {
      PickSubsequence(ts[1..], filtered, seen + {ts[0].cid}, room - 1);
      var r := Pick(ts, filtered, seen, room);
      assert r[0] == ts[0] && r[1..] == Pick(ts[1..], filtered, seen + {ts[0].cid}, room - 1);
    } else {
      PickSubsequence(ts[1..], filtered, seen, room);
      var r := Pick(ts, filtered, seen, room);
      if r != [] {
        assert IsSubsequence(r, ts[1..]);
      }
    }
  }

  lemma {:induction false} PickGreedy(ts: seq<Topic>, seen: set<int>, room: nat)
    ensures |Pick(ts, false, seen, room)| < room ==>
      forall t :: t in ts ==> t.cid in seen + CidSet(Pick(ts, false, seen, room))
    decreases |ts|
  {
    if room == 0 || ts == [] {
    } else if ts[0].cid !in seen {
      var seen' := seen + {ts[0].cid};
      PickGreedy(ts[1..], seen', room - 1);
      var rest := Pick(ts[1..], false, seen', room - 1);
      assert CidSet([ts[0]] + rest) == {ts[0].cid} + CidSet(rest);
      forall t | t in ts ensures t in ts[1..] || t == ts[0] {
      }
    } else {
      PickGreedy(ts[1..], seen, room);
      forall t | t in ts ensures t in ts[1..] || t == ts[0] {
      }
    }
  }

  lemma {:induction false} PickFilteredIsPrefix(ts: seq<Topic>, seen: set<int>, room: nat)
    ensures Pick(ts, true, seen, room) == Take(ts, room)
    decreases |ts|
  {
    if room == 0 || ts == [] {
    } else {
      PickFilteredIsPrefix(ts[1..], seen + {ts[0].cid}, room - 1);
      assert Pick(ts, true, seen, room) == [ts[0]] + Pick(ts[1..], true, seen + {ts[0].cid}, room - 1);
      assert Take(ts, room) == [ts[0]] + Take(ts[1..], room - 1);
    }
  }

  // ---------------------------------------------------------------------------
  // The unfiltered pass agrees with the reference definition

  /** First occurrences of each category not already in `seen`, front to back. */
  function Fresh(ts: seq<Topic>, seen: set<int>): seq<Topic>
    decreases |ts|
  {
    if ts == [] then []
    else if ts[0].cid in seen then Fresh(ts[1..], seen)
    else [ts[0]] + Fresh(ts[1..], seen + {ts[0].cid})
  }

  lemma {:induction false} PickIsTakeOfFresh(ts: seq<Topic>, seen: set<int>, room: nat)
    ensures Pick(ts, false, seen, room) == Take(Fresh(ts, seen), room)
    decreases |ts|
  {
    if ts == [] {
    } else if room == 0 {
    } else if ts[0].cid in seen {
      PickIsTakeOfFresh(ts[1..], seen, room);
    } else {
      var seen' := seen + {ts[0].cid};
      PickIsTakeOfFresh(ts[1..], seen', room - 1);
      assert Take([ts[0]] + Fresh(ts[1..], seen'), room)
        == [ts[0]] + Take(Fresh(ts[1..], seen'), room - 1);
    }
  }

  lemma {:induction false} FreshSnoc(ts: seq<Topic>, x: Topic, seen: set<int>)
    ensures Fresh(ts + [x], seen)
      == Fresh(ts, seen) + (if x.cid in seen + CidSet(ts) then [] else [x])
    decreases |ts|
  {
    if ts == [] {
      assert Fresh([x], seen) == (if x.cid in seen then [] else [x] + Fresh([], seen + {x.cid}));
    } else {
      assert (ts + [x])[0] == ts[0] && (ts + [x])[1..] == ts[1..] + [x];
      assert CidSet(ts) == {ts[0].cid} + CidSet(ts[1..]) by {
        assert forall t :: t in ts <==> t == ts[0] || t in ts[1..];
      }
      if ts[0].cid in seen {
        FreshSnoc(ts[1..], x, seen);
      } else {
        FreshSnoc(ts[1..], x, seen + {ts[0].cid});
      }
    }
  }

  lemma {:induction false} FirstPerCategoryIsFresh(ts: seq<Topic>)
    ensures FirstPerCategory(ts) == Fresh(ts, {})
    decreases |ts|
  {
    if ts != [] {
      var init := ts[..|ts| - 1];
      FirstPerCategoryIsFresh(init);
      FreshSnoc(init, ts[|ts| - 1], {});
      assert init + [ts[|ts| - 1]] == ts;
    }
  }

  // ---------------------------------------------------------------------------
  // Properties of the selected topics

  /** With the carousel off and no filter, no two selected topics share a category. */
  lemma SelectDistinct(candidates: seq<Topic>)
    ensures DistinctCids(Select(candidates, 0, false))
  {
    PickDistinct(candidates, {}, MaxCards);
  }

  /** The selection never reorders or invents topics. */
  lemma SelectSubsequence(candidates: seq<Topic>, filterCid: int, carousel: bool)
    ensures IsSubsequence(Select(candidates, filterCid, carousel), candidates)
  {
    if carousel {
      SubsequenceReflexive(candidates);
    } else {
      PickSubsequence(candidates, filterCid != 0, {}, MaxCards);
    }
  }

  /** With the carousel off and no filter, fewer than four cards are selected
      only when every candidate's category is already represented. */
  lemma SelectGreedy(candidates: seq<Topic>)
    ensures |Select(candidates, 0, false)| < MaxCards ==>
      CidSet(candidates) == CidSet(Select(candidates, 0, false))
  {
    var r := Select(candidates, 0, false);
    PickGreedy(candidates, {}, MaxCards);
    PickSubsequence(candidates, false, {}, MaxCards);
    SubsequenceMembers(r, candidates);
  }

  /** With the carousel off and a category filter, the first four candidates
      are selected as they are. */
  lemma SelectFiltered(candidates: seq<Topic>, filterCid: int)
    ensures filterCid != 0 ==> Select(candidates, filterCid, false) == Take(candidates, MaxCards)
  {
    if filterCid != 0 {
      PickFilteredIsPrefix(candidates, {}, MaxCards);
    }
  }

  /** With the carousel off and no filter, the selection is the first four of
      the topics that open a new category. */
  lemma SelectMatchesReference(candidates: seq<Topic>)
    ensures Select(candidates, 0, false) == Take(FirstPerCategory(candidates), MaxCards)
  {
    PickIsTakeOfFresh(candidates, {}, MaxCards);
    FirstPerCategoryIsFresh(candidates);
  }

  /** Candidates in categories 1, 2, 1, 3, 2 with the carousel off and no
      filter: the pass keeps the first topic of each of the three categories. */
  lemma ThreeCategoriesExample(a: Topic, b: Topic, c: Topic, d: Topic, e: Topic)
    requires a.cid == 1 && b.cid == 2 && c.cid == 1 && d.cid == 3 && e.cid == 2
    ensures Select([a, b, c, d, e], 0, false) == [a, b, d]
  {
    assert [a, b, c, d, e][1..] == [b, c, d, e];
    assert [b, c, d, e][1..] == [c, d, e];
    assert [c, d, e][1..] == [d, e];
    assert [d, e][1..] == [e];
    assert [e][1..] == [];
    assert {} + {1} == {1} && {1} + {2} == {1, 2} && {1, 2} + {3} == {1, 2, 3};
    assert Pick([e], false, {1, 2, 3}, 1) == [];
    assert Pick([d, e], false, {1, 2}, 2) == [d];
    assert Pick([c, d, e], false, {1, 2}, 2) == [d];
    assert Pick([b, c, d, e], false, {1}, 3) == [b, d];
  }

  // ---------------------------------------------------------------------------
  // Facts about subsequences

  lemma {:induction false} SubsequenceReflexive<T>(s: seq<T>)
    ensures IsSubsequence(s, s)
    decreases |s|
  {
    if s != [] {
      SubsequenceReflexive(s[1..]);
    }
  }

  lemma {:induction false} SubsequenceMembers<T>(a: seq<T>, b: seq<T>)
    requires IsSubsequence(a, b)
    ensures forall x :: x in a ==> x in b
    decreases |b|
  {
    if a != [] && b != [] {
      if a[0] == b[0] && IsSubsequence(a[1..], b[1..]) {
        SubsequenceMembers(a[1..], b[1..]);
        forall x | x in a ensures x in b {
          if x != a[0] {
            assert x in a[1..];
          }
        }
      } else {
        SubsequenceMembers(a, b[1..]);
      }
    }
  }
}
