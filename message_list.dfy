/** The chat window's message list and the two updaters that change it:
    a live `receive_message` is dropped when its id is already held and
    otherwise added and the list re-sorted by timestamp; a history page
    is appended, duplicates are removed keeping the first occurrence of
    each id (`index === self.findIndex(m => m.id === message.id)`), and
    the list is re-sorted. `Array.prototype.sort` is stable, and so is the
    insertion sort that models it. */
module MessageList {
  import opened Wire

  predicate SortedByTime(s: seq<MessageRow>)
  {
    forall i, j :: 0 <= i < j < |s| ==> s[i].timestamp <= s[j].timestamp
  }

  predicate UniqueIds(s: seq<MessageRow>)
  {
    forall i, j :: 0 <= i < j < |s| ==> s[i].id != s[j].id
  }

  function IdsOf(s: seq<MessageRow>): set<int>
  {
    set m | m in s :: m.id
  }

  // ---------------------------------------------------------------------
  // findIndex and first-occurrence deduplication

  /** `s.findIndex(m => m.id === id)`: the first position holding `id`,
      or -1. */
  function FindIndex(s: seq<MessageRow>, id: int): (r: int)
    ensures -1 <= r < |s|
    ensures r >= 0 ==> s[r].id == id
    ensures forall j :: 0 <= j < |s| && s[j].id == id ==> 0 <= r <= j
  {
    if s == [] then -1
    else if s[0].id == id then 0
    else
      var k := FindIndex(s[1..], id);
      if k == -1 then -1 else k + 1
  }

  /** The filter over the first `n` positions of `s` that keeps position
      `i` exactly when `FindIndex(s, s[i].id) == i`. */
  function KeepFirst(s: seq<MessageRow>, n: nat): seq<MessageRow>
    requires n <= |s|
  {
    if n == 0 then []
    else KeepFirst(s, n - 1) + (if FindIndex(s, s[n - 1].id) == n - 1 then [s[n - 1]] else [])
  }

  /** `messages.filter((message, index, self) => index === self.findIndex(...))`. */
  function DedupById(s: seq<MessageRow>): seq<MessageRow>
  {
    KeepFirst(s, |s|)
  }

  lemma IdsOfSnoc(t: seq<MessageRow>, x: MessageRow)
    ensures IdsOf(t + [x]) == IdsOf(t) + {x.id}
  {
    assert forall m :: m in t + [x] <==> m in t || m == x;
  }

  lemma UniqueSnoc(t: seq<MessageRow>, x: MessageRow)
    requires UniqueIds(t) && x.id !in IdsOf(t)
    ensures UniqueIds(t + [x])
  {
    forall i | 0 <= i < |t| ensures (t + [x])[i].id != x.id {
      assert t[i] in t;
    }
  }

  /** Every id of the scanned prefix survives the filter. */
  lemma {:induction false} KeepFirstIds(s: seq<MessageRow>, n: nat)
    requires n <= |s|
    ensures IdsOf(KeepFirst(s, n)) == IdsOf(s[..n])
  {
    if n > 0 {
      KeepFirstIds(s, n - 1);
      var x := s[n - 1];
      assert s[..n] == s[..n - 1] + [x];
      IdsOfSnoc(s[..n - 1], x);
      IdsOfSnoc(KeepFirst(s, n - 1), x);
      var f := FindIndex(s, x.id);
      if f != n - 1 {
        assert 0 <= f < n - 1;
        assert s[..n - 1][f] in s[..n - 1];
        assert x.id in IdsOf(s[..n - 1]);
        assert KeepFirst(s, n) == KeepFirst(s, n - 1);
      } else {
        assert KeepFirst(s, n) == KeepFirst(s, n - 1) + [x];
      }
    }
  }

  /** The position of an element of the prefix `s[..n-1]` not holding
      the id `id` of a later element that is its first occurrence. */
  lemma FirstOccurrenceIsNew(s: seq<MessageRow>, n: nat)
    requires 0 < n <= |s| && FindIndex(s, s[n - 1].id) == n - 1
    ensures s[n - 1].id !in IdsOf(s[..n - 1])
  {
    forall m | m in s[..n - 1] ensures m.id != s[n - 1].id {
      var j :| 0 <= j < n - 1 && s[..n - 1][j] == m;
      assert s[j] == m;
    }
  }

  /** The filter leaves no two elements with the same id. */
  lemma {:induction false} KeepFirstUnique(s: seq<MessageRow>, n: nat)
    requires n <= |s|
    ensures UniqueIds(KeepFirst(s, n))
  {
    if n > 0 {
      KeepFirstUnique(s, n - 1);
      if FindIndex(s, s[n - 1].id) == n - 1 {
        KeepFirstIds(s, n - 1);
        FirstOccurrenceIsNew(s, n);
        UniqueSnoc(KeepFirst(s, n - 1), s[n - 1]);
      }
    }
  }

  /** Each kept element comes from the prefix and is the first element of
      `s` with its id. */
  lemma {:induction false} KeepFirstSound(s: seq<MessageRow>, n: nat)
    requires n <= |s|
    ensures forall x :: x in KeepFirst(s, n) ==> x in s[..n] && s[FindIndex(s, x.id)] == x
  {
    if n > 0 {
      KeepFirstSound(s, n - 1);
      assert forall x :: x in s[..n - 1] ==> x in s[..n] by {
        assert s[..n] == s[..n - 1] + [s[n - 1]];
      }
    }
  }

  /** Every first occurrence within the prefix is kept. */
  lemma {:induction false} KeepFirstComplete(s: seq<MessageRow>, n: nat)
    requires n <= |s|
    ensures forall i :: 0 <= i < n && FindIndex(s, s[i].id) == i ==> s[i] in KeepFirst(s, n)
  {
    if n > 0 {
      KeepFirstComplete(s, n - 1);
    }
  }

  // ---------------------------------------------------------------------
  // Stable sort by timestamp

  /** Insert `x` after every leading element whose timestamp is not
      larger; in a sorted list that is just after the last element with a
      timestamp at most `x`'s. */
  function Insert(x: MessageRow, t: seq<MessageRow>): (r: seq<MessageRow>)
    ensures |r| == |t| + 1
    ensures multiset(r) == multiset(t) + multiset{x}
  {
    if t == [] || x.timestamp < t[0].timestamp then [x] + t
    else
      assert t == [t[0]] + t[1..];
      [t[0]] + Insert(x, t[1..])
  }

  /** The inserted list holds `x` and the elements of `t`, and nothing else. */
  lemma InsertMembers(x: MessageRow, t: seq<MessageRow>)
    ensures forall m :: m in Insert(x, t) <==> m == x || m in t
  {
    var r := Insert(x, t);
    assert forall m :: m in r <==> m in multiset(r);
    assert forall m :: m in t <==> m in multiset(t);
  }

  /** Inserting into a sorted list keeps it sorted. */
  lemma {:induction false} InsertSorted(x: MessageRow, t: seq<MessageRow>)
    requires SortedByTime(t)
    ensures SortedByTime(Insert(x, t))
  {
    if t != [] && x.timestamp >= t[0].timestamp {
      var rest := Insert(x, t[1..]);
      InsertSorted(x, t[1..]);
      InsertMembers(x, t[1..]);
      forall k | 0 <= k < |rest| ensures t[0].timestamp <= rest[k].timestamp {
        if rest[k] != x {
          assert rest[k] in rest;
          var j :| 0 <= j < |t[1..]| && t[1..][j] == rest[k];
          assert t[j + 1] == rest[k];
        }
      }
    }
  }

  /** The comparator sort `(a, b) => a.timestamp - b.timestamp`. */
  function SortByTime(s: seq<MessageRow>): (r: seq<MessageRow>)
    ensures |r| == |s|
    ensures multiset(r) == multiset(s)
    ensures SortedByTime(r)
  {
    if s == [] then []
    else
      assert s == s[..|s| - 1] + [s[|s| - 1]];
      InsertSorted(s[|s| - 1], SortByTime(s[..|s| - 1]));
      Insert(s[|s| - 1], SortByTime(s[..|s| - 1]))
  }

  lemma {:induction false} InsertUnique(x: MessageRow, t: seq<MessageRow>)
    requires UniqueIds(t) && x.id !in IdsOf(t)
    ensures UniqueIds(Insert(x, t))
  {
    if t != [] && x.timestamp >= t[0].timestamp {
      assert forall m :: m in t[1..] ==> m in t;
      InsertUnique(x, t[1..]);
      var rest := Insert(x, t[1..]);
      InsertMembers(x, t[1..]);
      forall k | 0 <= k < |rest| ensures t[0].id != rest[k].id {
        if rest[k] != x {
          assert rest[k] in rest;
          var j :| 0 <= j < |t[1..]| && t[1..][j] == rest[k];
          assert t[j + 1] == rest[k];
        } else {
          assert t[0] in t;
        }
      }
      assert Insert(x, t) == [t[0]] + rest;
    } else {
      forall k | 0 <= k < |t| ensures x.id != t[k].id {
        assert t[k] in t;
      }
    }
  }

  /** Sorting changes neither which elements there are nor their ids. */
  lemma SortKeepsIds(s: seq<MessageRow>)
    ensures IdsOf(SortByTime(s)) == IdsOf(s)
    ensures forall m :: m in SortByTime(s) <==> m in s
  {
    var r := SortByTime(s);
    assert forall m :: m in r <==> m in multiset(r);
    assert forall m :: m in s <==> m in multiset(s);
  }

  lemma {:induction false} SortUnique(s: seq<MessageRow>)
    requires UniqueIds(s)
    ensures UniqueIds(SortByTime(s))
  {
    if s != [] {
      var init, last := s[..|s| - 1], s[|s| - 1];
      assert s == init + [last];
      SortUnique(init);
      SortKeepsIds(init);
      assert last.id !in IdsOf(init) by {
        forall m | m in init ensures m.id != last.id {
          var j :| 0 <= j < |init| && init[j] == m;
          assert s[j] == m;
        }
      }
      InsertUnique(last, SortByTime(init));
    }
  }

  lemma {:induction false} InsertAtEnd(x: MessageRow, t: seq<MessageRow>)
    requires forall k :: 0 <= k < |t| ==> t[k].timestamp <= x.timestamp
    ensures Insert(x, t) == t + [x]
  {
    if t != [] {
      InsertAtEnd(x, t[1..]);
      assert t == [t[0]] + t[1..];
    }
  }

  /** Sorting a list that is already sorted leaves it as it is. */
  lemma {:induction false} SortSorted(s: seq<MessageRow>)
    requires SortedByTime(s)
    ensures SortByTime(s) == s
  {
    if s != [] {
      var init, last := s[..|s| - 1], s[|s| - 1];
      assert s == init + [last];
      SortSorted(init);
      InsertAtEnd(last, init);
    }
  }

  // ---------------------------------------------------------------------
  // The two updaters

  /** The `receive_message` updater. */
  function ReceiveLive(held: seq<MessageRow>, m: MessageRow): seq<MessageRow>
  {
    if m.id in IdsOf(held) then held else SortByTime(held + [m])
  }

  /** A live message whose id is held changes nothing; any other is added
      exactly once, the list grows by one and ends up sorted; unique ids
      stay unique and the ids become the old ones plus the new one. */
  lemma ReceiveLiveSpec(held: seq<MessageRow>, m: MessageRow)
    ensures m.id in IdsOf(held) ==> ReceiveLive(held, m) == held
    ensures m.id !in IdsOf(held) ==>
      && |ReceiveLive(held, m)| == |held| + 1
      && multiset(ReceiveLive(held, m)) == multiset(held) + multiset{m}
      && SortedByTime(ReceiveLive(held, m))
    ensures SortedByTime(held) ==> SortedByTime(ReceiveLive(held, m))
    ensures UniqueIds(held) ==> UniqueIds(ReceiveLive(held, m))
    ensures IdsOf(ReceiveLive(held, m)) == IdsOf(held) + {m.id}
  {
    if m.id !in IdsOf(held) {
      IdsOfSnoc(held, m);
      SortKeepsIds(held + [m]);
      if UniqueIds(held) {
        UniqueSnoc(held, m);
        SortUnique(held + [m]);
      }
    }
  }

  /** The history updater: append the page, keep first occurrences, sort. */
  function MergePage(held: seq<MessageRow>, page: seq<MessageRow>): seq<MessageRow>
  {
    SortByTime(DedupById(held + page))
  }

  /** The merged list is sorted, has unique ids, and holds exactly the ids
      of both inputs. */
  lemma MergePageSpec(held: seq<MessageRow>, page: seq<MessageRow>)
    ensures SortedByTime(MergePage(held, page))
    ensures UniqueIds(MergePage(held, page))
    ensures IdsOf(MergePage(held, page)) == IdsOf(held) + IdsOf(page)
  {
    var s := held + page;
    KeepFirstIds(s, |s|);
    KeepFirstUnique(s, |s|);
    assert s[..|s|] == s;
    SortUnique(DedupById(s));
    SortKeepsIds(DedupById(s));
    assert forall m :: m in s <==> m in held || m in page;
  }

  /** The held copy wins: when the held list has unique ids, all of it
      survives the merge, and a page message whose id is already held
      survives only if it is that very held message. */
  lemma MergeKeepsHeld(held: seq<MessageRow>, page: seq<MessageRow>)
    requires UniqueIds(held)
    ensures forall x :: x in held ==> x in MergePage(held, page)
    ensures forall y :: y in MergePage(held, page) && y.id in IdsOf(held) ==> y in held
  {
    var s := held + page;
    KeepFirstSound(s, |s|);
    KeepFirstComplete(s, |s|);
    assert s[..|s|] == s;
    SortKeepsIds(DedupById(s));
    forall x | x in held ensures x in DedupById(s) {
      var i :| 0 <= i < |held| && held[i] == x;
      assert s[i] == x;
      var f := FindIndex(s, x.id);
      assert f <= i;
      assert held[f].id == held[i].id;
    }
    forall y | y in DedupById(s) && y.id in IdsOf(held) ensures y in held {
      var f := FindIndex(s, y.id);
      var x :| x in held && x.id == y.id;
      var i :| 0 <= i < |held| && held[i] == x;
      assert s[i].id == y.id;
      assert f <= i;
      assert s[f] == held[f];
    }
  }

  /** In `held + page`, the first message with an id that `held` does
      not hold is the first message of `page` with that id. */
  lemma FirstOfAppended(held: seq<MessageRow>, page: seq<MessageRow>, y: MessageRow)
    requires y.id !in IdsOf(held)
    requires 0 <= FindIndex(held + page, y.id) && (held + page)[FindIndex(held + page, y.id)] == y
    ensures 0 <= FindIndex(page, y.id) && page[FindIndex(page, y.id)] == y
  {
    var s := held + page;
    var f := FindIndex(s, y.id);
    assert page[f - |held|] == s[f];
    var g := FindIndex(page, y.id);
    assert s[|held| + g] == page[g];
  }

  /** Nothing is invented: every merged message comes from the held list
      or the page, and a message whose id is not held is the first
      message of the page with that id. */
  lemma MergeDrawsFromInputs(held: seq<MessageRow>, page: seq<MessageRow>)
    ensures forall y :: y in MergePage(held, page) ==> y in held || y in page
    ensures forall y :: y in MergePage(held, page) && y.id !in IdsOf(held) ==>
      0 <= FindIndex(page, y.id) && page[FindIndex(page, y.id)] == y
  {
    var s := held + page;
    KeepFirstSound(s, |s|);
    assert s[..|s|] == s;
    SortKeepsIds(DedupById(s));
    forall y | y in MergePage(held, page)
      ensures y in held || y in page
      ensures y.id !in IdsOf(held) ==> 0 <= FindIndex(page, y.id) && page[FindIndex(page, y.id)] == y
    {
      assert y in DedupById(s);
      assert y in s;
      if y.id !in IdsOf(held) {
        FirstOfAppended(held, page, y);
      }
    }
  }

  /** In `r + page`, where `r` has unique ids and holds every id of the
      page, a position is the first with its id exactly when it lies in
      `r`. */
  lemma CoveredFirstOccurrence(r: seq<MessageRow>, page: seq<MessageRow>, i: nat)
    requires UniqueIds(r) && IdsOf(page) <= IdsOf(r)
    requires i < |r| + |page|
    ensures FindIndex(r + page, (r + page)[i].id) == i <==> i < |r|
  {
    var s := r + page;
    var x := s[i];
    var f := FindIndex(s, x.id);
    if i < |r| {
      assert x == r[i];
      forall j | 0 <= j < i ensures s[j].id != x.id {
        assert s[j] == r[j];
      }
      assert f == i;
    } else {
      assert x == page[i - |r|];
      assert x.id in IdsOf(page);
      var y :| y in r && y.id == x.id;
      var j :| 0 <= j < |r| && r[j] == y;
      assert s[j] == r[j];
      assert f <= j;
    }
  }

  /** Merging a list that already holds every id of the page and has
      unique ids adds nothing. */
  lemma {:induction false} KeepFirstOfCovered(r: seq<MessageRow>, page: seq<MessageRow>, n: nat)
    requires UniqueIds(r) && IdsOf(page) <= IdsOf(r)
    requires n <= |r| + |page|
    ensures KeepFirst(r + page, n) == if n <= |r| then r[..n] else r
  {
    if n > 0 {
      KeepFirstOfCovered(r, page, n - 1);
      CoveredFirstOccurrence(r, page, n - 1);
      if n <= |r| {
        assert r[..n] == r[..n - 1] + [(r + page)[n - 1]];
      } else {
        assert r[..|r|] == r;
      }
    }
  }

  /** Merging the same page twice gives what merging it once gives. */
  lemma MergePageIdempotent(held: seq<MessageRow>, page: seq<MessageRow>)
    ensures MergePage(MergePage(held, page), page) == MergePage(held, page)
  {
    var r := MergePage(held, page);
    MergePageSpec(held, page);
    DedupOfCovered(r, page);
    SortSorted(r);
  }

  /** Appending a page whose ids are all held by a list with unique ids
      and deduplicating gives back the list. */
  lemma DedupOfCovered(r: seq<MessageRow>, page: seq<MessageRow>)
    requires UniqueIds(r) && IdsOf(page) <= IdsOf(r)
    ensures DedupById(r + page) == r
  {
    KeepFirstOfCovered(r, page, |r| + |page|);
  }
}
