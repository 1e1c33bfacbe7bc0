/** sorted(requests, key=lambda x: x.block_num) (main.py:101): a stable sort of
    the pending requests by block number, with the three facts C-LOOK relies on:
    the result is ordered, it is a permutation of the input, and requests with
    equal block numbers keep their original relative order. */
module BlockOrder {
  import opened Requests

  /** Inserts x before the first element whose block is not smaller than x's. */
  function InsertByBlock(x: IORequest, t: seq<IORequest>): (u: seq<IORequest>)
  {
    if t == [] then [x]
    else if x.blockNum <= t[0].blockNum then [x] + t
    else [t[0]] + InsertByBlock(x, t[1..])
  }

  /** Stable insertion sort by block number. */
  function SortByBlock(s: seq<IORequest>): (t: seq<IORequest>)
  {
    if s == [] then [] else InsertByBlock(s[0], SortByBlock(s[1..]))
  }

  ghost predicate SortedByBlock(t: seq<IORequest>)
  {
    forall p, q :: 0 <= p < q < |t| ==> t[p].blockNum <= t[q].blockNum
  }

  /** The subsequence of requests that target block b. */
  function WithBlock(s: seq<IORequest>, b: int): (w: seq<IORequest>)
  {
    if s == [] then []
    else if s[0].blockNum == b then [s[0]] + WithBlock(s[1..], b)
    else WithBlock(s[1..], b)
  }

  lemma {:induction false} InsertByBlockPermutes(x: IORequest, t: seq<IORequest>)
    ensures multiset(InsertByBlock(x, t)) == multiset(t) + multiset{x}
  {
    if t != [] && x.blockNum > t[0].blockNum {
      InsertByBlockPermutes(x, t[1..]);
      assert t == [t[0]] + t[1..];
    }
  }

  lemma {:induction false} InsertByBlockSorted(x: IORequest, t: seq<IORequest>)
    requires SortedByBlock(t)
    ensures SortedByBlock(InsertByBlock(x, t))
  {
    if t != [] && x.blockNum > t[0].blockNum {
      var rest := t[1..];
      InsertByBlockSorted(x, rest);
      InsertByBlockPermutes(x, rest);
      var u := InsertByBlock(x, rest);
      forall q | 0 <= q < |u| ensures t[0].blockNum <= u[q].blockNum {
        assert u[q] in multiset(rest) + multiset{x};
        if u[q] != x {
          var p :| 0 <= p < |rest| && rest[p] == u[q];
          assert rest[p] == t[p + 1];
        }
      }
      assert InsertByBlock(x, t) == [t[0]] + u;
    }
  }

  /** The sorted copy is ordered by block and holds the same requests. */
  lemma {:induction false} SortByBlockSorted(s: seq<IORequest>)
    ensures multiset(SortByBlock(s)) == multiset(s)
    ensures |SortByBlock(s)| == |s|
    ensures SortedByBlock(SortByBlock(s))
  {
    if s != [] {
      SortByBlockSorted(s[1..]);
      InsertByBlockPermutes(s[0], SortByBlock(s[1..]));
      InsertByBlockSorted(s[0], SortByBlock(s[1..]));
      assert s == [s[0]] + s[1..];
    }
    assert |multiset(SortByBlock(s))| == |multiset(s)|;
  }

  lemma {:induction false} InsertByBlockStable(x: IORequest, t: seq<IORequest>, b: int)
    ensures WithBlock(InsertByBlock(x, t), b)
         == if x.blockNum == b then [x] + WithBlock(t, b) else WithBlock(t, b)
  {
    if t == [] {
    } else if x.blockNum <= t[0].blockNum {
      assert ([x] + t)[1..] == t;
    } else {
      InsertByBlockStable(x, t[1..], b);
      assert ([t[0]] + InsertByBlock(x, t[1..]))[1..] == InsertByBlock(x, t[1..]);
    }
  }

  /** Stability: for every block number, the requests with that block appear
      in the sorted copy in the same order as in the input. */
  lemma {:induction false} SortByBlockStable(s: seq<IORequest>, b: int)
    ensures WithBlock(SortByBlock(s), b) == WithBlock(s, b)
  {
    if s != [] {
      SortByBlockStable(s[1..], b);
      InsertByBlockStable(s[0], SortByBlock(s[1..]), b);
    }
  }

  /** If everything before position k has a different block, t[k] heads the
      subsequence of its block. */
  lemma {:induction false} WithBlockHeadAt(t: seq<IORequest>, k: int)
    requires 0 <= k < |t|
    requires forall p :: 0 <= p < k ==> t[p].blockNum != t[k].blockNum
    ensures WithBlock(t, t[k].blockNum) != []
    ensures WithBlock(t, t[k].blockNum)[0] == t[k]
  {
    if k > 0 {
      WithBlockHeadAt(t[1..], k - 1);
    }
  }

  /** The head of the subsequence of block b is the first request with block b. */
  lemma {:induction false} WithBlockHeadIsFirst(s: seq<IORequest>, b: int)
    requires WithBlock(s, b) != []
    ensures exists i :: 0 <= i < |s| && s[i] == WithBlock(s, b)[0] && s[i].blockNum == b
                        && forall j :: 0 <= j < i ==> s[j].blockNum != b
  {
    if s[0].blockNum != b {
      WithBlockHeadIsFirst(s[1..], b);
      var i :| 0 <= i < |s[1..]| && s[1..][i] == WithBlock(s[1..], b)[0] && s[1..][i].blockNum == b
               && forall j :: 0 <= j < i ==> s[1..][j].blockNum != b;
      assert s[i + 1] == WithBlock(s, b)[0];
      forall j | 0 <= j < i + 1 ensures s[j].blockNum != b {
        if j > 0 { assert s[j] == s[1..][j - 1]; }
      }
    } else {
      assert s[0] == WithBlock(s, b)[0];
    }
  }

  /** Main consequence for C-LOOK: if every request sorted before position k of
      the sorted copy has a strictly smaller block, then t[k] is the FIRST
      request of the input (in list order) with block t[k].blockNum. */
  lemma SortedPickIsEarliest(s: seq<IORequest>, k: int)
    requires 0 <= k < |SortByBlock(s)|
    requires forall p :: 0 <= p < k ==> SortByBlock(s)[p].blockNum < SortByBlock(s)[k].blockNum
    ensures exists i :: 0 <= i < |s| && s[i] == SortByBlock(s)[k]
                        && forall j :: 0 <= j < i ==> s[j].blockNum != s[i].blockNum
  {
    var t := SortByBlock(s);
    var b := t[k].blockNum;
    WithBlockHeadAt(t, k);
    SortByBlockStable(s, b);
    WithBlockHeadIsFirst(s, b);
  }
}
