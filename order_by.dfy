/** Ordering of published positions by `tokenId` (a stable sort, as lodash's `orderBy` is).
    Two orders are modelled: the numeric order the published list is meant to follow, and the
    order the source's call actually gets, where `tokenId` is an ethers BigNumber object and
    lodash's `<`/`>` comparison of two such objects compares their decimal strings. */
module OrderBy {
  import opened Types

  datatype Order = Numeric | DecimalText

  /** JavaScript's `a <= b` on strings: lexicographic on code units. */
  predicate TextLe(a: string, b: string)
  {
    if a == [] then true
    else if b == [] then false
    else if a[0] != b[0] then a[0] < b[0]
    else TextLe(a[1..], b[1..])
  }

  /** Whether token id `x` may be placed before token id `y`. */
  predicate Le(o: Order, x: TokenId, y: TokenId)
  {
    match o
    case Numeric => x <= y
    case DecimalText => TextLe(Decimal(x), Decimal(y))
  }

  lemma {:induction false} TextLeReflexive(a: string)
    ensures TextLe(a, a)
  {
    if a != [] {
      TextLeReflexive(a[1..]);
    }
  }

  lemma LeReflexive(o: Order, x: TokenId)
    ensures Le(o, x, x)
  {
    if o.DecimalText? {
      TextLeReflexive(Decimal(x));
    }
  }

  /** Places `x` before the first element it may precede: ahead of every element with an equal key. */
  function Insert(o: Order, x: LiquidityPosition, r: seq<LiquidityPosition>): seq<LiquidityPosition>
  {
    if r == [] || Le(o, x.tokenId, r[0].tokenId) then [x] + r
    else [r[0]] + Insert(o, x, r[1..])
  }

  /** `_orderBy(s, 'tokenId')` under order `o`. */
  function Sort(o: Order, s: seq<LiquidityPosition>): seq<LiquidityPosition>
  {
    if s == [] then [] else Insert(o, s[0], Sort(o, s[1..]))
  }

  /** The positions of `s` whose token id is `t`, in their order in `s`. */
  function WithId(s: seq<LiquidityPosition>, t: TokenId): seq<LiquidityPosition>
  {
    if s == [] then []
    else (if s[0].tokenId == t then [s[0]] else []) + WithId(s[1..], t)
  }

  ghost predicate SortedByTokenId(s: seq<LiquidityPosition>)
  {
    forall i, j | 0 <= i < j < |s| :: s[i].tokenId <= s[j].tokenId
  }

  lemma {:induction false} InsertPermutes(o: Order, x: LiquidityPosition, r: seq<LiquidityPosition>)
    ensures multiset(Insert(o, x, r)) == multiset(r) + multiset{x}
  {
    if r == [] || Le(o, x.tokenId, r[0].tokenId) {
    } else {
      InsertPermutes(o, x, r[1..]);
      assert r == [r[0]] + r[1..];
    }
  }

  /** Sorting only reorders: the result holds the same positions, as often. */
  lemma {:induction false} SortPermutes(o: Order, s: seq<LiquidityPosition>)
    ensures multiset(Sort(o, s)) == multiset(s)
    ensures |Sort(o, s)| == |s|
  {
    if s != [] {
      SortPermutes(o, s[1..]);
      InsertPermutes(o, s[0], Sort(o, s[1..]));
      assert s == [s[0]] + s[1..];
    }
    assert |multiset(Sort(o, s))| == |multiset(s)|;
  }

  lemma {:induction false} WithIdAppend(a: seq<LiquidityPosition>, b: seq<LiquidityPosition>, t: TokenId)
    ensures WithId(a + b, t) == WithId(a, t) + WithId(b, t)
  {
    if a != [] {
      WithIdAppend(a[1..], b, t);
      assert (a + b)[1..] == a[1..] + b;
    } else {
      assert a + b == b;
    }
  }

  lemma {:induction false} InsertKeepsTies(o: Order, x: LiquidityPosition, r: seq<LiquidityPosition>, t: TokenId)
    ensures WithId(Insert(o, x, r), t) == (if x.tokenId == t then [x] else []) + WithId(r, t)
  {
    if r == [] || Le(o, x.tokenId, r[0].tokenId) {
      assert ([x] + r)[1..] == r;
    } else {
      LeReflexive(o, x.tokenId);
      assert r[0].tokenId != x.tokenId;
      InsertKeepsTies(o, x, r[1..], t);
      assert ([r[0]] + Insert(o, x, r[1..]))[1..] == Insert(o, x, r[1..]);
    }
  }

  /** Stability: positions with the same token id keep their relative order. */
  lemma {:induction false} SortStable(o: Order, s: seq<LiquidityPosition>, t: TokenId)
    ensures WithId(Sort(o, s), t) == WithId(s, t)
  {
    if s != [] {
      SortStable(o, s[1..], t);
      InsertKeepsTies(o, s[0], Sort(o, s[1..]), t);
    }
  }

  lemma {:induction false} InsertSorted(x: LiquidityPosition, r: seq<LiquidityPosition>)
    requires SortedByTokenId(r)
    ensures SortedByTokenId(Insert(Numeric, x, r))
  {
    if r == [] || x.tokenId <= r[0].tokenId {
    } else {
      InsertSorted(x, r[1..]);
      var rest := Insert(Numeric, x, r[1..]);
      InsertPermutes(Numeric, x, r[1..]);
      forall k | 0 <= k < |rest| ensures r[0].tokenId <= rest[k].tokenId {
        assert rest[k] in multiset(rest);
        if rest[k] != x {
          assert rest[k] in multiset(r[1..]);
          var m :| 0 <= m < |r[1..]| && r[1..][m] == rest[k];
          assert r[m + 1] == rest[k];
        }
      }
    }
  }

  /** Under the numeric order the result is ascending by token id. */
  lemma {:induction false} SortSorted(s: seq<LiquidityPosition>)
    ensures SortedByTokenId(Sort(Numeric, s))
  {
    if s != [] {
      SortSorted(s[1..]);
      InsertSorted(s[0], Sort(Numeric, s[1..]));
    }
  }

  /** Under the decimal-text order the source actually gets, token 10 is placed before token 9. */
  lemma DecimalTextMisorders(owner: Address)
    ensures Sort(DecimalText, [LiquidityPosition(9, owner), LiquidityPosition(10, owner)])
            == [LiquidityPosition(10, owner), LiquidityPosition(9, owner)]
    ensures !SortedByTokenId(Sort(DecimalText, [LiquidityPosition(9, owner), LiquidityPosition(10, owner)]))
  {
    assert Decimal(9) == "9";
    assert Decimal(10) == Decimal(1) + [Digit(0)] == "10";
    assert !TextLe("9", "10");
    var p9, p10 := LiquidityPosition(9, owner), LiquidityPosition(10, owner);
    assert Sort(DecimalText, [p10]) == Insert(DecimalText, p10, []) == [p10];
    assert [p9, p10][1..] == [p10];
    assert Insert(DecimalText, p9, [p10]) == [p10] + Insert(DecimalText, p9, []);
    var r := Sort(DecimalText, [p9, p10]);
    assert r[0].tokenId == 10 && r[1].tokenId == 9;
  }
}
