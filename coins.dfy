/**
  The coin queries behind `getbalance` and `getutxos`: LINQ `Where`, `Sum` and `Select`
  over a wallet's coin sequence.
 */
module CoinQueries {
  import opened Payloads

  /** The coins satisfying `p`, in their original order. */
  function Where(coins: seq<Coin>, p: Coin -> bool): (r: seq<Coin>)
    ensures |r| <= |coins|
    ensures forall c :: c in r ==> c in coins && p(c)
    ensures forall i :: 0 <= i < |coins| && p(coins[i]) ==> coins[i] in r
    decreases |coins|
  {
    if |coins| == 0 then []
    else (if p(coins[0]) then [coins[0]] else []) + Where(coins[1..], p)
  }

  /** Filtering commutes with concatenation, so `Where` keeps the original order. */
  lemma {:induction false} WhereAppend(a: seq<Coin>, b: seq<Coin>, p: Coin -> bool)
    ensures Where(a + b, p) == Where(a, p) + Where(b, p)
    decreases |a|
  {
    if |a| == 0 {
      assert a + b == b;
    } else {
      assert (a + b)[0] == a[0];
      assert (a + b)[1..] == a[1..] + b;
      WhereAppend(a[1..], b, p);
    }
  }

  /** Filtering twice is filtering by the conjunction. */
  lemma {:induction false} WhereWhere(coins: seq<Coin>, p: Coin -> bool, q: Coin -> bool)
    ensures Where(Where(coins, p), q) == Where(coins, Both(p, q))
    decreases |coins|
  {
    if |coins| > 0 {
      var w := Where(coins[1..], p);
      WhereWhere(coins[1..], p, q);
      var c := coins[0];
      if p(c) {
        assert Where(coins, p) == [c] + w;
        WhereAppend([c], w, q);
        assert [c][1..] == [];
        assert Where([c], q) == if q(c) then [c] else [];
        assert Both(p, q)(c) == q(c);
      } else {
        assert [] + w == w;
        assert Where(coins, p) == w;
        assert !Both(p, q)(c);
      }
    }
  }

  function Both(p: Coin -> bool, q: Coin -> bool): Coin -> bool {
    (c: Coin) => p(c) && q(c)
  }

  function Not(p: Coin -> bool): Coin -> bool {
    (c: Coin) => !p(c)
  }

  /** The total output value of the coins: zero for none, and never negative when no value is. */
  function Sum(coins: seq<Coin>): (r: int)
    ensures |coins| == 0 ==> r == 0
    ensures NonNegative(coins) ==> r >= 0
    decreases |coins|
  {
    if |coins| == 0 then 0 else coins[0].output.value + Sum(coins[1..])
  }

  lemma {:induction false} SumAppend(a: seq<Coin>, b: seq<Coin>)
    ensures Sum(a + b) == Sum(a) + Sum(b)
    decreases |a|
  {
    if |a| == 0 {
      assert a + b == b;
    } else {
      assert (a + b)[0] == a[0];
      assert (a + b)[1..] == a[1..] + b;
      SumAppend(a[1..], b);
    }
  }

  /** Every coin is counted either among those satisfying `q` or among the rest. */
  lemma {:induction false} SumPartition(coins: seq<Coin>, q: Coin -> bool)
    ensures Sum(Where(coins, q)) + Sum(Where(coins, Not(q))) == Sum(coins)
    decreases |coins|
  {
    if |coins| > 0 {
      var c := coins[0];
      SumPartition(coins[1..], q);
      SumAppend(if q(c) then [c] else [], Where(coins[1..], q));
      SumAppend(if Not(q)(c) then [c] else [], Where(coins[1..], Not(q)));
    }
  }

  ghost predicate NonNegative(coins: seq<Coin>) {
    forall i :: 0 <= i < |coins| ==> coins[i].output.value >= 0
  }

  lemma {:induction false} WhereNonNegative(coins: seq<Coin>, p: Coin -> bool)
    requires NonNegative(coins)
    ensures NonNegative(Where(coins, p))
  {
    var w := Where(coins, p);
    forall i | 0 <= i < |w| ensures w[i].output.value >= 0 {
      assert w[i] in w;
      var j :| 0 <= j < |coins| && coins[j] == w[i];
    }
  }

  /** With values that are never negative, a filtered sum never exceeds the whole sum. */
  lemma SumWhereAtMost(coins: seq<Coin>, q: Coin -> bool)
    requires NonNegative(coins)
    ensures Sum(Where(coins, q)) <= Sum(coins)
  {
    SumPartition(coins, q);
    WhereNonNegative(coins, Not(q));
  }

  /** The references of the coins, one per coin and in the same order. */
  function Refs(coins: seq<Coin>): (r: seq<CoinReference>)
    ensures |r| == |coins|
    ensures forall i :: 0 <= i < |coins| ==> r[i] == coins[i].reference
    decreases |coins|
  {
    if |coins| == 0 then [] else [coins[0].reference] + Refs(coins[1..])
  }

  lemma RefsAppend(a: seq<Coin>, b: seq<Coin>)
    ensures Refs(a + b) == Refs(a) + Refs(b)
  {
  }

  /** Not spent and of `asset`: the coins `getbalance` adds up. */
  function UnspentOf(asset: UInt256): Coin -> bool {
    (c: Coin) => !c.state.spent && c.output.assetId == asset
  }

  function IsConfirmed(): Coin -> bool {
    (c: Coin) => c.state.confirmed
  }

  /** Of `asset`, whoever owns it. */
  function OfAsset(asset: UInt256): Coin -> bool {
    (c: Coin) => c.output.assetId == asset
  }

  /** Of `asset` and owned by `owner`: the coins `getutxos` lists. */
  function HeldBy(asset: UInt256, owner: UInt160): Coin -> bool {
    (c: Coin) => c.output.assetId == asset && c.output.scriptHash == owner
  }

  /** The `balance` of a global asset: its confirmed part plus the unspent coins that are not confirmed. */
  function Balance(coins: seq<Coin>, asset: UInt256): (r: int)
    ensures r == ConfirmedBalance(coins, asset) + Sum(Where(Where(coins, UnspentOf(asset)), Not(IsConfirmed())))
  {
    SumPartition(Where(coins, UnspentOf(asset)), IsConfirmed());
    Sum(Where(coins, UnspentOf(asset)))
  }

  /** The `confirmed` balance: the sum over the coins that are unspent, of the asset, and confirmed. */
  function ConfirmedBalance(coins: seq<Coin>, asset: UInt256): (r: int)
    ensures r == Sum(Where(coins, Both(UnspentOf(asset), IsConfirmed())))
  {
    WhereWhere(coins, UnspentOf(asset), IsConfirmed());
    Sum(Where(Where(coins, UnspentOf(asset)), IsConfirmed()))
  }

  /** With values that are never negative, the confirmed balance never exceeds the balance. */
  lemma ConfirmedAtMostBalance(coins: seq<Coin>, asset: UInt256)
    requires NonNegative(coins)
    ensures ConfirmedBalance(coins, asset) <= Balance(coins, asset)
  {
    WhereNonNegative(coins, UnspentOf(asset));
    SumWhereAtMost(Where(coins, UnspentOf(asset)), IsConfirmed());
  }

  /** The references of the coins satisfying `p` are those of every such coin, and of no other. */
  lemma RefsWhere(coins: seq<Coin>, p: Coin -> bool)
    ensures forall i :: 0 <= i < |coins| && p(coins[i]) ==> coins[i].reference in Refs(Where(coins, p))
    ensures forall x :: x in Refs(Where(coins, p)) ==> exists c :: c in coins && p(c) && c.reference == x
  {
    var held := Where(coins, p);
    var r := Refs(held);
    forall i | 0 <= i < |coins| && p(coins[i])
      ensures coins[i].reference in r
    {
      var k :| 0 <= k < |held| && held[k] == coins[i];
      assert r[k] == coins[i].reference;
    }
    forall x | x in r
      ensures exists c :: c in coins && p(c) && c.reference == x
    {
      var k :| 0 <= k < |r| && r[k] == x;
      assert held[k] in held;
    }
  }

  /** The references `getutxos` lists: every coin of `asset` owned by `owner`, and nothing else. */
  function Utxos(coins: seq<Coin>, asset: UInt256, owner: UInt160): (r: seq<CoinReference>)
    ensures forall i :: 0 <= i < |coins| && coins[i].output.assetId == asset && coins[i].output.scriptHash == owner
              ==> coins[i].reference in r
    ensures forall x :: x in r ==>
              exists c :: c in coins && c.output.assetId == asset && c.output.scriptHash == owner && c.reference == x
  {
    RefsWhere(coins, HeldBy(asset, owner));
    Refs(Where(coins, HeldBy(asset, owner)))
  }

  /** The listing keeps the wallet's order: it is computed piecewise over a concatenation. */
  lemma UtxosAppend(a: seq<Coin>, b: seq<Coin>, asset: UInt256, owner: UInt160)
    ensures Utxos(a + b, asset, owner) == Utxos(a, asset, owner) + Utxos(b, asset, owner)
  {
    WhereAppend(a, b, HeldBy(asset, owner));
    RefsAppend(Where(a, HeldBy(asset, owner)), Where(b, HeldBy(asset, owner)));
  }

  /** One coin is listed exactly when it is of the asset and owned by the address. */
  lemma UtxosSingle(c: Coin, asset: UInt256, owner: UInt160)
    ensures Utxos([c], asset, owner)
         == if c.output.assetId == asset && c.output.scriptHash == owner then [c.reference] else []
  {
    assert [c][1..] == [];
  }
}
