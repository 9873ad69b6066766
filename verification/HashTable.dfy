/** The growing open-addressing hash table of benchmark/tsx/HashTable/hash_table.adb.

    The hash function is a parameter, slots are counted from 0, and the load factor is compared as
    10 * items > 7 * size. */
module HashTable {
  import opened ModArith
  import opened Wrappers

  datatype Pair<K, V> = Pair(used: bool, key: K, value: V)

  // ------------------------------------------------------------ tables as sequences

  /** The slot `d` after `h`, around a table of `n`. */
  function At(h: nat, d: nat, n: nat): nat
    requires h < n && d < n
  {
    if h + d < n then h + d else h + d - n
  }

  /** How far slot `i` is after `h`. */
  function Dist(h: nat, i: nat, n: nat): nat
    requires h < n && i < n
  {
    if h <= i then i - h else i + n - h
  }

  lemma NextSlot(h: nat, d: nat, n: nat)
    requires h < n && d < n
    ensures (At(h, d, n) + 1) % n == if d + 1 < n then At(h, d + 1, n) else h
    ensures d + 1 < n ==> At(h, d + 1, n) != h
  {
  }

  function Home<K>(hash: K -> nat, k: K, n: nat): nat
    requires n > 0
  {
    hash(k) % n
  }

  /** Every pair is found by probing from its home: no free slot lies before it. */
  ghost predicate Probed<K, V>(ps: seq<Pair<K, V>>, hash: K -> nat) {
    forall i, d | 0 <= i < |ps| && ps[i].used && 0 <= d < Dist(Home(hash, ps[i].key, |ps|), i, |ps|) ::
      ps[At(Home(hash, ps[i].key, |ps|), d, |ps|)].used
  }

  ghost predicate Distinct<K, V>(ps: seq<Pair<K, V>>) {
    forall i, j | 0 <= i < j < |ps| && ps[i].used && ps[j].used :: ps[i].key != ps[j].key
  }

  ghost predicate TableOk<K, V>(ps: seq<Pair<K, V>>, hash: K -> nat) { |ps| > 0 && Probed(ps, hash) && Distinct(ps) }

  ghost predicate HasFree<K, V>(ps: seq<Pair<K, V>>) { exists i | 0 <= i < |ps| :: !ps[i].used }

  /** The finite map a table stands for. */
  function Contents<K, V>(ps: seq<Pair<K, V>>): map<K, V> {
    if ps == [] then map[] else
      var n := |ps| - 1;
      var m := Contents(ps[..n]);
      if ps[n].used then m[ps[n].key := ps[n].value] else m
  }

  lemma {:induction false} InContents<K, V>(ps: seq<Pair<K, V>>, i: nat)
    requires Distinct(ps) && i < |ps| && ps[i].used
    ensures ps[i].key in Contents(ps) && Contents(ps)[ps[i].key] == ps[i].value
  {
    var n := |ps| - 1;
    if i < n {
      assert ps[..n][i] == ps[i];
      InContents(ps[..n], i);
    }
  }

  lemma {:induction false} ContentsFrom<K, V>(ps: seq<Pair<K, V>>, k: K) returns (i: nat)
    requires k in Contents(ps)
    ensures i < |ps| && ps[i].used && ps[i].key == k
  {
    var n := |ps| - 1;
    if ps[n].used && ps[n].key == k {
      i := n;
    } else {
      i := ContentsFrom(ps[..n], k);
    }
  }

  /** Tables with the same keys, and the same values for them, stand for the same map. */
  lemma SameContents<K, V>(m: map<K, V>, m': map<K, V>)
    requires forall k | k in m :: k in m' && m'[k] == m[k]
    requires forall k | k in m' :: k in m
    ensures m == m'
  {
  }

  /** Writing a pair to a slot that is free or has its key. */
  lemma PutContents<K, V>(ps: seq<Pair<K, V>>, i: nat, k: K, v: V)
    requires Distinct(ps) && i < |ps|
    requires if ps[i].used then ps[i].key == k else k !in Contents(ps)
    ensures Distinct(ps[i := Pair(true, k, v)])
    ensures Contents(ps[i := Pair(true, k, v)]) == Contents(ps)[k := v]
  {
    var ps' := ps[i := Pair(true, k, v)];
    forall j | 0 <= j < |ps| && ps[j].used && j != i
      ensures ps[j].key != k
    {
      InContents(ps, j);
    }
    assert Distinct(ps');
    forall x | x in Contents(ps)[k := v]
      ensures x in Contents(ps') && Contents(ps')[x] == Contents(ps)[k := v][x]
    {
      if x == k {
        InContents(ps', i);
      } else {
        var j := ContentsFrom(ps, x);
        InContents(ps, j);
        InContents(ps', j);
      }
    }
    forall x | x in Contents(ps')
      ensures x in Contents(ps)[k := v]
    {
      var j := ContentsFrom(ps', x);
      if j != i {
        InContents(ps, j);
      }
    }
    SameContents(Contents(ps)[k := v], Contents(ps'));
  }

  /** There is a free slot exactly when fewer pairs than slots are stored. */
  lemma {:induction false} FreeIff<K, V>(ps: seq<Pair<K, V>>)
    requires Distinct(ps)
    ensures |Contents(ps)| <= |ps|
    ensures HasFree(ps) <==> |Contents(ps)| < |ps|
  {
    if ps != [] {
      var n := |ps| - 1;
      FreeIff(ps[..n]);
      if ps[n].used {
        if ps[n].key in Contents(ps[..n]) {
          var j := ContentsFrom(ps[..n], ps[n].key);
          assert false;
        }
        assert HasFree(ps) ==> HasFree(ps[..n]) by {
          if i :| 0 <= i < |ps| && !ps[i].used {
            assert !ps[..n][i].used;
          }
        }
        assert HasFree(ps[..n]) ==> HasFree(ps) by {
          if i :| 0 <= i < n && !ps[..n][i].used {
            assert !ps[i].used;
          }
        }
      }
    }
  }

  /** What `Find_Slot` returns: the first slot from the home of `k` that is free or has key `k`. */
  ghost predicate Finds<K, V>(ps: seq<Pair<K, V>>, hash: K -> nat, k: K, d: nat) {
    && d < |ps|
    && (forall e | 0 <= e < d ::
          ps[At(Home(hash, k, |ps|), e, |ps|)].used && ps[At(Home(hash, k, |ps|), e, |ps|)].key != k)
    && var p := ps[At(Home(hash, k, |ps|), d, |ps|)]; !p.used || p.key == k
  }

  /** The slot `d` after that of the hash `h`, around a table of `n`. */
  function Slot(h: nat, d: nat, n: nat): (i: nat)
    requires n > 0
    ensures i < n
  {
    (h + d) % n
  }

  /** In terms of the hash: slot `i` is the first that is free or has key `k`, counting from slot `h mod n` and around
      the table. */
  ghost predicate Probes<K, V>(ps: seq<Pair<K, V>>, h: nat, k: K, d: nat, i: nat) {
    && d < |ps| && i == Slot(h, d, |ps|) && (!ps[i].used || ps[i].key == k)
    && (forall e | 0 <= e < d :: ps[Slot(h, e, |ps|)].used && ps[Slot(h, e, |ps|)].key != k)
  }

  lemma AtIsSlot(h: nat, d: nat, n: nat)
    requires d < n
    ensures Slot(h, d, n) == At(h % n, d, n)
  {
    if h % n + d < n {
      AddMod(h, d, n);
    } else {
      OverMod(h, d, n);
    }
  }

  lemma FindsProbes<K, V>(ps: seq<Pair<K, V>>, hash: K -> nat, k: K, d: nat)
    requires Finds(ps, hash, k, d)
    ensures Probes(ps, hash(k), k, d, At(Home(hash, k, |ps|), d, |ps|))
  {
    AtIsSlot(hash(k), d, |ps|);
    forall e | 0 <= e < d
      ensures ps[Slot(hash(k), e, |ps|)].used && ps[Slot(hash(k), e, |ps|)].key != k
    {
      AtIsSlot(hash(k), e, |ps|);
    }
  }

  /** A stored key is found before any free slot. */
  lemma StoredIsFound<K, V>(ps: seq<Pair<K, V>>, hash: K -> nat, k: K, d: nat)
    requires TableOk(ps, hash) && Finds(ps, hash, k, d) && k in Contents(ps)
    ensures ps[At(Home(hash, k, |ps|), d, |ps|)].used
  {
    var h := Home(hash, k, |ps|);
    var j := ContentsFrom(ps, k);
    assert At(h, Dist(h, j, |ps|), |ps|) == j;
  }

  /** The slot found tells whether the key is stored, and where. */
  lemma FoundIffStored<K, V>(ps: seq<Pair<K, V>>, hash: K -> nat, k: K, d: nat)
    requires TableOk(ps, hash) && Finds(ps, hash, k, d)
    ensures var p := ps[At(Home(hash, k, |ps|), d, |ps|)];
            (p.used <==> k in Contents(ps)) && (p.used ==> Contents(ps)[k] == p.value)
  {
    var i := At(Home(hash, k, |ps|), d, |ps|);
    if ps[i].used {
      InContents(ps, i);
    }
    if k in Contents(ps) {
      StoredIsFound(ps, hash, k, d);
    }
  }

  /** Filling the slot found keeps all pairs findable. */
  lemma PutProbed<K, V>(ps: seq<Pair<K, V>>, hash: K -> nat, k: K, v: V, d: nat)
    requires TableOk(ps, hash) && Finds(ps, hash, k, d)
    ensures Probed(ps[At(Home(hash, k, |ps|), d, |ps|) := Pair(true, k, v)], hash)
  {
    var h := Home(hash, k, |ps|);
    var i := At(h, d, |ps|);
    var ps' := ps[i := Pair(true, k, v)];
    assert Dist(h, i, |ps|) == d;
    forall j, e | 0 <= j < |ps'| && ps'[j].used && 0 <= e < Dist(Home(hash, ps'[j].key, |ps'|), j, |ps'|)
      ensures ps'[At(Home(hash, ps'[j].key, |ps'|), e, |ps'|)].used
    {
      if j != i {
        assert ps[j] == ps'[j];
      }
    }
  }

  lemma PutTable<K, V>(ps: seq<Pair<K, V>>, hash: K -> nat, k: K, v: V, d: nat)
    requires TableOk(ps, hash) && Finds(ps, hash, k, d)
    ensures var ps' := ps[At(Home(hash, k, |ps|), d, |ps|) := Pair(true, k, v)];
            TableOk(ps', hash) && Contents(ps') == Contents(ps)[k := v]
  {
    FoundIffStored(ps, hash, k, d);
    PutProbed(ps, hash, k, v, d);
    PutContents(ps, At(Home(hash, k, |ps|), d, |ps|), k, v);
  }

  /** A probe that comes round has seen all slots. */
  lemma AllSeen<K, V>(ps: seq<Pair<K, V>>, hash: K -> nat, k: K)
    requires |ps| > 0
    requires forall e | 0 <= e < |ps| ::
               ps[At(Home(hash, k, |ps|), e, |ps|)].used && ps[At(Home(hash, k, |ps|), e, |ps|)].key != k
    ensures !HasFree(ps) && k !in Contents(ps)
  {
    var h := Home(hash, k, |ps|);
    forall i | 0 <= i < |ps|
      ensures ps[i].used && ps[i].key != k
    {
      assert At(h, Dist(h, i, |ps|), |ps|) == i;
    }
    if k in Contents(ps) {
      var j := ContentsFrom(ps, k);
    }
  }

  lemma {:induction false} AllBlank<K, V>(ps: seq<Pair<K, V>>)
    requires forall i | 0 <= i < |ps| :: !ps[i].used
    ensures Contents(ps) == map[]
  {
    if ps != [] {
      AllBlank(ps[..|ps| - 1]);
    }
  }

  // ------------------------------------------------------------ the class

  class GrowingHashmap<K(==), V> {
    const hash: K -> nat
    /** What freshly allocated memory holds. */
    const blank: Pair<K, V>
    var pairs: array<Pair<K, V>>
    var mapSize: nat
    var itemNum: nat
    var resizing: bool

    ghost predicate Valid()
      reads this, pairs
    {
      mapSize == pairs.Length && !blank.used && !resizing && TableOk(pairs[..], hash)
    }

    ghost function Map(): map<K, V>
      reads this, pairs
    {
      Contents(pairs[..])
    }

    /** Enough has been counted, and grown for, that probing meets a free slot. */
    ghost predicate HasRoom()
      reads this, pairs
    {
      && Valid()
      && mapSize >= 4 && |Map()| <= itemNum && 10 * itemNum <= 7 * mapSize + 10
    }

    lemma RoomIsFree()
      requires HasRoom()
      ensures HasFree(pairs[..])
    {
      FreeIff(pairs[..]);
    }

    /** `Init`. */
    constructor (n: nat, hash: K -> nat, blank: Pair<K, V>)
      requires n > 0 && !blank.used
      ensures Valid() && fresh(pairs) && this.hash == hash
      ensures Map() == map[] && mapSize == n && itemNum == 0
      ensures n >= 4 ==> HasRoom()
    {
      this.hash := hash;
      this.blank := blank;
      itemNum := 0;
      mapSize := n;
      pairs := new Pair<K, V>[n](_ => blank);
      resizing := false;
      new;
      AllBlank(pairs[..]);
    }

    method FindSlot(k: K) returns (index: Option<nat>)
      requires pairs.Length == mapSize > 0
      ensures index.None? ==> !HasFree(pairs[..]) && k !in Map()
      ensures index.Some? ==>
        exists d: nat :: Finds(pairs[..], hash, k, d) && index.value == At(Home(hash, k, mapSize), d, mapSize)
      ensures index.Some? ==> exists d: nat :: Probes(pairs[..], hash(k), k, d, index.value)
    {
      var start := hash(k) % mapSize;
      var i := start;
      ghost var d := 0;
      while true
        invariant 0 <= d < mapSize && i == At(start, d, mapSize)
        invariant forall e | 0 <= e < d :: pairs[At(start, e, mapSize)].used && pairs[At(start, e, mapSize)].key != k
        decreases mapSize - d
      {
        if !pairs[i].used || pairs[i].key == k {
          assert Finds(pairs[..], hash, k, d);
          FindsProbes(pairs[..], hash, k, d);
          return Some(i);
        }
        NextSlot(start, d, mapSize);
        i := (i + 1) % mapSize;
        if i == start {
          AllSeen(pairs[..], hash, k);
          return None;
        }
        d := d + 1;
      }
    }

    /** `Second_Insert`; a failing `Assert` in `Find_Slot` is the result false. */
    method SecondInsert(k: K, v: V) returns (ok: bool)
      requires Valid()
      modifies pairs
      ensures Valid()
      ensures ok <==> old(HasFree(pairs[..])) || k in old(Map())
      ensures Map() == if ok then old(Map())[k := v] else old(Map())
    {
      var index := FindSlot(k);
      if index.None? {
        return false;
      }
      ghost var ps := pairs[..];
      ghost var d: nat :| Finds(ps, hash, k, d) && index.value == At(Home(hash, k, mapSize), d, mapSize);
      FoundIffStored(ps, hash, k, d);
      PutTable(ps, hash, k, v, d);
      if pairs[index.value].used {
        pairs[index.value] := Pair(true, pairs[index.value].key, v);
      } else {
        pairs[index.value] := Pair(true, k, v);
      }
      assert pairs[..] == ps[index.value := Pair(true, k, v)];
      ok := true;
    }

    /** `Lookup`; the outer None is the failing `Assert`, the inner one the answer False. */
    method Lookup(k: K) returns (res: Option<Option<V>>)
      requires Valid()
      ensures res.None? <==> !HasFree(pairs[..]) && k !in Map()
      ensures res.Some? ==> res.value == if k in Map() then Some(Map()[k]) else None
      ensures HasRoom() ==> res.Some?
    {
      if HasRoom() {
        RoomIsFree();
      }
      var index := FindSlot(k);
      if index.None? {
        return None;
      }
      ghost var d: nat :| Finds(pairs[..], hash, k, d) && index.value == At(Home(hash, k, mapSize), d, mapSize);
      FoundIffStored(pairs[..], hash, k, d);
      if !pairs[index.value].used {
        res := Some(None);
      } else {
        res := Some(Some(pairs[index.value].value));
      }
    }

    /** `Clean`: the item counter stays as it is. */
    method Clean()
      requires Valid()
      modifies pairs
      ensures Valid() && Map() == map[]
      ensures old(HasRoom()) ==> HasRoom()
    {
      for i := 0 to mapSize
        invariant forall j | 0 <= j < i :: !pairs[j].used
      {
        if pairs[i].used {
          pairs[i] := Pair(false, pairs[i].key, pairs[i].value);
        }
      }
      AllBlank(pairs[..]);
    }

    /** `Check_Resize`: the branch of a key already there when a pair is moved is never taken, nor does
        `Find_Slot` fail. */
    method CheckResize() returns (corrupt: bool)
      requires Valid()
      modifies this`pairs, this`mapSize, this`resizing
      ensures Valid() && !corrupt
      ensures Map() == old(Map())
      ensures mapSize == if 10 * itemNum > 7 * old(mapSize) then 2 * old(mapSize) else old(mapSize)
      ensures pairs == old(pairs) || fresh(pairs)
    {
      corrupt := false;
      if 10 * itemNum > 7 * mapSize {
        resizing := true;
        mapSize := mapSize * 2;
        var oldPairs := pairs;
        pairs := new Pair<K, V>[mapSize](_ => blank);
        AllBlank(pairs[..]);
        ghost var ps := oldPairs[..];
        assert ps[..0] == [];
        for i := 0 to mapSize / 2
          invariant fresh(pairs) && pairs.Length == mapSize == 2 * |ps| && oldPairs[..] == ps && !corrupt
          invariant TableOk(pairs[..], hash) && Contents(pairs[..]) == Contents(ps[..i])
        {
          PrefixNext(ps, i);
          if oldPairs[i].used {
            NewToPrefix(ps, i);
            FreeIff(pairs[..]);
            hide TableOk, Contents, HasFree;
            var index := FindSlot(oldPairs[i].key);
            if index.None? {
              corrupt := true;
            } else {
              ghost var now := pairs[..];
              ghost var d: nat :|
                Finds(now, hash, ps[i].key, d) && index.value == At(Home(hash, ps[i].key, mapSize), d, mapSize);
              FoundIffStored(now, hash, ps[i].key, d);
              PutTable(now, hash, ps[i].key, ps[i].value, d);
              if pairs[index.value].used {
                corrupt := true;
              } else {
                pairs[index.value] := oldPairs[i];
                assert pairs[..] == now[index.value := Pair(true, ps[i].key, ps[i].value)];
              }
            }
          }
        }
        assert ps[..|ps|] == ps;
        resizing := false;
      }
    }

    /** `g_First_Insert`. */
    method FirstInsert() returns (corrupt: bool)
      requires Valid()
      modifies this`pairs, this`mapSize, this`resizing, this`itemNum
      ensures Valid() && !corrupt
      ensures Map() == old(Map()) && itemNum == old(itemNum) + 1
      ensures mapSize == if 10 * old(itemNum) > 7 * old(mapSize) then 2 * old(mapSize) else old(mapSize)
      ensures pairs == old(pairs) || fresh(pairs)
    {
      corrupt := CheckResize();
      itemNum := itemNum + 1;
    }

    /** An insertion as one task makes it: `g_First_Insert`, then `Second_Insert`. */
    method CountedInsert(k: K, v: V) returns (ok: bool)
      requires HasRoom()
      modifies this`pairs, this`mapSize, this`resizing, this`itemNum, pairs
      ensures HasRoom() && ok && Map() == old(Map())[k := v]
      ensures pairs == old(pairs) || fresh(pairs)
    {
      var corrupt := FirstInsert();
      assert HasFree(pairs[..]) by {
        FreeIff(pairs[..]);
      }
      ok := SecondInsert(k, v);
      PutSize(old(Map()), k, v);
    }
  }

  lemma PutSize<K, V>(m: map<K, V>, k: K, v: V)
    ensures |m[k := v]| == |m| + if k in m then 0 else 1
  {
    assert m[k := v].Keys == m.Keys + {k};
    assert |m[k := v]| == |m[k := v].Keys|;
  }

  lemma PrefixNext<K, V>(ps: seq<Pair<K, V>>, i: nat)
    requires i < |ps|
    ensures Contents(ps[..i + 1])
            == if ps[i].used then Contents(ps[..i])[ps[i].key := ps[i].value] else Contents(ps[..i])
  {
    assert ps[..i + 1][..i] == ps[..i];
  }

  /** The next pair to move is not in the part already moved, which is smaller than the old table. */
  lemma NewToPrefix<K, V>(ps: seq<Pair<K, V>>, i: nat)
    requires Distinct(ps) && i < |ps| && ps[i].used
    ensures ps[i].key !in Contents(ps[..i]) && |Contents(ps[..i])| <= i
  {
    assert Distinct(ps[..i]);
    FreeIff(ps[..i]);
    if ps[i].key in Contents(ps[..i]) {
      var j := ContentsFrom(ps[..i], ps[i].key);
      assert false;
    }
  }
}
