/** The configuration dictionary (common/iniparser/dictionary.c): parallel arrays of keys,
    values and hashes that behave as a map from keys to optional values. */
module Dictionary {
  import opened Common

  type Text = seq<bv8>

  const DICTMINSZ: nat := 128

  // ------------------------------------------------------------------ hashing

  /** An unsigned int of 32 bits, wrapping around. */
  datatype Word = Word(bits: bv32)

  /** A char of the platforms the original runs on is signed. */
  function Plus(h: Word, c: bv8): Word {
    Word(h.bits + if c < 128 then c as bv32 else 0xFFFF_FF00 | (c as bv32))
  }

  function AddShifted(h: Word, k: nat): Word
    requires k <= 32
  {
    Word(h.bits + (h.bits << k))
  }

  function XorShifted(h: Word, k: nat): Word
    requires k <= 32
  {
    Word(h.bits ^ (h.bits >> k))
  }

  function MixAll(key: Text): Word {
    if key == [] then Word(0)
    else XorShifted(AddShifted(Plus(MixAll(key[..|key| - 1]), key[|key| - 1]), 10), 6)
  }

  function Hash(key: Text): Word { AddShifted(XorShifted(AddShifted(MixAll(key), 3), 11), 15) }

  /** dictionary_hash */
  method DictionaryHash(key: Text) returns (hash: Word)
    ensures hash == Hash(key)
  {
    hash := Word(0);
    var i := 0;
    while i < |key|
      invariant 0 <= i <= |key| && hash == MixAll(key[..i])
    {
      assert key[..i + 1][..i] == key[..i];
      hash := Plus(hash, key[i]);
      hash := AddShifted(hash, 10);
      hash := XorShifted(hash, 6);
      i := i + 1;
    }
    assert key[..i] == key;
    hash := AddShifted(hash, 3);
    hash := XorShifted(hash, 11);
    hash := AddShifted(hash, 15);
  }

  /** One more character, as the loop mixes it in. */
  lemma MixNext(key: Text, c: bv8)
    ensures MixAll(key + [c]) == XorShifted(AddShifted(Plus(MixAll(key), c), 10), 6)
  {
    assert (key + [c])[..|key|] == key;
  }

  lemma KnownMixes()
    ensures MixAll([0x61]) == Word(0x0001_8270) && MixAll([0x61, 0x62]) == Word(0x0614_F9F9)
  {
    MixNext([], 0x61);
    MixNext([0x61], 0x62);
    assert [] + [0x61] == [0x61] && [0x61] + [0x62] == [0x61, 0x62];
  }

  lemma NegativeMix()
    ensures MixAll([0xE9]) == Word(0xFC00_5D66)
  {
    MixNext([], 0xE9);
    assert [] + [0xE9] == [0xE9];
  }

  /** Hashes of the empty key, of "a", of "ab", and of a character that is negative as a char. */
  lemma KnownHashes()
    ensures Hash([]) == Word(0) && Hash([0x61]) == Word(0xCA2E_9442)
    ensures Hash([0x61, 0x62]) == Word(0x45E6_1E58) && Hash([0xE9]) == Word(0x4098_48FF)
  {
    KnownMixes();
    NegativeMix();
  }

  // ------------------------------------------------------------------ what the arrays stand for

  predicate Unique(keys: seq<Option<Text>>) {
    forall i, j :: 0 <= i < j < |keys| && keys[i].Some? ==> keys[i] != keys[j]
  }

  predicate Hashed(keys: seq<Option<Text>>, hashes: seq<Word>) {
    |keys| == |hashes| && forall i :: 0 <= i < |keys| && keys[i].Some? ==> hashes[i] == Hash(keys[i].value)
  }

  lemma HashedAt(keys: seq<Option<Text>>, hashes: seq<Word>, i: nat)
    requires Hashed(keys, hashes) && i < |keys| && keys[i].Some?
    ensures hashes[i] == Hash(keys[i].value)
  {
  }

  lemma HashedUpdate(keys: seq<Option<Text>>, hashes: seq<Word>, i: nat, k: Option<Text>, h: Word)
    requires Hashed(keys, hashes) && i < |keys| && (k.Some? ==> h == Hash(k.value))
    ensures Hashed(keys[i := k], hashes[i := h])
  {
  }

  function Occupied(keys: seq<Option<Text>>): (n: nat)
    ensures n <= |keys|
  {
    if keys == [] then 0 else Occupied(keys[..|keys| - 1]) + if keys[|keys| - 1].Some? then 1 else 0
  }

  ghost function MapOf(keys: seq<Option<Text>>, vals: seq<Option<Text>>): map<Text, Option<Text>>
    requires |keys| == |vals| && Unique(keys)
  {
    map i | 0 <= i < |keys| && keys[i].Some? :: keys[i].value := vals[i]
  }

  // ------------------------------------------------------------------ counting

  /** With fewer occupied slots than slots there is a free one: the search ends. */
  lemma {:induction false} SomeFree(keys: seq<Option<Text>>) returns (f: nat)
    requires Occupied(keys) < |keys|
    ensures f < |keys| && keys[f].None?
  {
    var last := |keys| - 1;
    if keys[last].None? {
      f := last;
    } else {
      f := SomeFree(keys[..last]);
    }
  }

  lemma {:induction false} OccupiedUpdate(keys: seq<Option<Text>>, i: nat, k: Option<Text>)
    requires i < |keys|
    ensures Occupied(keys[i := k]) == Occupied(keys) - (if keys[i].Some? then 1 else 0) + (if k.Some? then 1 else 0)
    decreases |keys|
  {
    var last := |keys| - 1;
    if i < last {
      assert keys[i := k][..last] == keys[..last][i := k];
      OccupiedUpdate(keys[..last], i, k);
    } else {
      assert keys[i := k][..last] == keys[..last];
    }
  }

  lemma {:induction false} OccupiedPadded(keys: seq<Option<Text>>, more: nat)
    ensures Occupied(keys + seq(more, _ => None)) == Occupied(keys)
  {
    var all := keys + seq(more, _ => None);
    if more > 0 {
      assert all[..|all| - 1] == keys + seq(more - 1, _ => None);
      OccupiedPadded(keys, more - 1);
    } else {
      assert all == keys;
    }
  }

  lemma {:induction false} NoneOccupied(keys: seq<Option<Text>>)
    requires forall i :: 0 <= i < |keys| ==> keys[i].None?
    ensures Occupied(keys) == 0
  {
    if keys != [] {
      NoneOccupied(keys[..|keys| - 1]);
    }
  }

  // ------------------------------------------------------------------ updates

  lemma SetFound(keys: seq<Option<Text>>, vals: seq<Option<Text>>, i: nat, v: Option<Text>)
    requires |keys| == |vals| && Unique(keys) && i < |keys| && keys[i].Some?
    ensures MapOf(keys, vals[i := v]) == MapOf(keys, vals)[keys[i].value := v]
  {
  }

  lemma SetFresh(keys: seq<Option<Text>>, vals: seq<Option<Text>>, i: nat, key: Text, v: Option<Text>)
    requires |keys| == |vals| && Unique(keys) && i < |keys| && keys[i].None?
    requires forall j :: 0 <= j < |keys| ==> keys[j] != Some(key)
    ensures Unique(keys[i := Some(key)])
    ensures MapOf(keys[i := Some(key)], vals[i := v]) == MapOf(keys, vals)[key := v]
  {
    var ks, vs := keys[i := Some(key)], vals[i := v];
    var m, m' := MapOf(keys, vals)[key := v], MapOf(ks, vs);
    assert ks[i].Some? && key in m';
    forall k ensures k in m <==> k in m' {
      if k in m && k != key {
        var j :| 0 <= j < |keys| && keys[j].Some? && keys[j].value == k;
        assert ks[j].Some? && ks[j].value == k;
      }
    }
  }

  lemma AbsentKey(keys: seq<Option<Text>>, vals: seq<Option<Text>>, key: Text)
    requires |keys| == |vals| && Unique(keys) && key !in MapOf(keys, vals)
    ensures forall j :: 0 <= j < |keys| ==> keys[j] != Some(key)
  {
    assert forall j :: 0 <= j < |keys| && keys[j].Some? ==> keys[j].value in MapOf(keys, vals);
  }

  lemma Removed(keys: seq<Option<Text>>, vals: seq<Option<Text>>, i: nat, v: Option<Text>)
    requires |keys| == |vals| && Unique(keys) && i < |keys| && keys[i].Some?
    ensures Unique(keys[i := None]) && MapOf(keys[i := None], vals[i := v]) == MapOf(keys, vals) - {keys[i].value}
  {
    var ks := keys[i := None];
    var m, m' := MapOf(keys, vals) - {keys[i].value}, MapOf(ks, vals[i := v]);
    forall k ensures k in m <==> k in m' {
      if k in m {
        var j :| 0 <= j < |keys| && keys[j].Some? && keys[j].value == k;
        assert ks[j].Some? && ks[j].value == k;
      }
    }
  }

  lemma Grown(keys: seq<Option<Text>>, vals: seq<Option<Text>>, more: nat)
    requires |keys| == |vals| && Unique(keys)
    ensures var free := seq(more, _ => None);
      Unique(keys + free) && MapOf(keys + free, vals + free) == MapOf(keys, vals)
  {
    var free := seq(more, _ => None);
    var m, m' := MapOf(keys, vals), MapOf(keys + free, vals + free);
    forall k ensures k in m <==> k in m' {
      if k in m {
        var j :| 0 <= j < |keys| && keys[j].Some? && keys[j].value == k;
        assert (keys + free)[j].Some? && (keys + free)[j].value == k;
      }
    }
  }

  class Dict {
    var keys: array<Option<Text>>
    var vals: array<Option<Text>>
    var hashes: array<Word>
    var size: nat
    var n: nat

    /** Keys are unique, no stored hash hides a key, and n counts the occupied slots. */
    ghost predicate Valid()
      reads this, keys, vals, hashes
    {
      && keys != vals && keys.Length == vals.Length == hashes.Length == size && size >= DICTMINSZ
      && Unique(keys[..]) && Hashed(keys[..], hashes[..]) && n == Occupied(keys[..])
    }

    ghost function Map(): map<Text, Option<Text>>
      reads this, keys, vals, hashes
      requires Valid()
    {
      MapOf(keys[..], vals[..])
    }

    ghost function Arrays(): set<object>
      reads this
    {
      {keys, vals, hashes}
    }

    /** dictionary_new */
    constructor (size: nat)
      ensures Valid() && fresh(Arrays()) && Map() == map[]
    {
      var s := if size < DICTMINSZ then DICTMINSZ else size;
      this.size := s;
      keys := new Option<Text>[s](_ => None);
      vals := new Option<Text>[s](_ => None);
      hashes := new Word[s](_ => Word(0));
      n := 0;
      new;
      NoneOccupied(keys[..]);
    }

    /** The search for a key: its slot, or `size`. */
    method Find(key: Text) returns (i: nat)
      requires Valid()
      ensures i <= size
      ensures i < size ==> keys[i] == Some(key)
      ensures i == size ==> forall j :: 0 <= j < size ==> keys[j] != Some(key)
    {
      var hash := DictionaryHash(key);
      i := 0;
      while i < size
        invariant 0 <= i <= size
        invariant forall j :: 0 <= j < i ==> keys[j] != Some(key)
      {
        if keys[i].Some? && hash == hashes[i] && key == keys[i].value {
          return;
        }
        if keys[i].Some? {
          HashedAt(keys[..], hashes[..], i);
        }
        i := i + 1;
      }
    }

    /** dictionary_get */
    method Get(key: Text, def: Option<Text>) returns (r: Option<Text>)
      requires Valid()
      ensures r == if key in Map() then Map()[key] else def
    {
      var i := Find(key);
      if i < size {
        assert keys[..][i] == Some(key);
        return vals[i];
      }
      return def;
    }

    /** dictionary_set */
    method Set(key: Text, val: Option<Text>) returns (rc: int)
      requires Valid()
      modifies this, keys, vals, hashes
      ensures Valid() && fresh(Arrays() - old(Arrays()))
      ensures rc == 0 && Map() == old(Map())[key := val]
    {
      if n > 0 {
        var i := Find(key);
        if i < size {
          SetFound(keys[..], vals[..], i, val);
          Store(i, keys[i], val, hashes[i]);
          assert keys[..] == old(keys[..]) && hashes[..] == old(hashes[..]);
          return 0;
        }
      } else {
        NoKey(keys[..], key);
      }
      if n == size {
        Grow();
      }
      Insert(key, val);
      return 0;
    }

    /** The key goes into the first empty slot from `n` on, wrapping at the end. */
    method Insert(key: Text, val: Option<Text>)
      requires Valid() && n < size && key !in Map()
      modifies this`n, keys, vals, hashes
      ensures Valid() && Map() == old(Map())[key := val]
    {
      var hash := DictionaryHash(key);
      var i := FreeSlot();
      AbsentKey(keys[..], vals[..], key);
      SetFresh(keys[..], vals[..], i, key, val);
      OccupiedUpdate(keys[..], i, Some(key));
      HashedUpdate(keys[..], hashes[..], i, Some(key), hash);
      Store(i, Some(key), val, hash);
      n := n + 1;
    }

    /** Because not every slot is occupied, the wrapping search ends. */
    method FreeSlot() returns (i: nat)
      requires Valid() && n < size
      ensures i < size && keys[i].None?
    {
      ghost var f := SomeFree(keys[..]);
      i := n;
      while keys[i].Some?
        invariant i < size && f < size && keys[f].None?
        decreases if i <= f then f - i else f + size - i
      {
        i := i + 1;
        if i == size {
          i := 0;
        }
      }
    }

    /** dictionary_grow */
    method Grow()
      requires Valid()
      modifies this
      ensures Valid() && fresh(Arrays()) && size == 2 * old(size) && n == old(n) && Map() == old(Map())
    {
      var newVals := Doubled(vals);
      var newKeys := Doubled(keys);
      var newHashes := DoubledHashes(hashes);
      Grown(keys[..], vals[..], size);
      OccupiedPadded(keys[..], size);
      HashedPadded(keys[..], hashes[..], newHashes[..], size);
      size, vals, keys, hashes := size * 2, newVals, newKeys, newHashes;
    }

    /** dictionary_unset */
    method Unset(key: Text)
      requires Valid()
      modifies this`n, keys, vals, hashes
      ensures Valid() && Map() == old(Map()) - {key}
    {
      var i := Find(key);
      if i >= size {
        assert key !in Map();
        return;
      }
      Removed(keys[..], vals[..], i, None);
      OccupiedUpdate(keys[..], i, None);
      HashedUpdate(keys[..], hashes[..], i, None, Word(0));
      Store(i, None, None, Word(0));
      n := n - 1;
    }

    method Store(i: nat, key: Option<Text>, val: Option<Text>, hash: Word)
      requires keys != vals && keys.Length == vals.Length == hashes.Length && i < keys.Length
      modifies keys, vals, hashes
      ensures keys[..] == old(keys[..])[i := key] && vals[..] == old(vals[..])[i := val]
      ensures hashes[..] == old(hashes[..])[i := hash]
    {
      keys[i] := key;
      vals[i] := val;
      hashes[i] := hash;
    }
  }

  /** A copy twice as long, empty behind the old part. */
  method Doubled(a: array<Option<Text>>) returns (b: array<Option<Text>>)
    ensures fresh(b) && b.Length == 2 * a.Length && b[..] == a[..] + seq(a.Length, _ => None)
  {
    b := new Option<Text>[2 * a.Length](_ => None);
    var i := 0;
    while i < a.Length
      invariant 0 <= i <= a.Length && b[..] == a[..i] + seq(2 * a.Length - i, _ => None)
    {
      b[i] := a[i];
      i := i + 1;
    }
  }

  method DoubledHashes(a: array<Word>) returns (b: array<Word>)
    ensures fresh(b) && b.Length == 2 * a.Length && forall i :: 0 <= i < a.Length ==> b[i] == a[i]
  {
    b := new Word[2 * a.Length](_ => Word(0));
    var i := 0;
    while i < a.Length
      invariant 0 <= i <= a.Length && forall j :: 0 <= j < i ==> b[j] == a[j]
    {
      b[i] := a[i];
      i := i + 1;
    }
  }

  lemma HashedPadded(keys: seq<Option<Text>>, hashes: seq<Word>, longer: seq<Word>, more: nat)
    requires Hashed(keys, hashes) && |longer| == |keys| + more && forall i :: 0 <= i < |keys| ==> longer[i] == hashes[i]
    ensures Hashed(keys + seq(more, _ => None), longer)
  {
  }

  lemma {:induction false} NoKey(keys: seq<Option<Text>>, key: Text)
    requires Occupied(keys) == 0
    ensures forall j :: 0 <= j < |keys| ==> keys[j] != Some(key)
  {
    if keys != [] {
      NoKey(keys[..|keys| - 1], key);
    }
  }
}
