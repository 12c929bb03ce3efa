/**
 * LanguageLevelTupleStore: named tuples kept in a dictionary, each one
 * flattened to a list of numbers in range() order for storage and rebuilt
 * from such a list. Writing the dictionary to disk and reading it back
 * (save and load) are file and JSON I/O and are not part of this model.
 */
module LanguageLevelTupleStores {
  import opened Wrappers
  import opened PhpValues
  import opened LanguageLevel
  import opened LanguageLevelTuples

  /** encode: the tuple's entry at each key, in the order of the keys. */
  function Encoded(keys: seq<Level>, v: seq<real>): seq<real>
    requires Full(v)
  {
    seq(|keys|, i requires 0 <= i < |keys| => v[Index(keys[i])])
  }

  /**
   * decode from position i on, with the entries written so far in acc:
   * `$values[$i]` (null past the end of the list) goes through offsetSet,
   * which refuses anything but an int or a float.
   */
  function Decoding(keys: seq<Level>, values: seq<Value>, i: nat, acc: seq<real>): Result<seq<real>>
    requires Full(acc)
    decreases |keys| - i
  {
    if i >= |keys| then Ok(acc)
    else
      var v := if i < |values| then values[i] else Null;
      if !(v.Int? || v.Float?) then Err(DomainException)
      else Decoding(keys, values, i + 1, acc[Index(keys[i]) := Number(v)])
  }

  /** decode: a new tuple (all zeros) with each key's value written in turn. */
  function Decoded(keys: seq<Level>, values: seq<Value>): Result<seq<real>>
  {
    Decoding(keys, values, 0, Zero())
  }

  /** The first SIZE values are all ints or floats (and there are that many). */
  predicate Numeric(values: seq<Value>)
  {
    |values| >= SIZE && forall i :: 0 <= i < SIZE ==> values[i].Int? || values[i].Float?
  }

  /** The numbers that the first SIZE values hold. */
  function Numbers(values: seq<Value>): seq<real>
    requires Numeric(values)
  {
    seq(SIZE, i requires 0 <= i < SIZE => Number(values[i]))
  }

  /** A list of numbers as json_decode hands it back: each one a float. */
  function AsFloats(xs: seq<real>): seq<Value>
  {
    seq(|xs|, i requires 0 <= i < |xs| => Float(xs[i]))
  }

  /** The keys the constructor collects are the levels of range() with its defaults, in declaration order. */
  lemma RangeIsCases()
    ensures Range() == Ok(Cases())
  {
    assert Cases()[0..13] == Cases();
  }

  /** With the constructor's keys, encode lists the tuple's SIZE entries level by level. */
  lemma EncodedInRangeOrder(v: seq<real>)
    requires Full(v)
    ensures |Encoded(Cases(), v)| == SIZE
    ensures forall l: Level :: Encoded(Cases(), v)[Index(l)] == v[Index(l)]
    ensures Encoded(Cases(), v) == v
  {
    var e := Encoded(Cases(), v);
    forall i | 0 <= i < SIZE
      ensures e[i] == v[i]
    {
      assert Index(Cases()[i]) == i;
    }
    forall l: Level
      ensures e[Index(l)] == v[Index(l)]
    {
    }
  }

  /** The values at positions i up to SIZE exist and are ints or floats. */
  predicate NumericFrom(values: seq<Value>, i: nat)
  {
    i >= SIZE || (|values| >= SIZE && forall j :: i <= j < SIZE ==> values[j].Int? || values[j].Float?)
  }

  /**
   * Decoding over the constructor's keys from position i on succeeds exactly
   * when the values from i to SIZE are numbers, and then keeps the entries
   * before i and writes those numbers after it.
   */
  lemma {:induction false} DecodingFrom(values: seq<Value>, i: nat, acc: seq<real>)
    requires i <= SIZE && Full(acc)
    ensures Decoding(Cases(), values, i, acc).Ok? <==> NumericFrom(values, i)
    ensures NumericFrom(values, i) ==>
      var r := Decoding(Cases(), values, i, acc);
      r.Ok? && Full(r.value) &&
      forall j :: 0 <= j < SIZE ==>
        if j < i then r.value[j] == acc[j]
        else j < |values| && (values[j].Int? || values[j].Float?) && r.value[j] == Number(values[j])
    decreases SIZE - i
  {
    if i < SIZE {
      assert Index(Cases()[i]) == i;
      var v := if i < |values| then values[i] else Null;
      if v.Int? || v.Float? {
        var acc' := acc[i := Number(v)];
        assert Decoding(Cases(), values, i, acc) == Decoding(Cases(), values, i + 1, acc');
        DecodingFrom(values, i + 1, acc');
        assert NumericFrom(values, i) <==> NumericFrom(values, i + 1);
      } else {
        assert !(i < |values| && (values[i].Int? || values[i].Float?));
        assert !NumericFrom(values, i);
      }
    }
  }

  /**
   * With the constructor's keys, decode succeeds exactly when the first SIZE
   * values are numbers; the tuple then holds those numbers, the first at the
   * oldest level, and values past SIZE are ignored. Otherwise the error is a
   * DomainException.
   */
  lemma DecodedNumbers(values: seq<Value>)
    ensures Decoded(Cases(), values).Ok? <==> Numeric(values)
    ensures Decoded(Cases(), values).Ok? ==> Decoded(Cases(), values).value == Numbers(values)
    ensures Decoded(Cases(), values).Err? ==> Decoded(Cases(), values).error == DomainException
  {
    DecodingFrom(values, 0, Zero());
    DecodingFails(Cases(), values, 0, Zero());
  }

  /** Decoding fails only with the DomainException of offsetSet. */
  lemma {:induction false} DecodingFails(keys: seq<Level>, values: seq<Value>, i: nat, acc: seq<real>)
    requires Full(acc)
    ensures Decoding(keys, values, i, acc).Err? ==> Decoding(keys, values, i, acc).error == DomainException
    decreases |keys| - i
  {
    if i < |keys| {
      var v := if i < |values| then values[i] else Null;
      if v.Int? || v.Float? {
        DecodingFails(keys, values, i + 1, acc[Index(keys[i]) := Number(v)]);
      }
    }
  }

  /** decode(encode(t)) is t again, at every level. */
  lemma DecodeEncode(v: seq<real>)
    requires Full(v)
    ensures Decoded(Cases(), AsFloats(Encoded(Cases(), v))) == Ok(v)
  {
    EncodedInRangeOrder(v);
    var vs := AsFloats(v);
    assert Numeric(vs);
    DecodedNumbers(vs);
    assert Numbers(vs) == v;
  }

  /** encode(decode(values)) gives back the first SIZE numbers of values. */
  lemma EncodeDecode(values: seq<Value>)
    requires Numeric(values)
    ensures Decoded(Cases(), values).Ok? && Decoded(Cases(), values).value == Numbers(values)
    ensures Encoded(Cases(), Decoded(Cases(), values).value) == Numbers(values)
  {
    DecodedNumbers(values);
    EncodedInRangeOrder(Numbers(values));
  }

  class LanguageLevelTupleStore {
    /** `$store`: the tuples by name. */
    var store: map<string, LanguageLevelTuple>
    /** `$keys`: the levels of range(), in order. */
    const keys: seq<Level>

    ghost predicate Valid()
      reads this, store.Values
    {
      keys == Cases() && forall k :: k in store ==> store[k].Valid()
    }

    /** A store with no tuples and range()'s levels as its keys (load is not modelled). */
    constructor()
      ensures Valid() && store == map[] && keys == Range().value
    {
      RangeIsCases();
      var levels := Range().value;
      var ks: seq<Level> := [];
      for i := 0 to |levels|
        invariant ks == levels[..i]
      {
        ks := ks + [levels[i]];
      }
      assert ks == levels[..|levels|] == levels;
      keys := ks;
      store := map[];
    }

    /** has: whether a tuple is stored under the key. */
    function Has(key: string): (r: bool)
      reads this
      ensures r <==> key in store
    {
      key in store
    }

    /** get: the tuple stored under the key, or null when there is none. */
    function Get(key: string): (r: Option<LanguageLevelTuple>)
      reads this
      ensures r.None? <==> !Has(key)
      ensures r.Some? ==> key in store && r.value == store[key]
    {
      if !Has(key) then None else Some(store[key])
    }

    /**
     * set: the tuple itself (not a copy) is stored under the key, replacing
     * any tuple there, and no other key changes. The save that follows is
     * not modelled.
     */
    method Set(key: string, tuple: LanguageLevelTuple)
      requires Valid() && tuple.Valid()
      modifies this
      ensures Valid()
      ensures store == old(store)[key := tuple]
      ensures Get(key) == Some(tuple)
      ensures forall k :: k != key ==> Get(k) == old(Get(k))
    {
      store := store[key := tuple];
    }

    /** encode: the tuple's entry for each key in turn. */
    method Encode(tuple: LanguageLevelTuple) returns (result: seq<real>)
      requires tuple.Valid()
      ensures result == Encoded(keys, tuple.values)
    {
      result := [];
      for i := 0 to |keys|
        invariant result == Encoded(keys[..i], tuple.values)
      {
        assert keys[..i + 1] == keys[..i] + [keys[i]];
        result := result + [tuple.values[Index(keys[i])]];
      }
      assert keys[..|keys|] == keys;
    }

    /**
     * decode: a new tuple, then `$values[$i]` written at each key through
     * offsetSet; the first value that is not a number (or missing) ends it
     * with that DomainException.
     */
    method Decode(values: seq<Value>) returns (r: Result<LanguageLevelTuple>)
      ensures Decoded(keys, values).Err? ==> r == Err(Decoded(keys, values).error)
      ensures Decoded(keys, values).Ok? ==>
        r.Ok? && fresh(r.value) && r.value.Valid() && r.value.values == Decoded(keys, values).value
    {
      var tuple := new LanguageLevelTuple();
      for i := 0 to |keys|
        invariant fresh(tuple) && tuple.Valid()
        invariant Decoded(keys, values) == Decoding(keys, values, i, tuple.values)
      {
        var v := if i < |values| then values[i] else Null;
        var o := tuple.Set(Lvl(keys[i]), v);
        if o.Fail? {
          return Err(o.error);
        }
      }
      r := Ok(tuple);
    }
  }
}
