/** `src/utils/classname.ts`: `cn`, a bounded insertion-order cache in
    front of the Tailwind class merge; its configuration; a builder that
    assembles class lists from variant tables; and a validator that
    collects warnings about malformed inputs.

    `clsx` followed by `twMerge` is modelled as a function of the cache
    key `JSON.stringify(inputs)`: two input lists with the same
    serialisation merge to the same string. Under that reading the cache
    can only ever return what the merge would. */
module ClassNames {
  import opened Wrappers
  import opened Strings
  import opened OrderedMap

  const MAX_CACHE_SIZE: int := 1000

  const MULTIPLE_SPACES := "Multiple consecutive spaces detected in className"
  const EDGE_SPACES := "Leading or trailing spaces detected in className"
  const NULLISH_INPUT := "Null or undefined value in className inputs"

  /** A `ClassValue` as far as the modelled code looks into it: arrays and
      objects are kept opaque, and are always truthy. */
  datatype ClassValue = Str(s: string) | Num(n: int) | Bool(b: bool) | Null | Undefined | Compound(repr: string)

  /** JavaScript truthiness, which `filter(Boolean)` and `&&` test. */
  predicate Truthy(v: ClassValue) {
    match v
    case Str(s) => s != []
    case Num(n) => n != 0
    case Bool(b) => b
    case Null => false
    case Undefined => false
    case Compound(_) => true
  }

  datatype Options = Options(enableCache: bool, cacheSize: int)

  /** A `Partial<ClassNameOptions>`. */
  datatype OptionsPatch = OptionsPatch(enableCache: Option<bool>, cacheSize: Option<int>)

  const DEFAULT_OPTIONS := Options(true, MAX_CACHE_SIZE)

  /** Every cached entry holds what the merge makes of its key. */
  predicate Faithful(cache: seq<(string, string)>, render: string -> string) {
    forall i | 0 <= i < |cache| :: cache[i].1 == render(cache[i].0)
  }

  /** A lookup in a faithful cache returns the merge of the key. */
  lemma {:induction false} FaithfulLookup(cache: seq<(string, string)>, render: string -> string, key: string)
    requires Faithful(cache, render) && Has(cache, key)
    ensures Lookup(cache, key).value == render(key)
  {
    if cache[0].0 != key {
      assert Faithful(cache[1..], render) by {
        forall i | 0 <= i < |cache[1..]|
          ensures cache[1..][i].1 == render(cache[1..][i].0)
        {
          assert cache[1..][i] == cache[i + 1];
        }
      }
      FaithfulLookup(cache[1..], render, key);
    }
  }

  /** Inserting a faithful entry into a faithful cache keeps it faithful. */
  lemma {:induction false} FaithfulSet(cache: seq<(string, string)>, render: string -> string, key: string)
    requires Faithful(cache, render)
    ensures Faithful(Set(cache, key, render(key)), render)
  {
    if cache != [] && cache[0].0 != key {
      assert Faithful(cache[1..], render) by {
        forall i | 0 <= i < |cache[1..]|
          ensures cache[1..][i].1 == render(cache[1..][i].0)
        {
          assert cache[1..][i] == cache[i + 1];
        }
      }
      FaithfulSet(cache[1..], render, key);
      var r := Set(cache, key, render(key));
      forall i | 0 <= i < |r|
        ensures r[i].1 == render(r[i].0)
      {
        if i > 0 {
          assert r[i] == Set(cache[1..], key, render(key))[i - 1];
        }
      }
    }
  }

  class ClassNameCache {
    var cache: seq<(string, string)>
    var options: Options
    /** `JSON.stringify(inputs)`, the cache key. */
    const serialize: seq<ClassValue> -> string
    /** `twMerge(clsx(inputs))`, read off the serialised inputs. */
    const render: string -> string

    /** What `cn(...inputs)` yields without any cache. */
    function Merge(inputs: seq<ClassValue>): string {
      render(serialize(inputs))
    }

    ghost predicate Valid()
      reads this
    {
      NoDuplicateKeys(cache) && Faithful(cache, render)
    }

    constructor (serialize: seq<ClassValue> -> string, render: string -> string)
      ensures Valid()
      ensures cache == [] && options == DEFAULT_OPTIONS
      ensures this.serialize == serialize && this.render == render
    {
      cache := [];
      options := DEFAULT_OPTIONS;
      this.serialize := serialize;
      this.render := render;
    }

    /** `cn(...inputs)`: always the merge of the inputs (the cache is
        transparent); a disabled cache is not touched, a hit inserts
        nothing, and a miss evicts the oldest entry when the cache is full
        before inserting, so a cache within a positive bound stays there. */
    method Cn(inputs: seq<ClassValue>) returns (r: string)
      requires Valid()
      modifies this`cache
      ensures Valid()
      ensures r == Merge(inputs)
      ensures !options.enableCache ==> cache == old(cache)
      ensures options.enableCache && Has(old(cache), serialize(inputs)) ==> cache == old(cache)
      ensures options.enableCache && !Has(old(cache), serialize(inputs)) ==>
        cache == Set(EvictOldest(old(cache), options.cacheSize), serialize(inputs), r)
      ensures 1 <= options.cacheSize && |old(cache)| <= options.cacheSize ==> |cache| <= options.cacheSize
    {
      if !options.enableCache {
        return render(serialize(inputs));
      }
      var key := serialize(inputs);
      if Has(cache, key) {
        FaithfulLookup(cache, render, key);
        var hit := Lookup(cache, key).value;
        return if hit != [] then hit else [];
      }
      r := render(key);
      if |cache| >= options.cacheSize && cache != [] {
        EvictOldestLookup(cache, options.cacheSize, key);
        assert Faithful(cache[1..], render) by {
          forall i | 0 <= i < |cache| - 1
            ensures cache[1..][i].1 == render(cache[1..][i].0)
          {
            assert cache[1..][i] == cache[i + 1];
          }
        }
        cache := cache[1..];
      }
      FaithfulSet(cache, render, key);
      cache := Set(cache, key, r);
    }

    /** `clearClassNameCache()`. */
    method ClearClassNameCache()
      modifies this`cache
      ensures Valid()
      ensures cache == []
    {
      cache := [];
    }

    /** `configureClassName(patch)`: unspecified options fall back to the
        defaults, and the cache is cleared unless the patch enables it. */
    method ConfigureClassName(patch: OptionsPatch)
      requires Valid()
      modifies this
      ensures Valid()
      ensures options == Options(patch.enableCache.GetOr(true), patch.cacheSize.GetOr(MAX_CACHE_SIZE))
      ensures cache == if patch.enableCache == Some(true) then old(cache) else []
    {
      options := Options(patch.enableCache.GetOr(DEFAULT_OPTIONS.enableCache),
                         patch.cacheSize.GetOr(DEFAULT_OPTIONS.cacheSize));
      if patch.enableCache != Some(true) {
        ClearClassNameCache();
      }
    }

    /** `getClassNameCacheStats()` without the hit rate. */
    method GetClassNameCacheStats() returns (size: nat, maxSize: int)
      ensures size == |cache| && maxSize == options.cacheSize
    {
      size := |cache|;
      maxSize := options.cacheSize;
    }

    /** `createClassNameBuilder(builder).build(...)`. */
    method Build(builder: Builder, variant: Option<string>, size: Option<string>, color: Option<string>,
                 additional: seq<ClassValue>) returns (r: string)
      requires Valid()
      modifies this`cache
      ensures Valid()
      ensures r == Merge(BuildParts(builder, variant, size, color, additional))
    {
      r := Cn(BuildParts(builder, variant, size, color, additional));
    }
  }

  /** The tables a class-name builder chooses from. */
  datatype Builder = Builder(base: string, variants: map<string, string>, sizes: map<string, string>,
                             colors: map<string, string>)

  /** `key && table[key]`: an absent or empty key, or one missing from the
      table, gives a falsy value. */
  function Pick(key: Option<string>, table: map<string, string>): ClassValue {
    match key
    case None => Undefined
    case Some(k) => if k == [] then Str([]) else if k in table then Str(table[k]) else Undefined
  }

  /** `list.filter(Boolean)`. */
  function FilterTruthy(list: seq<ClassValue>): (r: seq<ClassValue>)
    ensures |r| <= |list|
    ensures forall i | 0 <= i < |r| :: Truthy(r[i])
    ensures forall v :: v in r <==> v in list && Truthy(v)
  {
    if list == [] then []
    else if Truthy(list[0]) then [list[0]] + FilterTruthy(list[1..])
    else FilterTruthy(list[1..])
  }

  /** Filtering a concatenation filters each part in place, so the kept
      values keep their relative order. */
  lemma {:induction false} FilterTruthyAppend(a: seq<ClassValue>, b: seq<ClassValue>)
    ensures FilterTruthy(a + b) == FilterTruthy(a) + FilterTruthy(b)
  {
    if a == [] {
      assert a + b == b;
    } else {
      assert (a + b)[1..] == a[1..] + b;
      FilterTruthyAppend(a[1..], b);
    }
  }

  /** The list the builder hands to `cn`. */
  function BuildParts(builder: Builder, variant: Option<string>, size: Option<string>, color: Option<string>,
                      additional: seq<ClassValue>): seq<ClassValue> {
    FilterTruthy([Str(builder.base)] + ([Pick(variant, builder.variants)] + ([Pick(size, builder.sizes)]
                  + ([Pick(color, builder.colors)] + additional))))
  }

  /** The builder's classes come in the order base, variant, size, color,
      then the additional values, each dropped when falsy. */
  lemma BuildOrder(builder: Builder, variant: Option<string>, size: Option<string>, color: Option<string>,
                   additional: seq<ClassValue>)
    ensures BuildParts(builder, variant, size, color, additional)
      == FilterTruthy([Str(builder.base)]) + (FilterTruthy([Pick(variant, builder.variants)])
       + (FilterTruthy([Pick(size, builder.sizes)]) + (FilterTruthy([Pick(color, builder.colors)])
       + FilterTruthy(additional))))
  {
    var r3 := [Pick(color, builder.colors)] + additional;
    var r2 := [Pick(size, builder.sizes)] + r3;
    var r1 := [Pick(variant, builder.variants)] + r2;
    FilterTruthyAppend([Pick(color, builder.colors)], additional);
    FilterTruthyAppend([Pick(size, builder.sizes)], r3);
    FilterTruthyAppend([Pick(variant, builder.variants)], r2);
    FilterTruthyAppend([Str(builder.base)], r1);
  }

  /** The warnings `validateClassNames` raises for one input, in order. */
  function InputWarnings(v: ClassValue): seq<string> {
    (if v.Str? && Contains(v.s, "  ") then [MULTIPLE_SPACES] else [])
    + (if v.Str? && Trim(v.s) != v.s then [EDGE_SPACES] else [])
    + (if v.Null? || v.Undefined? then [NULLISH_INPUT] else [])
  }

  /** The warnings for a list of inputs, input by input. */
  function Warnings(inputs: seq<ClassValue>): seq<string> {
    if inputs == [] then [] else Warnings(inputs[..|inputs| - 1]) + InputWarnings(inputs[|inputs| - 1])
  }

  /** An input raises no warning exactly when it is not null or undefined
      and, if it is a string, has no double space and neither starts nor
      ends with white space. */
  predicate Clean(v: ClassValue) {
    && !v.Null? && !v.Undefined?
    && (v.Str? ==> !Contains(v.s, "  ") && (v.s == [] || (!IsWhitespace(v.s[0]) && !IsWhitespace(v.s[|v.s| - 1]))))
  }

  lemma InputWarningsEmptyIff(v: ClassValue)
    ensures InputWarnings(v) == [] <==> Clean(v)
  {
    var w1 := if v.Str? && Contains(v.s, "  ") then [MULTIPLE_SPACES] else [];
    var w2 := if v.Str? && Trim(v.s) != v.s then [EDGE_SPACES] else [];
    var w3 := if v.Null? || v.Undefined? then [NULLISH_INPUT] else [];
    assert InputWarnings(v) == w1 + w2 + w3;
    assert |InputWarnings(v)| == |w1| + |w2| + |w3|;
    if v.Str? {
      TrimUnchangedIff(v.s);
    }
  }

  /** A list of inputs is valid exactly when every input is clean. */
  lemma {:induction false} WarningsEmptyIff(inputs: seq<ClassValue>)
    ensures Warnings(inputs) == [] <==> forall i | 0 <= i < |inputs| :: Clean(inputs[i])
  {
    if inputs != [] {
      var init := inputs[..|inputs| - 1];
      WarningsEmptyIff(init);
      InputWarningsEmptyIff(inputs[|inputs| - 1]);
      if forall i | 0 <= i < |inputs| :: Clean(inputs[i]) {
        assert forall i | 0 <= i < |init| :: Clean(init[i]) by {
          forall i | 0 <= i < |init| ensures Clean(init[i]) {
            assert init[i] == inputs[i];
          }
        }
      }
      if Warnings(inputs) == [] {
        forall i | 0 <= i < |inputs| ensures Clean(inputs[i]) {
          if i < |init| {
            assert init[i] == inputs[i];
          }
        }
      }
    }
  }

  /** `validateClassNames(...inputs)`: checks the inputs one by one. */
  method ValidateClassNames(inputs: seq<ClassValue>) returns (isValid: bool, warnings: seq<string>)
    ensures warnings == Warnings(inputs)
    ensures isValid <==> forall i | 0 <= i < |inputs| :: Clean(inputs[i])
  {
    warnings := [];
    for i := 0 to |inputs|
      invariant warnings == Warnings(inputs[..i])
    {
      var input := inputs[i];
      ghost var w1 := if input.Str? && Contains(input.s, "  ") then [MULTIPLE_SPACES] else [];
      ghost var w2 := if input.Str? && Trim(input.s) != input.s then [EDGE_SPACES] else [];
      ghost var w3 := if input.Null? || input.Undefined? then [NULLISH_INPUT] else [];
      var found := [];
      if input.Str? && Contains(input.s, "  ") {
        found := found + [MULTIPLE_SPACES];
      }
      assert found == w1;
      if input.Str? && Trim(input.s) != input.s {
        found := found + [EDGE_SPACES];
      }
      assert found == w1 + w2;
      if input.Null? || input.Undefined? {
        found := found + [NULLISH_INPUT];
      }
      assert found == w1 + w2 + w3;
      assert found == InputWarnings(input);
      assert inputs[..i + 1][..i] == inputs[..i];
      warnings := warnings + found;
    }
    assert inputs[..|inputs|] == inputs;
    isValid := |warnings| == 0;
    WarningsEmptyIff(inputs);
  }
}
