/**
 * The two caching layers of src/config/caching/caching.py. Python values
 * are a datatype with their `repr`, a decorated coroutine is a function
 * parameter that either returns a value or raises, the global
 * `persistent_cache` dictionary and the JSON file `query_cache.json` are the
 * two maps of a `PersistentCache`, and each `memory_cache_decorator`
 * closure's dictionary is a `MemoryCache`.
 */
module Caching {
  import opened Wrappers
  import opened Strings

  /** The Python values that reach the caches as arguments or results. */
  datatype Value =
    | NoneValue
    | Bool(b: bool)
    | Int(i: int)
    | Str(s: string)
    | Tuple(items: seq<Value>)
    | List(items: seq<Value>)
    | Dict(entries: seq<Entry>)
    /** A member of an `Enum` class, such as `QuestionType.FACTUAL`. */
    | EnumMember(cls: string, member: string, ordinal: int)
    /** A coroutine object; `repr` is its printed form. */
    | Coroutine(repr: string)
    /** Anything `callable`: functions, bound methods, classes. */
    | Function(repr: string)
    /** Any other object, such as the `Agent` passed as `self`; printed by its default `repr`. */
    | Object(repr: string)

  /** One `key: value` pair of a dictionary, in insertion order. */
  datatype Entry = Entry(key: Value, value: Value)

  /** A call's positional and keyword arguments. */
  type Args = seq<Value>
  type Kwargs = seq<(string, Value)>

  /** A decorated coroutine: awaiting it gives a value or raises an exception (`Failure`). */
  type Body = (Args, Kwargs) -> Result<Value, string>

  /** The escape sequence `repr` writes for one character of a string quoted by `quote`. */
  function EscapeChar(c: char, quote: char): string
  {
    if c == '\\' then "\\\\"
    else if c == quote then ['\\', quote]
    else if c == '\n' then "\\n"
    else if c == '\r' then "\\r"
    else if c == '\t' then "\\t"
    else [c]
  }

  /** `repr` of a string: single quotes unless the text has a single quote and no double quote. */
  function StrRepr(s: string): string
  {
    var quote := if '\'' in s && '"' !in s then '"' else '\'';
    [quote] + Escaped(s, quote) + [quote]
  }

  function Escaped(s: string, quote: char): string
  {
    if |s| == 0 then "" else EscapeChar(s[0], quote) + Escaped(s[1..], quote)
  }

  /** `repr` (which `str` uses for containers) of a value. */
  function Repr(v: Value): string
    decreases v
  {
    match v
    case NoneValue => "None"
    case Bool(b) => if b then "True" else "False"
    case Int(i) => IntToString(i)
    case Str(s) => StrRepr(s)
    case Tuple(items) =>
      "(" + Join(seq(|items|, k requires 0 <= k < |items| => Repr(items[k])), ", ")
      + (if |items| == 1 then ",)" else ")")
    case List(items) => "[" + Join(seq(|items|, k requires 0 <= k < |items| => Repr(items[k])), ", ") + "]"
    case Dict(entries) =>
      "{" + Join(seq(|entries|, k requires 0 <= k < |entries| =>
                   Repr(entries[k].key) + ": " + Repr(entries[k].value)), ", ") + "}"
    case EnumMember(cls, member, ordinal) => "<" + cls + "." + member + ": " + IntToString(ordinal) + ">"
    case Coroutine(r) => r
    case Function(r) => r
    case Object(r) => r
  }

  /** The keyword arguments as the dictionary `**kwargs` collects them. */
  function KwargsDict(kwargs: Kwargs): Value
  {
    Dict(seq(|kwargs|, k requires 0 <= k < |kwargs| => Entry(Str(kwargs[k].0), kwargs[k].1)))
  }

  /** The cache key both decorators compute: `name:str(args):str(kwargs)`. */
  function Key(name: string, args: Args, kwargs: Kwargs): (key: string)
    ensures StartsWith(key, name + ":")
  {
    assert (name + ":" + Repr(Tuple(args)) + ":" + Repr(KwargsDict(kwargs)))[..|name| + 1] == name + ":";
    name + ":" + Repr(Tuple(args)) + ":" + Repr(KwargsDict(kwargs))
  }

  /**
   * Every function shares the one persistent dictionary, yet two functions
   * never share an entry: a Python name has no colon, so the name is the key
   * up to its first colon.
   */
  lemma KeysOfDistinctFunctions(name1: string, args1: Args, kwargs1: Kwargs,
                                name2: string, args2: Args, kwargs2: Kwargs)
    requires ':' !in name1 && ':' !in name2 && name1 != name2
    ensures Key(name1, args1, kwargs1) != Key(name2, args2, kwargs2)
  {
    var k1 := Key(name1, args1, kwargs1);
    var k2 := Key(name2, args2, kwargs2);
    assert k1[..|name1| + 1] == name1 + ":";
    assert k2[..|name2| + 1] == name2 + ":";
    if |name1| < |name2| {
      assert k1[|name1|] == ':' && k2[|name1|] == name2[|name1|];
    } else if |name2| < |name1| {
      assert k2[|name2|] == ':' && k1[|name2|] == name1[|name2|];
    } else {
      assert k1[..|name1|] == name1 && k2[..|name2|] == name2;
    }
  }

  /**
   * The printed `self` is part of the key: two calls that differ only in the
   * first positional argument's printed form, such as two `Agent` objects at
   * different addresses, never share an entry.
   */
  lemma KeysOfDistinctSelves(name: string, self1: string, self2: string, rest: Args, kwargs: Kwargs)
    requires self1 != self2
    ensures Key(name, [Object(self1)] + rest, kwargs) != Key(name, [Object(self2)] + rest, kwargs)
  {
    KeyOfSelf(name, self1, rest, kwargs);
    KeyOfSelf(name, self2, rest, kwargs);
    MiddleDiffers(name + ":(", self1, self2, TupleReprTail(rest) + ":" + Repr(KwargsDict(kwargs)));
  }

  /** The key of a call whose first argument is an object: its printed form stands right after `name:(`. */
  lemma KeyOfSelf(name: string, self: string, rest: Args, kwargs: Kwargs)
    ensures Key(name, [Object(self)] + rest, kwargs)
            == name + ":(" + self + (TupleReprTail(rest) + ":" + Repr(KwargsDict(kwargs)))
  {
    TupleReprFront(self, rest);
  }

  /** What `repr` writes after the first element of a tuple. */
  function TupleReprTail(rest: Args): string
  {
    if |rest| == 0 then ",)"
    else ", " + Join(seq(|rest|, k requires 0 <= k < |rest| => Repr(rest[k])), ", ") + ")"
  }

  /** A tuple's `repr` is an opening parenthesis, its first element's `repr`, then the rest. */
  lemma TupleReprFront(r: string, rest: Args)
    ensures Repr(Tuple([Object(r)] + rest)) == "(" + r + TupleReprTail(rest)
  {
    var items := [Object(r)] + rest;
    var reprs := seq(|items|, k requires 0 <= k < |items| => Repr(items[k]));
    var tail := seq(|rest|, k requires 0 <= k < |rest| => Repr(rest[k]));
    assert reprs == [r] + tail;
    if |rest| > 0 {
      JoinCons(r, tail, ", ");
    }
  }

  /** Texts that differ only in the middle are different. */
  lemma MiddleDiffers(front: string, a: string, b: string, back: string)
    requires a != b
    ensures front + a + back != front + b + back
  {
    if |a| == |b| {
      assert (front + a + back)[|front|..|front| + |a|] == a;
      assert (front + b + back)[|front|..|front| + |b|] == b;
    }
  }

  /** A fixed point of `make_serializable`: no coroutine, no callable, no tuple at any depth. */
  predicate Sanitized(v: Value)
    decreases v
  {
    match v
    case Coroutine(_) => false
    case Function(_) => false
    case Tuple(_) => false
    case List(items) => forall k :: 0 <= k < |items| ==> Sanitized(items[k])
    case Dict(entries) => forall k :: 0 <= k < |entries| ==> Sanitized(entries[k].value)
    case _ => true
  }

  /**
   * `make_serializable`: coroutines and callables become placeholder
   * strings, tuples become lists, containers are rebuilt element by element
   * in order with dictionary keys kept as they are, and other values pass
   * through.
   */
  function MakeSerializable(v: Value): (r: Value)
    ensures Sanitized(r)
    ensures v.Coroutine? ==> r == Str("coroutine")
    ensures v.Function? ==> r == Str("function")
    ensures (v.Tuple? || v.List?) ==> r.List? && |r.items| == |v.items|
                                      && forall k :: 0 <= k < |v.items| ==> r.items[k] == MakeSerializable(v.items[k])
    ensures v.Dict? ==> r.Dict? && |r.entries| == |v.entries|
                        && forall k :: 0 <= k < |v.entries| ==>
                             r.entries[k].key == v.entries[k].key && r.entries[k].value == MakeSerializable(v.entries[k].value)
    ensures !(v.Coroutine? || v.Function? || v.Tuple? || v.List? || v.Dict?) ==> r == v
    decreases v
  {
    match v
    case Coroutine(_) => Str("coroutine")
    case Function(_) => Str("function")
    case Tuple(items) => List(seq(|items|, k requires 0 <= k < |items| => MakeSerializable(items[k])))
    case List(items) => List(seq(|items|, k requires 0 <= k < |items| => MakeSerializable(items[k])))
    case Dict(entries) =>
      Dict(seq(|entries|, k requires 0 <= k < |entries| => Entry(entries[k].key, MakeSerializable(entries[k].value))))
    case _ => v
  }

  /** What JSON already holds comes back unchanged. */
  lemma {:induction false} SanitizedIsFixed(v: Value)
    requires Sanitized(v)
    ensures MakeSerializable(v) == v
    decreases v
  {
    match v
    case List(items) =>
      forall k | 0 <= k < |items| ensures MakeSerializable(items[k]) == items[k] {
        SanitizedIsFixed(items[k]);
      }
      assert MakeSerializable(v).items == items;
    case Dict(entries) =>
      forall k | 0 <= k < |entries| ensures MakeSerializable(entries[k].value) == entries[k].value {
        SanitizedIsFixed(entries[k].value);
      }
      assert MakeSerializable(v).entries == entries;
    case _ =>
  }

  /** Sanitising twice is sanitising once. */
  lemma MakeSerializableIdempotent(v: Value)
    ensures MakeSerializable(MakeSerializable(v)) == MakeSerializable(v)
  {
    SanitizedIsFixed(MakeSerializable(v));
  }

  /** The file image of the in-memory dictionary: every stored value sanitised, keys unchanged. */
  function SavedForm(m: map<string, Value>): (saved: map<string, Value>)
    ensures saved.Keys == m.Keys
    ensures forall key :: key in m ==> Sanitized(saved[key])
  {
    map key | key in m :: MakeSerializable(m[key])
  }

  /** Saving after storing one more entry writes the old image with that entry's sanitised value added. */
  lemma SavedFormUpdate(m: map<string, Value>, key: string, v: Value)
    ensures SavedForm(m[key := v]) == SavedForm(m)[key := MakeSerializable(v)]
  {
  }

  /** One `memory_cache_decorator` closure: its own dictionary, keyed by the decorated function's name. */
  class MemoryCache {
    /** `func.__name__` of the decorated coroutine. */
    const name: string
    /** The closure's `cache` dictionary. */
    var entries: map<string, Value>
    /** The keys on which the decorated coroutine was awaited, in order. */
    var evaluations: seq<string>

    /** Decorating a coroutine: an empty dictionary of its own. */
    constructor (name: string)
      ensures this.name == name && entries == map[] && evaluations == []
    {
      this.name := name;
      entries := map[];
      evaluations := [];
    }

    /**
     * The wrapper: a stored result is returned without awaiting the
     * coroutine; otherwise the coroutine runs, and its result is stored,
     * unless it raised, in which case nothing is stored and the error
     * propagates.
     */
    method Call(args: Args, kwargs: Kwargs, f: Body) returns (r: Result<Value, string>)
      modifies this
      ensures var key := Key(name, args, kwargs);
        if key in old(entries) then
          r == Success(old(entries)[key]) && entries == old(entries) && evaluations == old(evaluations)
        else
          r == f(args, kwargs) && evaluations == old(evaluations) + [key]
          && entries == (if r.Success? then old(entries)[key := r.value] else old(entries))
    {
      var key := Key(name, args, kwargs);
      if key !in entries {
        evaluations := evaluations + [key];
        var result := f(args, kwargs);
        if result.Failure? {
          return result;
        }
        entries := entries[key := result.value];
      }
      r := Success(entries[key]);
    }
  }

  /** `clear_memory_cache` only prints a notice: every memory dictionary keeps its entries. */
  method ClearMemoryCache(memory: MemoryCache)
    ensures unchanged(memory)
  {
  }

  /** The module-level `persistent_cache` dictionary together with the contents of `query_cache.json`. */
  class PersistentCache {
    /** `persistent_cache` as the running program holds it. */
    var entries: map<string, Value>
    /** What `query_cache.json` holds; a missing file reads as the empty dictionary. */
    var saved: map<string, Value>

    /** After every write the file is the sanitised image of the dictionary. */
    ghost predicate Valid()
      reads this
    {
      saved == SavedForm(entries)
    }

    /**
     * `load_cache` at import time: the decoded file when it exists,
     * otherwise an empty dictionary. A decoded JSON document holds only
     * sanitised values.
     */
    constructor Load(file: Option<map<string, Value>>)
      requires file.Some? ==> forall key :: key in file.value ==> Sanitized(file.value[key])
      ensures entries == (if file.Some? then file.value else map[])
      ensures Valid()
    {
      var m := if file.Some? then file.value else map[];
      forall key | key in m ensures MakeSerializable(m[key]) == m[key] {
        SanitizedIsFixed(m[key]);
      }
      entries := m;
      saved := m;
    }

    /**
     * `persistent_cache_decorator` around `memory_cache_decorator`: a key
     * found in the persistent dictionary is answered from it and nothing
     * else happens; otherwise the memory layer answers, and its result is
     * stored and the whole dictionary written to the file. An error raised
     * by the coroutine leaves both dictionaries and the file as they were.
     */
    method Call(args: Args, kwargs: Kwargs, memory: MemoryCache, f: Body) returns (r: Result<Value, string>)
      requires Valid()
      modifies this, memory
      ensures Valid()
      ensures var key := Key(memory.name, args, kwargs);
        if key in old(entries) then
          r == Success(old(entries)[key]) && entries == old(entries) && saved == old(saved)
          && memory.entries == old(memory.entries) && memory.evaluations == old(memory.evaluations)
        else
          (if key in old(memory.entries) then r == Success(old(memory.entries)[key]) else r == f(args, kwargs))
          && memory.evaluations == old(memory.evaluations) + (if key in old(memory.entries) then [] else [key])
          && memory.entries == (if r.Success? then old(memory.entries)[key := r.value] else old(memory.entries))
          && entries == (if r.Success? then old(entries)[key := r.value] else old(entries))
    {
      var key := Key(memory.name, args, kwargs);
      if key in entries {
        return Success(entries[key]);
      }
      r := memory.Call(args, kwargs, f);
      if r.Success? {
        SavedFormUpdate(entries, key, r.value);
        entries := entries[key := r.value];
        saved := SavedForm(entries);
      }
    }

    /** `clear_persistent_cache`: the dictionary is emptied and the empty dictionary written out. */
    method Clear()
      modifies this
      ensures entries == map[] && saved == map[]
      ensures Valid()
    {
      entries := map[];
      saved := SavedForm(entries);
    }
  }

  /**
   * Clearing the persistent layer does not make the coroutine run again:
   * the memory layer still answers for the key, and its answer is stored
   * and saved anew. Only a call that raised is repeated, because nothing
   * was stored for it; the second answer is then that of the new run.
   */
  method ClearThenRepeat(name: string, args: Args, kwargs: Kwargs, f: Body)
    returns (first: Result<Value, string>, second: Result<Value, string>, runs: nat)
    ensures first == f(args, kwargs)
    ensures first.Success? ==> second == first
    ensures first.Failure? ==> second == f(args, kwargs)
    ensures runs == (if first.Success? then 1 else 2)
  {
    var memory := new MemoryCache(name);
    var persistent := new PersistentCache.Load(None);
    first := persistent.Call(args, kwargs, memory, f);
    persistent.Clear();
    second := persistent.Call(args, kwargs, memory, f);
    runs := |memory.evaluations|;
  }

  /**
   * The same call twice in a fresh process: whatever the first run returned
   * is stored and answers the second call, which runs nothing.
   */
  method CallTwice(name: string, args: Args, kwargs: Kwargs, f: Body)
    returns (first: Result<Value, string>, second: Result<Value, string>, stored: Option<Value>, runs: nat)
    ensures first == f(args, kwargs)
    ensures first.Success? ==> stored == Some(first.value) && second == first && runs == 1
    ensures first.Failure? ==> stored == None && second == f(args, kwargs) && runs == 2
  {
    var memory := new MemoryCache(name);
    var persistent := new PersistentCache.Load(None);
    var key := Key(name, args, kwargs);
    first := persistent.Call(args, kwargs, memory, f);
    stored := if key in persistent.entries then Some(persistent.entries[key]) else None;
    second := persistent.Call(args, kwargs, memory, f);
    runs := |memory.evaluations|;
  }

  /**
   * After a restart, a call whose key differs from the stored call's key is
   * not answered from the file: the coroutine runs again.
   */
  method RestartWithOtherKey(name: string, args: Args, args': Args, kwargs: Kwargs, f: Body)
    returns (before: Result<Value, string>, after: Result<Value, string>, runsAfterRestart: nat)
    requires Key(name, args, kwargs) != Key(name, args', kwargs)
    ensures before == f(args, kwargs) && after == f(args', kwargs)
    ensures runsAfterRestart == 1
  {
    var memory := new MemoryCache(name);
    var persistent := new PersistentCache.Load(None);
    before := persistent.Call(args, kwargs, memory, f);
    var restarted := new PersistentCache.Load(Some(persistent.saved));
    var memoryAfterRestart := new MemoryCache(name);
    after := restarted.Call(args', kwargs, memoryAfterRestart, f);
    runsAfterRestart := |memoryAfterRestart.evaluations|;
  }

  /**
   * A restarted program answers from the file: the stored result comes back
   * sanitised (a tuple as a list), without the coroutine running.
   */
  method ReloadAfterRestart(name: string, args: Args, kwargs: Kwargs, f: Body)
    returns (computed: Result<Value, string>, reloaded: Result<Value, string>, runsAfterRestart: nat)
    ensures computed == f(args, kwargs)
    ensures computed.Success? ==> reloaded == Success(MakeSerializable(computed.value)) && runsAfterRestart == 0
  {
    var memory := new MemoryCache(name);
    var persistent := new PersistentCache.Load(None);
    computed := persistent.Call(args, kwargs, memory, f);
    var restarted := new PersistentCache.Load(Some(persistent.saved));
    var memoryAfterRestart := new MemoryCache(name);
    reloaded := restarted.Call(args, kwargs, memoryAfterRestart, f);
    runsAfterRestart := |memoryAfterRestart.evaluations|;
  }
}
