/**
 `logw`: turns the variadic key/value arguments of `Infow`, `Warnw` and
 `Errorw` into fields. Arguments are read in pairs from the front; a pair
 whose key is not a string is dropped with a warning, and an odd trailing
 argument is dropped with a warning. The warnings themselves are log calls
 on the active handler; the model counts them.
 */
module KeyValues {
  import opened Values
  import opened Fields

  /** Position `i` starts a pair that `logw` keeps: it is a pair start, the
      pair is complete, and its key is a string. */
  predicate IsKeptKey(args: seq<Value>, i: int) {
    0 <= i && i + 1 < |args| && i % 2 == 0 && args[i].Str?
  }

  /** Key positions kept among the first `p` pairs, in order. */
  function KeptAmong(args: seq<Value>, p: nat): seq<nat>
    requires 2 * p <= |args|
  {
    if p == 0 then []
    else KeptAmong(args, p - 1) + (if args[2 * (p - 1)].Str? then [2 * (p - 1)] else [])
  }

  /** Key positions of all kept pairs, in order. */
  function KeptKeys(args: seq<Value>): seq<nat> {
    KeptAmong(args, |args| / 2)
  }

  /** Number of pairs among the first `p` whose key is not a string. */
  function DroppedAmong(args: seq<Value>, p: nat): nat
    requires 2 * p <= |args|
  {
    if p == 0 then 0
    else DroppedAmong(args, p - 1) + (if args[2 * (p - 1)].Str? then 0 else 1)
  }

  /** Kept positions among the first `p` pairs are exactly the kept key
      positions below `2p`, strictly increasing; kept and dropped pairs
      together are all `p` pairs. */
  lemma {:induction false} KeptAmongExact(args: seq<Value>, p: nat)
    requires 2 * p <= |args|
    ensures forall k :: 0 <= k < |KeptAmong(args, p)| ==>
              IsKeptKey(args, KeptAmong(args, p)[k]) && KeptAmong(args, p)[k] < 2 * p
    ensures forall i :: IsKeptKey(args, i) && i < 2 * p ==> i in KeptAmong(args, p)
    ensures forall k, l :: 0 <= k < l < |KeptAmong(args, p)| ==> KeptAmong(args, p)[k] < KeptAmong(args, p)[l]
    ensures |KeptAmong(args, p)| + DroppedAmong(args, p) == p
  {
    if p > 0 {
      KeptAmongExact(args, p - 1);
      var prev := KeptAmong(args, p - 1);
      var j := 2 * (p - 1);
      forall i | IsKeptKey(args, i) && i < 2 * p ensures i in KeptAmong(args, p) {
        if i < j {
          assert i in prev;
        } else {
          assert i == j;
        }
      }
    }
  }

  /** The fields `logw` returns are the kept pairs, in input order: the kept
      positions are exactly the string-keyed pair starts, increasing. */
  lemma KeptKeysExact(args: seq<Value>)
    ensures forall k :: 0 <= k < |KeptKeys(args)| ==> IsKeptKey(args, KeptKeys(args)[k])
    ensures forall i :: IsKeptKey(args, i) ==> i in KeptKeys(args)
    ensures forall k, l :: 0 <= k < l < |KeptKeys(args)| ==> KeptKeys(args)[k] < KeptKeys(args)[l]
    ensures |KeptKeys(args)| + DroppedAmong(args, |args| / 2) == |args| / 2
  {
    KeptAmongExact(args, |args| / 2);
  }

  /** `logw(args)`: the fields built from the string-keyed pairs, and the
      number of warnings emitted along the way. */
  method Logw(args: seq<Value>) returns (ds: seq<Field>, warnings: nat)
    ensures |ds| <= |args| / 2
    ensures |ds| == |KeptKeys(args)|
    ensures forall k :: 0 <= k < |ds| ==>
              IsKeptKey(args, KeptKeys(args)[k]) &&
              ds[k] == KV(args[KeptKeys(args)[k]].str, args[KeptKeys(args)[k] + 1])
    ensures warnings == (if |args| % 2 != 0 then 1 else 0) + (|args| / 2 - |ds|)
  {
    KeptKeysExact(args);
    warnings := 0;
    if |args| % 2 != 0 {
      warnings := 1;
    }
    ds := [];
    var i := 0;
    while i < |args| - 1
      invariant i % 2 == 0 && i <= |args|
      invariant i / 2 <= |args| / 2
      invariant |ds| == |KeptAmong(args, i / 2)|
      invariant forall k :: 0 <= k < |ds| ==>
                  IsKeptKey(args, KeptAmong(args, i / 2)[k]) &&
                  ds[k] == KV(args[KeptAmong(args, i / 2)[k]].str, args[KeptAmong(args, i / 2)[k] + 1])
      invariant warnings == (if |args| % 2 != 0 then 1 else 0) + DroppedAmong(args, i / 2)
    {
      assert (i + 2) / 2 == i / 2 + 1;
      if args[i].Str? {
        ds := ds + [KV(args[i].str, args[i + 1])];
      } else {
        warnings := warnings + 1;
      }
      i := i + 2;
    }
    assert i / 2 == |args| / 2;
    KeptAmongExact(args, i / 2);
  }

  /** When the count is odd, the trailing argument is neither a key nor a
      value of any field. */
  lemma OddTrailingDropped(args: seq<Value>)
    requires |args| % 2 != 0
    ensures forall k :: 0 <= k < |KeptKeys(args)| ==>
              KeptKeys(args)[k] != |args| - 1 && KeptKeys(args)[k] + 1 != |args| - 1
  {
    KeptKeysExact(args);
  }

  /** With an even count and every key a string, every pair becomes a field
      and nothing is dropped. */
  lemma {:induction false} AllStringKeysKept(args: seq<Value>)
    requires |args| % 2 == 0
    requires forall i :: 0 <= i < |args| && i % 2 == 0 ==> args[i].Str?
    ensures |KeptKeys(args)| == |args| / 2
    ensures forall k :: 0 <= k < |KeptKeys(args)| ==> KeptKeys(args)[k] == 2 * k
  {
    AllStringKeysAmong(args, |args| / 2);
  }

  lemma {:induction false} AllStringKeysAmong(args: seq<Value>, p: nat)
    requires 2 * p <= |args|
    requires forall i :: 0 <= i < |args| && i % 2 == 0 ==> args[i].Str?
    ensures |KeptAmong(args, p)| == p
    ensures forall k :: 0 <= k < p ==> KeptAmong(args, p)[k] == 2 * k
  {
    if p > 0 {
      AllStringKeysAmong(args, p - 1);
      assert args[2 * (p - 1)].Str?;
    }
  }

  /** `Infow(ctx, "a", 1, "b")` keeps `a: 1` only; `Infow(ctx, 7, "x")` keeps
      nothing. */
  lemma KeyValueExamples()
    ensures KeptKeys([Str("a"), Int(1), Str("b")]) == [0]
    ensures KeptKeys([Int(7), Str("x")]) == []
  {
  }
}
