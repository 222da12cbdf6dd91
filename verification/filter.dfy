/**
 The sensitive-field list (`logFilter`), filled from `LOG_FILTER` and the
 `-log.filter` flag. Each `Set` call appends the comma-separated tokens of
 its argument, trimmed, to what is already there.
 */
module Filter {
  import opened Values
  import opened GoStrings

  /** `logFilter.Set(value)`: appends `TrimSpace` of every piece of
      `strings.Split(value, ",")`, empty pieces included, and reports no
      error. */
  method Set(f: seq<string>, value: string) returns (r: seq<string>, err: Option<string>)
    ensures err.None?
    ensures |r| == |f| + Count(value, ',') + 1
    ensures r[..|f|] == f
    ensures forall k :: 0 <= k < |r| - |f| ==> r[|f| + k] == TrimSpace(Split(value)[k])
    ensures forall k :: |f| <= k < |r| ==> Trimmed(r[k])
  {
    var parts := Split(value);
    r := f;
    var n := 0;
    while n < |parts|
      invariant 0 <= n <= |parts|
      invariant |r| == |f| + n
      invariant r[..|f|] == f
      invariant forall k :: 0 <= k < n ==> r[|f| + k] == TrimSpace(parts[k])
      invariant forall k :: |f| <= k < |r| ==> Trimmed(r[k])
    {
      r := r + [TrimSpace(parts[n])];
      n := n + 1;
    }
    err := None;
  }

  /** A piece that is empty or only white space becomes the entry `""`, and
      only such a piece does. */
  lemma BlankTokenKeptAsEmpty(value: string, k: nat)
    requires k < |Split(value)|
    ensures TrimSpace(Split(value)[k]) == "" <==> AllSpace(Split(value)[k])
  {
  }

  /** `"a, b ,c"` splits into `a`, ` b ` and `c`. */
  lemma SplitExample()
    ensures Split("a, b ,c") == ["a", " b ", "c"]
    ensures Split("") == [""]
  {
    assert "a, b ,c" == "a" + "," + (" b " + "," + "c");
    assert ',' !in "a" && ',' !in " b " && ',' !in "c";
    SplitCons("a", " b " + "," + "c");
    SplitCons(" b ", "c");
    SplitNoComma("c");
  }

  /** ... and the pieces trim to `a`, `b` and `c`. */
  lemma TrimExample()
    ensures TrimSpace(" b ") == "b" && TrimSpace("a") == "a" && TrimSpace("c") == "c"
    ensures TrimSpace("") == ""
  {
  }
}
