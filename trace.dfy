/**
 * The trace of calls the dispatch loop makes over a list of image keys, and
 * what it looks like when a collaborator raises part-way through.
 */
module Trace {
  import opened Wrappers
  import opened Cli
  import opened Policy

  /**
   * The calls the loop makes over `keys` when no collaborator raises; the
   * iteration at position i sees `probe(i)`.
   */
  function Planned(action: Action, keys: seq<ImageKey>, probe: nat -> Probe): (r: seq<Call>)
    decreases |keys|
  {
    if keys == [] then []
    else Planned(action, keys[..|keys| - 1], probe) + KeyCalls(action, keys[|keys| - 1], probe(|keys| - 1))
  }

  /** Whether the loop reaches the call at trace position `failAt`, which raises. */
  predicate Fails(planned: seq<Call>, failAt: Option<nat>) {
    failAt.Some? && failAt.value < |planned|
  }

  /**
   * The calls actually made when the call at trace position `failAt` raises:
   * nothing catches it, so that call is the last one made.
   */
  function Issued(planned: seq<Call>, failAt: Option<nat>): (t: seq<Call>)
    ensures t <= planned
    ensures Fails(planned, failAt) ==> |t| == failAt.value + 1
    ensures !Fails(planned, failAt) ==> t == planned
  {
    if Fails(planned, failAt) then planned[..failAt.value + 1] else planned
  }

  /** Once the raising call is planned, planning further calls changes nothing that is made. */
  lemma IssuedOfPrefix(short: seq<Call>, long: seq<Call>, failAt: Option<nat>)
    requires short <= long && Fails(short, failAt)
    ensures Fails(long, failAt)
    ensures Issued(short, failAt) == Issued(long, failAt)
    ensures short[failAt.value] == long[failAt.value]
  {
    assert long[..failAt.value + 1] == short[..failAt.value + 1];
  }

  /** The calls of `t` that satisfy `p`, in order. */
  function Filter(t: seq<Call>, p: Call -> bool): (r: seq<Call>)
  {
    if t == [] then [] else (if p(t[0]) then [t[0]] else []) + Filter(t[1..], p)
  }

  /** Filtering distributes over concatenation. */
  lemma {:induction false} FilterAppend(a: seq<Call>, b: seq<Call>, p: Call -> bool)
    ensures Filter(a + b, p) == Filter(a, p) + Filter(b, p)
  {
    if a == [] {
      assert a + b == b;
    } else {
      var head := if p(a[0]) then [a[0]] else [];
      assert (a + b)[0] == a[0];
      assert (a + b)[1..] == a[1..] + b;
      assert Filter(a + b, p) == head + Filter(a[1..] + b, p);
      FilterAppend(a[1..], b, p);
      assert Filter(a, p) == head + Filter(a[1..], p);
    }
  }

  /** In a block whose only call satisfying `p` is at position q, every prefix holds that call iff it reaches past q. */
  lemma {:induction false} FilterOnlyAt(b: seq<Call>, p: Call -> bool, q: nat, k: nat)
    requires q < |b| && k <= |b|
    requires forall j :: 0 <= j < |b| ==> (p(b[j]) <==> j == q)
    ensures Filter(b[..k], p) == if k > q then [b[q]] else []
    decreases k
  {
    if k == 0 {
      assert b[..0] == [];
    } else {
      FilterOnlyAt(b, p, q, k - 1);
      assert b[..k] == b[..k - 1] + [b[k - 1]];
      FilterAppend(b[..k - 1], [b[k - 1]], p);
      assert [b[k - 1]][1..] == [];
    }
  }

  /** One key's block holds exactly one lookup, one load and one save. */
  lemma BlockFilters(action: Action, key: ImageKey, p: Probe)
    ensures Filter(KeyCalls(action, key, p), IsLookup) == [GetConfig(key)]
    ensures Filter(KeyCalls(action, key, p), IsLoad) == [LoadMeta(key)]
    ensures Filter(KeyCalls(action, key, p), IsSave) == [SaveMeta(key, action)]
  {
    var b := KeyCalls(action, key, p);
    KeyCallsFrame(action, key, p);
    assert b[..|b|] == b;
    FilterOnlyAt(b, IsLookup, 0, |b|);
    FilterOnlyAt(b, IsLoad, 1, |b|);
    FilterOnlyAt(b, IsSave, |b| - 1, |b|);
  }

  /** A shorter planned trace is a prefix of a longer one: later keys only add calls. */
  lemma {:induction false} PlannedPrefix(action: Action, keys: seq<ImageKey>, probe: nat -> Probe, i: nat)
    requires i <= |keys|
    ensures Planned(action, keys[..i], probe) <= Planned(action, keys, probe)
    decreases |keys|
  {
    if i == |keys| {
      assert keys[..i] == keys;
    } else {
      var init := keys[..|keys| - 1];
      assert init[..i] == keys[..i];
      PlannedPrefix(action, init, probe, i);
    }
  }

  /** Processing one more key appends exactly that key's block. */
  lemma PlannedStep(action: Action, keys: seq<ImageKey>, probe: nat -> Probe, i: nat)
    requires i < |keys|
    ensures Planned(action, keys[..i + 1], probe)
         == Planned(action, keys[..i], probe) + KeyCalls(action, keys[i], probe(i))
  {
    assert keys[..i + 1][..i] == keys[..i];
  }

  /** The block b that follows `before` inside `whole` is the slice of `whole` right after `before`. */
  lemma SliceOfPrefix(before: seq<Call>, b: seq<Call>, whole: seq<Call>)
    requires before + b <= whole
    ensures |before| + |b| <= |whole| && whole[|before|..|before| + |b|] == b
  {
    var o := |before|;
    forall k | 0 <= k < |b|
      ensures whole[o..o + |b|][k] == b[k]
    {
      assert whole[o + k] == (before + b)[o + k];
    }
  }

  /**
   * Key i's calls form one contiguous block of the planned trace, placed right
   * after the blocks of the keys before it.
   */
  lemma BlockAt(action: Action, keys: seq<ImageKey>, probe: nat -> Probe, i: nat)
    requires i < |keys|
    ensures var o := |Planned(action, keys[..i], probe)|;
            var b := KeyCalls(action, keys[i], probe(i));
            o + |b| <= |Planned(action, keys, probe)| &&
            Planned(action, keys, probe)[o..o + |b|] == b
  {
    PlannedStep(action, keys, probe, i);
    PlannedPrefix(action, keys, probe, i + 1);
    SliceOfPrefix(Planned(action, keys[..i], probe), KeyCalls(action, keys[i], probe(i)),
                  Planned(action, keys, probe));
  }

  /**
   * If every block holds exactly one call satisfying `p`, of the form
   * `callFor(key)`, the planned trace holds one such call per key occurrence,
   * in the order of the keys.
   */
  lemma {:induction false} PlannedOnePerKey(action: Action, keys: seq<ImageKey>, probe: nat -> Probe,
                                            p: Call -> bool, callFor: ImageKey -> Call)
    requires forall key: ImageKey, q: Probe :: Filter(KeyCalls(action, key, q), p) == [callFor(key)]
    ensures var f := Filter(Planned(action, keys, probe), p);
            |f| == |keys| && forall i :: 0 <= i < |keys| ==> f[i] == callFor(keys[i])
    decreases |keys|
  {
    if keys != [] {
      var n := |keys| - 1;
      var init := keys[..n];
      var a := Planned(action, init, probe);
      var b := KeyCalls(action, keys[n], probe(n));
      assert Planned(action, keys, probe) == a + b;
      PlannedOnePerKey(action, init, probe, p, callFor);
      FilterAppend(a, b, p);
      var f := Filter(a, p) + [callFor(keys[n])];
      forall i | 0 <= i < |keys|
        ensures f[i] == callFor(keys[i])
      {
        if i < n {
          assert f[i] == Filter(a, p)[i] == callFor(init[i]);
        } else {
          assert |Filter(a, p)| == n;
        }
      }
    }
  }

  /** The planned trace looks up and loads each key once per occurrence, in the given order. */
  lemma PlannedLoads(action: Action, keys: seq<ImageKey>, probe: nat -> Probe)
    ensures var lookups := Filter(Planned(action, keys, probe), IsLookup);
            |lookups| == |keys| && forall i :: 0 <= i < |keys| ==> lookups[i] == GetConfig(keys[i])
    ensures var loads := Filter(Planned(action, keys, probe), IsLoad);
            |loads| == |keys| && forall i :: 0 <= i < |keys| ==> loads[i] == LoadMeta(keys[i])
  {
    forall key: ImageKey, q: Probe
      ensures Filter(KeyCalls(action, key, q), IsLookup) == [GetConfig(key)]
      ensures Filter(KeyCalls(action, key, q), IsLoad) == [LoadMeta(key)]
    {
      BlockFilters(action, key, q);
    }
    PlannedOnePerKey(action, keys, probe, IsLookup, key => GetConfig(key));
    PlannedOnePerKey(action, keys, probe, IsLoad, key => LoadMeta(key));
  }

  /**
   * The planned trace saves each key once per occurrence, in the given order,
   * tagged with the action; so it holds exactly as many saves as keys.
   */
  lemma PlannedSaves(action: Action, keys: seq<ImageKey>, probe: nat -> Probe)
    ensures var saves := Filter(Planned(action, keys, probe), IsSave);
            |saves| == |keys| && forall i :: 0 <= i < |keys| ==> saves[i] == SaveMeta(keys[i], action)
  {
    forall key: ImageKey, q: Probe
      ensures Filter(KeyCalls(action, key, q), IsSave) == [SaveMeta(key, action)]
    {
      BlockFilters(action, key, q);
    }
    PlannedOnePerKey(action, keys, probe, IsSave, key => SaveMeta(key, action));
  }

  /**
   * Cutting the planned trace right after any call leaves exactly one key
   * looked up and not yet saved: the key whose block holds that call.
   */
  lemma {:induction false} CutInsideOneKey(action: Action, keys: seq<ImageKey>, probe: nat -> Probe, j: nat)
    requires j < |Planned(action, keys, probe)|
    ensures var whole := Planned(action, keys, probe);
            |Filter(whole[..j + 1], IsLookup)| == |Filter(whole[..j], IsSave)| + 1
    decreases |keys|
  {
    var n := |keys| - 1;
    var init := keys[..n];
    var a := Planned(action, init, probe);
    var b := KeyCalls(action, keys[n], probe(n));
    assert Planned(action, keys, probe) == a + b;
    if j < |a| {
      PrefixOfConcat(a, b, j + 1);
      PrefixOfConcat(a, b, j);
      CutInsideOneKey(action, init, probe, j);
    } else {
      PlannedLoads(action, init, probe);
      PlannedSaves(action, init, probe);
      BlockCut(action, keys[n], probe(n), j - |a|);
      CutInBlock(a, b, j, |init|);
    }
  }

  /** A cut inside block b, after a trace a of n complete blocks. */
  lemma CutInBlock(a: seq<Call>, b: seq<Call>, j: nat, n: nat)
    requires |a| <= j < |a| + |b|
    requires |Filter(a, IsLookup)| == n && |Filter(a, IsSave)| == n
    requires |Filter(b[..j - |a| + 1], IsLookup)| == 1 && Filter(b[..j - |a|], IsSave) == []
    ensures |Filter((a + b)[..j + 1], IsLookup)| == |Filter((a + b)[..j], IsSave)| + 1
  {
    var k := j - |a|;
    PrefixOfConcat(a, b, j + 1);
    PrefixOfConcat(a, b, j);
    FilterAppend(a, b[..k + 1], IsLookup);
    FilterAppend(a, b[..k], IsSave);
  }

  /** Inside one key's block, every cut has seen the lookup and not yet the save. */
  lemma BlockCut(action: Action, key: ImageKey, p: Probe, k: nat)
    requires k < |KeyCalls(action, key, p)|
    ensures var b := KeyCalls(action, key, p);
            |Filter(b[..k + 1], IsLookup)| == 1 && Filter(b[..k], IsSave) == []
  {
    var b := KeyCalls(action, key, p);
    KeyCallsFrame(action, key, p);
    FilterOnlyAt(b, IsLookup, 0, k + 1);
    FilterOnlyAt(b, IsSave, |b| - 1, k);
  }

  /** A prefix of a concatenation is a prefix of its first part, or all of it followed by a prefix of the second. */
  lemma PrefixOfConcat(a: seq<Call>, b: seq<Call>, m: nat)
    requires m <= |a| + |b|
    ensures m <= |a| ==> (a + b)[..m] == a[..m]
    ensures m >= |a| ==> (a + b)[..m] == a + b[..m - |a|]
  {
    if m >= |a| {
      assert (a + b)[..m] == a + b[..m - |a|];
    }
  }

  /** A prefix splits at any earlier position into a shorter prefix and the slice between. */
  lemma SplitAt(s: seq<Call>, j: nat, m: nat)
    requires j <= m <= |s|
    ensures s[..m] == s[..j] + s[j..m]
  {
  }

  /** The planned trace ends with the last key's save. */
  lemma PlannedEndsWithSave(action: Action, keys: seq<ImageKey>, probe: nat -> Probe)
    requires keys != []
    ensures var whole := Planned(action, keys, probe);
            |whole| > 0 && whole[|whole| - 1] == SaveMeta(keys[|keys| - 1], action)
  {
    var n := |keys| - 1;
    KeyCallsFrame(action, keys[n], probe(n));
    assert Planned(action, keys, probe)
        == Planned(action, keys[..n], probe) + KeyCalls(action, keys[n], probe(n));
  }

  /** Every cut strictly inside the planned trace misses at least the last save. */
  lemma SavesBeforeCut(action: Action, keys: seq<ImageKey>, probe: nat -> Probe, j: nat)
    requires j < |Planned(action, keys, probe)|
    ensures |Filter(Planned(action, keys, probe)[..j], IsSave)| < |keys|
  {
    var whole := Planned(action, keys, probe);
    var m := |whole| - 1;
    PlannedEndsWithSave(action, keys, probe);
    PlannedSaves(action, keys, probe);
    assert whole == whole[..m] + [whole[m]];
    FilterAppend(whole[..m], [whole[m]], IsSave);
    assert [whole[m]][1..] == [];
    SplitAt(whole, j, m);
    FilterAppend(whole[..j], whole[j..m], IsSave);
  }

  /**
   * Nothing is caught: when a collaborator call raises, the calls made are a
   * prefix of the planned ones ending in the raising call; the key being
   * processed is looked up but never saved, no later key is looked up, and
   * fewer keys than given have their metadata saved.
   */
  lemma NoFailureIsolation(action: Action, keys: seq<ImageKey>, probe: nat -> Probe, failAt: Option<nat>)
    requires Fails(Planned(action, keys, probe), failAt)
    ensures var whole := Planned(action, keys, probe);
            var t := Issued(whole, failAt);
            var done := t[..|t| - 1];
            t[|t| - 1] == whole[failAt.value] &&
            Filter(t, IsLookup) <= Filter(whole, IsLookup) &&
            Filter(done, IsSave) <= Filter(whole, IsSave) &&
            |Filter(t, IsLookup)| == |Filter(done, IsSave)| + 1 &&
            |Filter(done, IsSave)| < |keys|
  {
    var whole := Planned(action, keys, probe);
    var j := failAt.value;
    var t := Issued(whole, failAt);
    var done := t[..|t| - 1];
    assert t == whole[..j + 1] && done == whole[..j];
    CutInsideOneKey(action, keys, probe, j);
    assert whole[..|whole|] == whole;
    SplitAt(whole, j + 1, |whole|);
    FilterAppend(t, whole[j + 1..], IsLookup);
    assert Filter(t, IsLookup) <= Filter(t, IsLookup) + Filter(whole[j + 1..], IsLookup);
    SplitAt(whole, j, |whole|);
    FilterAppend(done, whole[j..], IsSave);
    assert Filter(done, IsSave) <= Filter(done, IsSave) + Filter(whole[j..], IsSave);
    SavesBeforeCut(action, keys, probe, j);
  }
}
