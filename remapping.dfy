/**
 * Renaming generic parameter names to provider argument names with a
 * rename table. Two variants exist in the adapters and are kept apart:
 * the unguarded loop (`params[target] = params.pop(source)`) used by the
 * OpenAI, Bedrock, Anthropic, Gemini and Grok adapters, which overwrites
 * an existing target, and the guarded loop of the Azure adapter, which
 * moves a key only when its target is not there yet.
 */
module Remapping {
  import opened Domain
  import opened ParamMaps

  type Params = map<string, Value>

  /** One step of the unguarded loop: when `source` is present, pop it and store its value under `target`. */
  function MoveUnguarded(p: Params, source: string, target: string): Params {
    if source in p then (p - {source})[target := p[source]] else p
  }

  /** One step of the guarded loop: the same move, done only when `target` is absent. */
  function MoveGuarded(p: Params, source: string, target: string): Params {
    if source in p && target !in p then (p - {source})[target := p[source]] else p
  }

  /** The unguarded loop over the table, entries taken in table order. */
  function Remapped(p: Params, table: ParamMap): Params
    decreases |table|
  {
    if table == [] then p else Remapped(MoveUnguarded(p, table[0].0, table[0].1), table[1..])
  }

  /** The guarded loop over the table, entries taken in table order. */
  function RemappedGuarded(p: Params, table: ParamMap): Params
    decreases |table|
  {
    if table == [] then p else RemappedGuarded(MoveGuarded(p, table[0].0, table[0].1), table[1..])
  }

  /** Key `k` has the same presence and the same value in `p` and `r`. */
  predicate Same(p: Params, r: Params, k: string) {
    (k in r <==> k in p) && (k in r ==> r[k] == p[k])
  }

  /**
   * What an unguarded remap does, entry by entry: a present source's value
   * ends up under its target (overwriting whatever was there), a source is
   * gone unless its entry maps it to itself, a target whose source is
   * absent is left as it was, and names the table does not mention are
   * untouched.
   */
  ghost predicate RenamedFrom(p: Params, table: ParamMap, r: Params) {
    && (forall e | e in table && e.0 in p :: e.1 in r && r[e.1] == p[e.0])
    && (forall e | e in table && e.0 != e.1 :: e.0 !in r)
    && (forall e | e in table && e.0 !in p :: Same(p, r, e.1))
    && (forall k | k !in Mentioned(table) :: Same(p, r, k))
  }

  /**
   * What a guarded remap does, entry by entry: a present source whose
   * target is absent is moved to the target; when the target is already
   * present, or the source is absent, both keys keep what they had; names
   * the table does not mention are untouched.
   */
  ghost predicate GuardedRenamedFrom(p: Params, table: ParamMap, r: Params) {
    && (forall e | e in table && e.0 in p && e.1 !in p :: e.1 in r && r[e.1] == p[e.0] && e.0 !in r)
    && (forall e | e in table && e.1 in p :: Same(p, r, e.0) && Same(p, r, e.1))
    && (forall e | e in table && e.0 !in p :: Same(p, r, e.0) && Same(p, r, e.1))
    && (forall k | k !in Mentioned(table) :: Same(p, r, k))
  }

  /** The unguarded loop, as the adapters run it on their local `params` dict. */
  method RemapUnguarded(params: Params, table: ParamMap) returns (out: Params)
    ensures out == Remapped(params, table)
  {
    out := params;
    for i := 0 to |table|
      invariant Remapped(out, table[i..]) == Remapped(params, table)
    {
      assert table[i..][1..] == table[i + 1..];
      var (source, target) := table[i];
      if source in out {
        var value := out[source];
        out := out - {source};
        out := out[target := value];
      }
    }
  }

  /** The guarded loop of the Azure adapter. */
  method RemapGuarded(params: Params, table: ParamMap) returns (out: Params)
    ensures out == RemappedGuarded(params, table)
  {
    out := params;
    for i := 0 to |table|
      invariant RemappedGuarded(out, table[i..]) == RemappedGuarded(params, table)
    {
      assert table[i..][1..] == table[i + 1..];
      var (source, target) := table[i];
      if source in out {
        if target !in out {
          var value := out[source];
          out := out - {source};
          out := out[target := value];
        }
      }
    }
  }

  /** The head entry of a disjoint table is mentioned nowhere in its tail. */
  lemma HeadNotMentioned(e: (string, string), rest: ParamMap)
    requires Apart(e, rest)
    ensures e.0 !in Mentioned(rest) && e.1 !in Mentioned(rest)
  {
    if e.0 in Mentioned(rest) {
      var f := MentionedBy(rest, e.0);
    }
    if e.1 in Mentioned(rest) {
      var f := MentionedBy(rest, e.1);
    }
  }

  /** Under a disjoint table the unguarded remap does exactly what RenamedFrom says. */
  lemma {:induction false} RemappedSpec(p: Params, table: ParamMap)
    requires Disjoint(table)
    ensures RenamedFrom(p, table, Remapped(p, table))
    decreases |table|
  {
    if table != [] {
      var e0, rest := table[0], table[1..];
      assert table == [e0] + rest;
      var q := MoveUnguarded(p, e0.0, e0.1);
      var f := Remapped(p, table);
      RemappedSpec(q, rest);
      HeadNotMentioned(e0, rest);
      assert forall k | k != e0.0 && k != e0.1 :: Same(p, q, k);
      forall e | e in table && e.0 in p
        ensures e.1 in f && f[e.1] == p[e.0]
      {
        if e != e0 {
          assert e in rest;
        }
      }
      forall e | e in table && e.0 != e.1
        ensures e.0 !in f
      {
        if e != e0 {
          assert e in rest;
        } else {
          assert e0.0 !in q;
        }
      }
      forall e | e in table && e.0 !in p
        ensures Same(p, f, e.1)
      {
        if e != e0 {
          assert e in rest;
        }
      }
      forall k | k !in Mentioned(table)
        ensures Same(p, f, k)
      {
        assert k !in Mentioned(rest);
      }
    }
  }

  /** Under a disjoint table the guarded remap does exactly what GuardedRenamedFrom says. */
  lemma {:induction false} RemappedGuardedSpec(p: Params, table: ParamMap)
    requires Disjoint(table)
    ensures GuardedRenamedFrom(p, table, RemappedGuarded(p, table))
    decreases |table|
  {
    if table != [] {
      var e0, rest := table[0], table[1..];
      assert table == [e0] + rest;
      var q := MoveGuarded(p, e0.0, e0.1);
      var f := RemappedGuarded(p, table);
      RemappedGuardedSpec(q, rest);
      HeadNotMentioned(e0, rest);
      assert forall k | k != e0.0 && k != e0.1 :: Same(p, q, k);
      forall e | e in table && e.0 in p && e.1 !in p
        ensures e.1 in f && f[e.1] == p[e.0] && e.0 !in f
      {
        if e != e0 {
          assert e in rest;
        }
      }
      forall e | e in table && e.1 in p
        ensures Same(p, f, e.0) && Same(p, f, e.1)
      {
        if e != e0 {
          assert e in rest;
        }
      }
      forall e | e in table && e.0 !in p
        ensures Same(p, f, e.0) && Same(p, f, e.1)
      {
        if e != e0 {
          assert e in rest;
        }
      }
      forall k | k !in Mentioned(table)
        ensures Same(p, f, k)
      {
        assert k !in Mentioned(rest);
      }
    }
  }

  /** Two tables with the same entries mention the same names. */
  lemma SameMentions(t1: ParamMap, t2: ParamMap)
    requires forall e :: e in t1 <==> e in t2
    ensures Mentioned(t1) == Mentioned(t2)
  {
    forall k | k in Mentioned(t1) ensures k in Mentioned(t2) {
      var e := MentionedBy(t1, k);
    }
    forall k | k in Mentioned(t2) ensures k in Mentioned(t1) {
      var e := MentionedBy(t2, k);
    }
  }

  /** Maps that agree on every key are equal. */
  lemma SameEverywhere(r1: Params, r2: Params)
    requires forall k :: Same(r1, r2, k)
    ensures r1 == r2
  {
    forall k | k in r1 ensures k in r2 && r1[k] == r2[k] {
      assert Same(r1, r2, k);
    }
    forall k | k in r2 ensures k in r1 {
      assert Same(r1, r2, k);
    }
  }

  /** Iteration order does not matter: reordering a disjoint table gives the same unguarded remap. */
  lemma RemapOrderIrrelevant(p: Params, t1: ParamMap, t2: ParamMap)
    requires Disjoint(t1) && Disjoint(t2)
    requires forall e :: e in t1 <==> e in t2
    ensures Remapped(p, t1) == Remapped(p, t2)
  {
    var r1, r2 := Remapped(p, t1), Remapped(p, t2);
    RemappedSpec(p, t1);
    RemappedSpec(p, t2);
    SameMentions(t1, t2);
    forall k ensures Same(r1, r2, k) {
      if k in Mentioned(t1) {
        var e := MentionedBy(t1, k);
        assert e in t2;
        if k == e.1 {
          if e.0 in p {
            assert r1[k] == p[e.0] == r2[k];
          } else {
            assert Same(p, r1, k) && Same(p, r2, k);
          }
        } else {
          assert k !in r1 && k !in r2;
        }
      } else {
        assert Same(p, r1, k) && Same(p, r2, k);
      }
    }
    SameEverywhere(r1, r2);
  }

  /** Iteration order does not matter for the guarded remap either. */
  lemma RemapGuardedOrderIrrelevant(p: Params, t1: ParamMap, t2: ParamMap)
    requires Disjoint(t1) && Disjoint(t2)
    requires forall e :: e in t1 <==> e in t2
    ensures RemappedGuarded(p, t1) == RemappedGuarded(p, t2)
  {
    var r1, r2 := RemappedGuarded(p, t1), RemappedGuarded(p, t2);
    RemappedGuardedSpec(p, t1);
    RemappedGuardedSpec(p, t2);
    SameMentions(t1, t2);
    forall k ensures Same(r1, r2, k) {
      if k in Mentioned(t1) {
        var e := MentionedBy(t1, k);
        assert e in t2;
        if e.0 !in p || e.1 in p {
          assert Same(p, r1, k) && Same(p, r2, k);
        } else if k == e.1 {
          assert r1[k] == p[e.0] == r2[k];
        } else {
          assert k !in r1 && k !in r2;
        }
      } else {
        assert Same(p, r1, k) && Same(p, r2, k);
      }
    }
    SameEverywhere(r1, r2);
  }
}
