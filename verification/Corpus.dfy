/** internal/store/samples.go and bayes.go: the naive Bayes counters, maintained incrementally
    beside the table of labeled samples, against training from scratch on that table. */
module Corpus {

  type Hash = string
  type Token = string
  type Label = string
  type Scope = string

  /** The unique key of a row of the samples table. */
  datatype Sample = Sample(scope: Scope, side: Label, hash: Hash)

  datatype Totals = Totals(docs: int, tokens: int)

  function Occurrences(tokens: seq<Token>, token: Token): nat {
    if tokens == [] then 0
    else Occurrences(tokens[..|tokens|-1], token) + (if tokens[|tokens|-1] == token then 1 else 0)
  }

  // Training from scratch: sums over the samples of one scope and label.

  ghost function Sum(s: set<Hash>, f: Hash -> nat): nat {
    if s == {} then 0 else var h :| h in s; f(h) + Sum(s - {h}, f)
  }

  lemma {:induction false} SumWithout(s: set<Hash>, f: Hash -> nat, h: Hash)
    requires h in s
    ensures Sum(s, f) == f(h) + Sum(s - {h}, f)
    decreases s
  {
    var first :| first in s && Sum(s, f) == f(first) + Sum(s - {first}, f);
    if first != h {
      SumWithout(s - {first}, f, h);
      SumWithout(s - {h}, f, first);
      assert s - {first} - {h} == s - {h} - {first};
    }
  }

  ghost function HashesOf(samples: set<Sample>, scope: Scope, side: Label): set<Hash> {
    set s | s in samples && s.scope == scope && s.side == side :: s.hash
  }

  ghost function ScratchCount(samples: set<Sample>, tokensOf: Hash -> seq<Token>,
                              scope: Scope, token: Token, side: Label): nat {
    Sum(HashesOf(samples, scope, side), h => Occurrences(tokensOf(h), token))
  }

  ghost function ScratchTotals(samples: set<Sample>, tokensOf: Hash -> seq<Token>, scope: Scope, side: Label): Totals {
    Totals(Sum(HashesOf(samples, scope, side), h => 1), Sum(HashesOf(samples, scope, side), h => |tokensOf(h)|))
  }

  /** One sample more adds its tokens under its own scope and label and nothing elsewhere. */
  lemma ScratchAdd(samples: set<Sample>, tokensOf: Hash -> seq<Token>, s: Sample, scope: Scope, token: Token, side: Label)
    requires s !in samples
    ensures ScratchCount(samples + {s}, tokensOf, scope, token, side)
            == ScratchCount(samples, tokensOf, scope, token, side)
               + (if s.scope == scope && s.side == side then Occurrences(tokensOf(s.hash), token) else 0)
    ensures ScratchTotals(samples + {s}, tokensOf, scope, side)
            == var t := ScratchTotals(samples, tokensOf, scope, side);
               if s.scope == scope && s.side == side then Totals(t.docs + 1, t.tokens + |tokensOf(s.hash)|) else t
  {
    var was, now := HashesOf(samples, scope, side), HashesOf(samples + {s}, scope, side);
    if s.scope == scope && s.side == side {
      assert s in samples + {s};
      assert s.hash in now;
      assert now - {s.hash} == was;
      SumWithout(now, h => Occurrences(tokensOf(h), token), s.hash);
      SumWithout(now, h => 1, s.hash);
      SumWithout(now, h => |tokensOf(h)|, s.hash);
    } else {
      assert now == was;
    }
  }

  /** RelabelSampleWithOrigin as it changes the samples table. */
  function Relabelled(samples: set<Sample>, scope: Scope, from: Label, to: Label, hash: Hash): set<Sample> {
    samples - {Sample(scope, from, hash)} + {Sample(scope, to, hash)}
  }

  datatype Op = Import(scope: Scope, side: Label, hash: Hash)
              | Relabel(scope: Scope, from: Label, to: Label, hash: Hash)

  function Replay(samples: set<Sample>, ops: seq<Op>): set<Sample> {
    if ops == [] then samples
    else
      var before := Replay(samples, ops[..|ops|-1]);
      match ops[|ops|-1]
      case Import(scope, side, hash) => before + {Sample(scope, side, hash)}
      case Relabel(scope, from, to, hash) => Relabelled(before, scope, from, to, hash)
  }

  function Get<K>(m: map<K, int>, k: K): int {
    if k in m then m[k] else 0
  }

  function GetTotals(m: map<(Scope, Label), Totals>, k: (Scope, Label)): Totals {
    if k in m then m[k] else Totals(0, 0)
  }

  function Max(a: int, b: int): int {
    if a < b then b else a
  }

  /** `n` decrements of a counter that stops at zero. */
  function Floored(count: int, n: nat): int {
    if n == 0 then count else Max(0, count - n)
  }

  class Store {
    /** The token list behind each key: keys are hashes of it, or of the text it came from. */
    ghost const tokensOf: Hash -> seq<Token>
    var samples: set<Sample>
    var counts: map<(Scope, Token, Label), int>
    var totals: map<(Scope, Label), Totals>

    /** The counters are what training from scratch on the samples table gives. */
    ghost predicate Trained()
      reads this
    {
      && (forall scope, token, side :: Get(counts, (scope, token, side)) == ScratchCount(samples, tokensOf, scope, token, side))
      && (forall scope, side :: GetTotals(totals, (scope, side)) == ScratchTotals(samples, tokensOf, scope, side))
    }

    constructor (ghost tokensOf: Hash -> seq<Token>)
      ensures Trained() && samples == {} && this.tokensOf == tokensOf
    {
      this.tokensOf := tokensOf;
      samples, counts, totals := {}, map[], map[];
      new;
      forall scope, side ensures HashesOf(samples, scope, side) == {} {
      }
    }

    /** bumpBayesTx: one more per occurrence, one document more. */
    method Bump(scope: Scope, side: Label, tokens: seq<Token>)
      modifies this`counts, this`totals
      ensures forall sc, tok, si :: Get(counts, (sc, tok, si)) ==
                Get(old(counts), (sc, tok, si)) + (if sc == scope && si == side then Occurrences(tokens, tok) else 0)
      ensures forall k :: GetTotals(totals, k) ==
                var t := GetTotals(old(totals), k);
                if k == (scope, side) then Totals(t.docs + 1, t.tokens + |tokens|) else t
    {
      assert forall tok :: Occurrences(tokens[..0], tok) == 0;
      for n := 0 to |tokens|
        invariant totals == old(totals)
        invariant forall sc, tok, si :: Get(counts, (sc, tok, si)) ==
                    Get(old(counts), (sc, tok, si)) + (if sc == scope && si == side then Occurrences(tokens[..n], tok) else 0)
      {
        assert tokens[..n+1][..n] == tokens[..n];
        var k := (scope, tokens[n], side);
        counts := counts[k := if k in counts then counts[k] + 1 else 1];
      }
      assert tokens[..|tokens|] == tokens;
      var k := (scope, side);
      totals := totals[k := if k in totals then Totals(totals[k].docs + 1, totals[k].tokens + |tokens|)
                            else Totals(1, |tokens|)];
    }

    /** dropBayesTx: the inverse of Bump, floored at zero. */
    method Drop(scope: Scope, side: Label, tokens: seq<Token>)
      modifies this`counts, this`totals
      ensures forall sc, tok, si :: Get(counts, (sc, tok, si)) ==
                var c := Get(old(counts), (sc, tok, si));
                if sc == scope && si == side then Floored(c, Occurrences(tokens, tok)) else c
      ensures forall k :: GetTotals(totals, k) ==
                var t := GetTotals(old(totals), k);
                if k == (scope, side) then Totals(Max(0, t.docs - 1), Max(0, t.tokens - |tokens|)) else t
    {
      assert forall tok :: Occurrences(tokens[..0], tok) == 0;
      for n := 0 to |tokens|
        invariant totals == old(totals)
        invariant forall sc, tok, si :: Get(counts, (sc, tok, si)) ==
                    var c := Get(old(counts), (sc, tok, si));
                    if sc == scope && si == side then Floored(c, Occurrences(tokens[..n], tok)) else c
      {
        assert tokens[..n+1][..n] == tokens[..n];
        var k := (scope, tokens[n], side);
        if k in counts {
          counts := counts[k := Max(0, counts[k] - 1)];
        }
      }
      assert tokens[..|tokens|] == tokens;
      var k := (scope, side);
      if k in totals {
        totals := totals[k := Totals(Max(0, totals[k].docs - 1), Max(0, totals[k].tokens - |tokens|))];
      }
    }

    /** RecordSample: the row and its counts together, or nothing. */
    method RecordSample(scope: Scope, side: Label, hash: Hash, tokens: seq<Token>) returns (added: bool)
      requires Trained() && tokens == tokensOf(hash)
      modifies this
      ensures Trained()
      ensures added <==> Sample(scope, side, hash) !in old(samples)
      ensures samples == old(samples) + {Sample(scope, side, hash)}
    {
      var s := Sample(scope, side, hash);
      added := s !in samples;
      if !added {
        assert samples == samples + {s};
        return;
      }
      ghost var was := samples;
      samples := samples + {s};
      Bump(scope, side, tokens);
      forall sc, tok, si
        ensures Get(counts, (sc, tok, si)) == ScratchCount(samples, tokensOf, sc, tok, si)
      {
        ScratchAdd(was, tokensOf, s, sc, tok, si);
      }
      forall sc, si
        ensures GetTotals(totals, (sc, si)) == ScratchTotals(samples, tokensOf, sc, si)
      {
        ScratchAdd(was, tokensOf, s, sc, "", si);
      }
    }

    /** The first half of a relabeling: the old row and its counts go; no counter stops at zero early. */
    method Forget(scope: Scope, from: Label, hash: Hash, tokens: seq<Token>) returns (removed: bool)
      requires Trained() && tokens == tokensOf(hash)
      modifies this
      ensures Trained()
      ensures removed <==> Sample(scope, from, hash) in old(samples)
      ensures samples == old(samples) - {Sample(scope, from, hash)}
      ensures removed ==> forall tok :: Get(old(counts), (scope, tok, from)) >= Occurrences(tokens, tok)
      ensures removed ==> var t := GetTotals(old(totals), (scope, from)); t.docs >= 1 && t.tokens >= |tokens|
    {
      var s := Sample(scope, from, hash);
      removed := s in samples;
      ghost var was := samples;
      samples := samples - {s};
      if !removed {
        assert samples == was;
        return;
      }
      assert samples + {s} == was;
      forall sc, tok, si
        ensures ScratchCount(was, tokensOf, sc, tok, si) == ScratchCount(samples, tokensOf, sc, tok, si)
                  + (if sc == scope && si == from then Occurrences(tokens, tok) else 0)
      {
        ScratchAdd(samples, tokensOf, s, sc, tok, si);
      }
      forall sc, si
        ensures ScratchTotals(was, tokensOf, sc, si) ==
                  var t := ScratchTotals(samples, tokensOf, sc, si);
                  if sc == scope && si == from then Totals(t.docs + 1, t.tokens + |tokens|) else t
      {
        ScratchAdd(samples, tokensOf, s, sc, "", si);
      }
      Drop(scope, from, tokens);
    }

    /** RelabelSampleWithOrigin: a correction replaces the earlier judgement. */
    method RelabelSample(scope: Scope, from: Label, to: Label, hash: Hash, tokens: seq<Token>)
        returns (relabeled: bool, added: bool)
      requires Trained() && tokens == tokensOf(hash)
      modifies this
      ensures Trained()
      ensures samples == Relabelled(old(samples), scope, from, to, hash)
      ensures relabeled <==> Sample(scope, from, hash) in old(samples)
      ensures added <==> Sample(scope, to, hash) !in old(samples) - {Sample(scope, from, hash)}
    {
      relabeled := Forget(scope, from, hash, tokens);
      added := RecordSample(scope, to, hash, tokens);
    }

    /** BayesTotals for one label. */
    method BayesTotals(scope: Scope, side: Label) returns (t: Totals)
      requires Trained()
      ensures t == ScratchTotals(samples, tokensOf, scope, side)
    {
      t := if (scope, side) in totals then totals[(scope, side)] else Totals(0, 0);
    }

    /** TokenCounts for one label; an absent token counts nothing. */
    method TokenCounts(scope: Scope, side: Label, tokens: seq<Token>) returns (found: map<Token, int>)
      requires Trained()
      ensures forall tok :: tok in tokens ==> Get(found, tok) == ScratchCount(samples, tokensOf, scope, tok, side)
      ensures forall tok :: tok in found ==> tok in tokens
    {
      found := map[];
      for n := 0 to |tokens|
        invariant forall tok :: tok in tokens[..n] ==> Get(found, tok) == Get(counts, (scope, tok, side))
        invariant forall tok :: tok in found ==> tok in tokens && found[tok] == Get(counts, (scope, tok, side))
      {
        var k := (scope, tokens[n], side);
        if k in counts {
          found := found[tokens[n] := counts[k]];
        }
      }
    }

    /** Any sequence of imports and corrections. */
    method Train(ops: seq<Op>, tokens: seq<seq<Token>>)
      requires Trained() && |tokens| == |ops|
      requires forall n :: 0 <= n < |ops| ==> tokens[n] == tokensOf(ops[n].hash)
      modifies this
      ensures Trained() && samples == Replay(old(samples), ops)
    {
      for n := 0 to |ops|
        invariant Trained() && samples == Replay(old(samples), ops[..n])
      {
        assert ops[..n+1][..n] == ops[..n];
        match ops[n] {
          case Import(scope, side, hash) => var _ := RecordSample(scope, side, hash, tokens[n]);
          case Relabel(scope, from, to, hash) => var _, _ := RelabelSample(scope, from, to, hash, tokens[n]);
        }
      }
      assert ops[..|ops|] == ops;
    }
  }

  // What the invariant means for the moderators.

  predicate Corrects(op: Op, scope: Scope, hash: Hash) {
    op.Relabel? && op.from != op.to && op.scope == scope && op.hash == hash
    && ((op.from == "spam" && op.to == "ham") || (op.from == "ham" && op.to == "spam"))
  }

  predicate Touches(op: Op, scope: Scope, hash: Hash) {
    op.scope == scope && op.hash == hash
  }

  /** A key that only feedback ever labels sits under exactly one label: the last one given. */
  lemma {:induction false} LastLabelWins(ops: seq<Op>, n: nat, scope: Scope, hash: Hash)
    requires n < |ops| && Corrects(ops[n], scope, hash)
    requires forall k :: 0 <= k < |ops| && Touches(ops[k], scope, hash) ==> Corrects(ops[k], scope, hash)
    requires forall k :: n < k < |ops| ==> !Touches(ops[k], scope, hash)
    ensures forall side :: Sample(scope, side, hash) in Replay({}, ops) <==> side == ops[n].to
    decreases |ops|
  {
    var init := ops[..|ops|-1];
    if n < |ops| - 1 {
      LastLabelWins(init, n, scope, hash);
    } else {
      AtMostTwoLabels(init, scope, hash);
    }
  }

  lemma {:induction false} AtMostTwoLabels(ops: seq<Op>, scope: Scope, hash: Hash)
    requires forall k :: 0 <= k < |ops| && Touches(ops[k], scope, hash) ==> Corrects(ops[k], scope, hash)
    ensures forall side :: Sample(scope, side, hash) in Replay({}, ops) ==> side == "spam" || side == "ham"
  {
    if ops != [] {
      assert Touches(ops[|ops|-1], scope, hash) ==> Corrects(ops[|ops|-1], scope, hash);
      AtMostTwoLabels(ops[..|ops|-1], scope, hash);
    }
  }

  /** Spam to ham to spam restores the samples table, and with it every counter of a trained store. */
  lemma ThereAndBack(samples: set<Sample>, scope: Scope, hash: Hash)
    requires Sample(scope, "spam", hash) in samples && Sample(scope, "ham", hash) !in samples
    ensures Relabelled(Relabelled(samples, scope, "spam", "ham", hash), scope, "ham", "spam", hash) == samples
  {
  }

  lemma SameSamplesSameCounts(a: Store, b: Store)
    requires a.Trained() && b.Trained() && a.samples == b.samples && a.tokensOf == b.tokensOf
    ensures forall scope, token, side :: Get(a.counts, (scope, token, side)) == Get(b.counts, (scope, token, side))
    ensures forall scope, side :: GetTotals(a.totals, (scope, side)) == GetTotals(b.totals, (scope, side))
  {
  }
}
