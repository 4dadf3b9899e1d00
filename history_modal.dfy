/** The history dialog's filter. */
module HistoryModal {
  import opened Types

  /** `history.filter(item => filter === 'all' || item.type === filter)`. */
  function Filtered(h: seq<HistoryEntry>, f: HistoryFilter): seq<HistoryEntry> {
    if h == [] then []
    else Filtered(h[..|h| - 1], f) + (if f == All || h[|h| - 1].kind == f then [h[|h| - 1]] else [])
  }

  /** `xs` is `ys` with some entries left out, in the same order. */
  predicate SubsequenceOf(xs: seq<HistoryEntry>, ys: seq<HistoryEntry>)
    decreases |ys|
  {
    xs == [] ||
    (ys != [] &&
     ((xs[|xs| - 1] == ys[|ys| - 1] && SubsequenceOf(xs[..|xs| - 1], ys[..|ys| - 1])) ||
      SubsequenceOf(xs, ys[..|ys| - 1])))
  }

  /** 'all' shows the whole history. */
  lemma {:induction false} FilterAllIsIdentity(h: seq<HistoryEntry>)
    ensures Filtered(h, All) == h
  {
    if h != [] {
      FilterAllIsIdentity(h[..|h| - 1]);
    }
  }

  /** Any other filter shows only its own kind, and every entry of that kind. */
  lemma {:induction false} FilterKinds(h: seq<HistoryEntry>, f: HistoryFilter)
    requires f != All
    ensures forall e :: e in Filtered(h, f) <==> e in h && e.kind == f
  {
    if h != [] {
      FilterKinds(h[..|h| - 1], f);
      assert h == h[..|h| - 1] + [h[|h| - 1]];
    }
  }

  /** The filtered list is an order-preserving selection from the history. */
  lemma {:induction false} FilterIsSubsequence(h: seq<HistoryEntry>, f: HistoryFilter)
    ensures SubsequenceOf(Filtered(h, f), h)
  {
    if h != [] {
      var n := |h| - 1;
      FilterIsSubsequence(h[..n], f);
      var r := Filtered(h, f);
      if f == All || h[n].kind == f {
        assert r[..|r| - 1] == Filtered(h[..n], f) && r[|r| - 1] == h[n];
      } else {
        assert r == Filtered(h[..n], f);
      }
    }
  }

  /** Filtering twice by the same filter is filtering once. */
  lemma {:induction false} FilterIdempotent(h: seq<HistoryEntry>, f: HistoryFilter)
    ensures Filtered(Filtered(h, f), f) == Filtered(h, f)
  {
    if h != [] {
      var n := |h| - 1;
      FilterIdempotent(h[..n], f);
      var once := Filtered(h, f);
      if f == All || h[n].kind == f {
        assert once[..|once| - 1] == Filtered(h[..n], f);
        assert once[|once| - 1] == h[n];
      } else {
        assert once == Filtered(h[..n], f);
      }
    }
  }

  /** The filter buttons the dialog offers; 'info' is not among them. */
  const FilterButtons: seq<HistoryFilter> := [All, Score, Balance, System]

  /** An 'info' entry is shown only under 'all'. */
  lemma InfoOnlyUnderAll(h: seq<HistoryEntry>, f: HistoryFilter, e: HistoryEntry)
    requires f in FilterButtons && e in Filtered(h, f) && e.kind == Info
    ensures f == All
  {
    if f != All {
      FilterKinds(h, f);
    }
  }
}
