/**
 * Mail-exchange candidates: the records `net.LookupMX` returns, their ordering by
 * preference, and the handoff of an envelope to one of them with `smtp.SendMail`.
 */
module Mx {
  import opened Wrappers
  import opened Mime

  /** Go's `MX.Pref` is a `uint16`. */
  newtype uint16 = x: int | 0 <= x < 0x1_0000

  datatype MxRecord = MxRecord(host: string, pref: uint16)

  /** Outcome of `net.LookupMX(host)`: records, a not-found DNS error, or another failure. */
  datatype Lookup = Found(records: seq<MxRecord>) | NotFound | LookupFailed(reason: string)

  /** One call of `smtp.SendMail(server, nil, from, to, body)`. */
  datatype Handoff = Handoff(server: string, from: string, to: seq<string>, body: seq<byte>)

  /**
   * The network: the error `smtp.SendMail` returns for the n-th send of a delivery
   * (`None` for success). The index lets a retried server answer differently.
   */
  type Sender = (nat, Handoff) -> Option<string>

  /** Both generations dial port 25 on the record's host. */
  function ServerOf(r: MxRecord): string
  {
    r.host + ":25"
  }

  predicate SortedByPref(rs: seq<MxRecord>)
  {
    forall i, j :: 0 <= i < j < |rs| ==> rs[i].pref <= rs[j].pref
  }

  /** `sort.Slice(records, less by Pref)`: sorted, and a permutation of the input. */
  predicate IsPrefOrdering(sorted: seq<MxRecord>, records: seq<MxRecord>)
  {
    SortedByPref(sorted) && multiset(sorted) == multiset(records)
  }

  function Insert(r: MxRecord, rs: seq<MxRecord>): (out: seq<MxRecord>)
    requires SortedByPref(rs)
    ensures SortedByPref(out)
    ensures multiset(out) == multiset(rs) + multiset{r}
    ensures |out| == |rs| + 1
    ensures out[0] == r || (|rs| > 0 && out[0] == rs[0])
  {
    if |rs| == 0 || r.pref <= rs[0].pref then [r] + rs
    else
      var tail := Insert(r, rs[1..]);
      assert rs == [rs[0]] + rs[1..];
      [rs[0]] + tail
  }

  /**
   * One ordering `sort.Slice` may produce. Go's sort is not stable, so callers
   * only rely on `IsPrefOrdering`, never on the order of equal preferences.
   */
  function SortByPref(rs: seq<MxRecord>): (out: seq<MxRecord>)
    ensures IsPrefOrdering(out, rs)
  {
    if |rs| == 0 then []
    else
      assert rs == [rs[0]] + rs[1..];
      Insert(rs[0], SortByPref(rs[1..]))
  }

  /** `if len(rs) > n { rs = rs[:n] }` */
  function KeepFirst(rs: seq<MxRecord>, n: nat): (kept: seq<MxRecord>)
    ensures |kept| == if |rs| > n then n else |rs|
    ensures kept == rs[..|kept|]
  {
    if |rs| > n then rs[..n] else rs
  }

  /**
   * `kept` holds n most preferred records of `records` (all of them when there
   * are at most n), in preference order: each kept record is at least as
   * preferred as every record left out.
   */
  ghost predicate MostPreferred(kept: seq<MxRecord>, records: seq<MxRecord>, n: nat)
  {
    && SortedByPref(kept)
    && |kept| == (if |records| > n then n else |records|)
    && multiset(kept) <= multiset(records)
    && forall x, y :: x in kept && y in multiset(records) - multiset(kept) ==> x.pref <= y.pref
  }

  /** In a sorted list, everything before a split point is at least as preferred as everything after it. */
  lemma SortedSplitDominates(kept: seq<MxRecord>, dropped: seq<MxRecord>)
    requires SortedByPref(kept + dropped)
    ensures forall x, y :: x in kept && y in dropped ==> x.pref <= y.pref
  {
    var sorted := kept + dropped;
    forall x, y | x in kept && y in dropped
      ensures x.pref <= y.pref
    {
      var i :| 0 <= i < |kept| && kept[i] == x;
      var j :| 0 <= j < |dropped| && dropped[j] == y;
      assert sorted[i] == x && sorted[|kept| + j] == y;
    }
  }

  /** Keeping the first n of a preference ordering keeps n most preferred records. */
  lemma KeepFirstMostPreferred(sorted: seq<MxRecord>, records: seq<MxRecord>, n: nat)
    requires IsPrefOrdering(sorted, records)
    ensures MostPreferred(KeepFirst(sorted, n), records, n)
  {
    var kept := KeepFirst(sorted, n);
    var dropped := sorted[|kept|..];
    assert sorted == kept + dropped;
    assert |sorted| == |records| by {
      assert |multiset(sorted)| == |sorted|;
      assert |multiset(records)| == |records|;
    }
    assert multiset(sorted) == multiset(kept) + multiset(dropped);
    assert multiset(records) - multiset(kept) == multiset(dropped);
    assert SortedByPref(kept) by {
      forall i, j | 0 <= i < j < |kept| ensures kept[i].pref <= kept[j].pref {
        assert kept[i] == sorted[i] && kept[j] == sorted[j];
      }
    }
    SortedSplitDominates(kept, dropped);
    forall x, y | x in kept && y in multiset(records) - multiset(kept)
      ensures x.pref <= y.pref
    {
      assert y in dropped;
    }
  }
}
