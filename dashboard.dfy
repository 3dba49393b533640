/** The dashboard's integer tallies and the downtime-by-cause chart data. */
module Dashboard {
  import opened Common
  import opened Text
  import opened Types
  import opened DowntimeStore
  import opened DowntimesPage
  import opened EquipmentPage

  /** The equipment counted as "Currently Down": down or under repair. */
  function DownEquipment(es: seq<Equipment>): (r: seq<Equipment>)
    ensures |r| <= |es|
    ensures forall e :: e in r <==> e in es && IsDown(e.status)
  {
    if es == [] then []
    else (if IsDown(es[0].status) then [es[0]] else []) + DownEquipment(es[1..])
  }

  /** The filter keeps registry order: it works on each part of a
      concatenation separately. */
  lemma {:induction false} DownEquipmentAppend(a: seq<Equipment>, b: seq<Equipment>)
    ensures DownEquipment(a + b) == DownEquipment(a) + DownEquipment(b)
  {
    if a == [] {
      assert a + b == b;
    } else {
      assert (a + b)[1..] == a[1..] + b;
      DownEquipmentAppend(a[1..], b);
    }
  }

  /** Each down or under-repair record is kept as often as it occurs, and
      no other record is kept. */
  lemma {:induction false} DownEquipmentMultiplicity(es: seq<Equipment>, e: Equipment)
    ensures multiset(DownEquipment(es))[e] == if IsDown(e.status) then multiset(es)[e] else 0
  {
    if es != [] {
      DownEquipmentMultiplicity(es[1..], e);
      assert es == [es[0]] + es[1..];
    }
  }

  /** The first three stat cards. */
  function TotalEquipment(es: seq<Equipment>): nat { |es| }

  function CurrentlyDown(es: seq<Equipment>): nat { |DownEquipment(es)| }

  function ActiveDowntimeCount(ds: seq<DowntimeEvent>): nat { |ActiveDowntimes(ds)| }

  /** Down equipment never exceeds the registry, and is zero exactly when
      nothing is down or under repair. */
  lemma CurrentlyDownBounds(es: seq<Equipment>)
    ensures CurrentlyDown(es) <= TotalEquipment(es)
    ensures CurrentlyDown(es) == 0 <==> forall i :: 0 <= i < |es| ==> !IsDown(es[i].status)
  {
    if CurrentlyDown(es) == 0 {
      forall i | 0 <= i < |es| ensures !IsDown(es[i].status) {
        assert es[i] in es;
      }
    } else {
      var e := DownEquipment(es)[0];
      assert e in es;
    }
  }

  /** "Currently Down" adds up over the registry: one for each down or
      under-repair record, zero for each other. */
  lemma CurrentlyDownAdds(a: seq<Equipment>, b: seq<Equipment>, e: Equipment)
    ensures CurrentlyDown(a + b) == CurrentlyDown(a) + CurrentlyDown(b)
    ensures CurrentlyDown([e]) == if IsDown(e.status) then 1 else 0
  {
    DownEquipmentAppend(a, b);
    assert [e][1..] == [];
  }

  /** Active plus closed downtimes make up all downtimes. */
  lemma ActivePlusClosedIsTotal(ds: seq<DowntimeEvent>)
    ensures ActiveDowntimeCount(ds) + |ClosedDowntimes(ds)| == |ds|
  {
    ActiveClosedPartition(ds);
  }

  /** The number of events with cause `c`, counted from the end so that it
      follows the `forEach` loop. */
  function CountCause(ds: seq<DowntimeEvent>, c: DowntimeCause): nat {
    if ds == [] then 0
    else CountCause(ds[..|ds| - 1], c) + (if ds[|ds| - 1].cause == c then 1 else 0)
  }

  /** The causes present, in order of first appearance. */
  function CausesInOrder(ds: seq<DowntimeEvent>): (r: seq<DowntimeCause>)
    ensures forall c :: c in r <==> CountCause(ds, c) > 0
    ensures forall i, j :: 0 <= i < j < |r| ==> r[i] != r[j]
  {
    if ds == [] then []
    else
      var d := CausesInOrder(ds[..|ds| - 1]);
      var c := ds[|ds| - 1].cause;
      if c in d then d else d + [c]
  }

  /** One entry of `causeCounts`: a cause and how many events carry it. */
  type CauseEntry = (DowntimeCause, nat)

  /** The keys of an insertion-ordered count table. */
  function Keys(counts: seq<CauseEntry>): (r: seq<DowntimeCause>)
    ensures |r| == |counts|
    ensures forall i :: 0 <= i < |counts| ==> r[i] == counts[i].0
  {
    if counts == [] then [] else [counts[0].0] + Keys(counts[1..])
  }

  function SumCounts(counts: seq<CauseEntry>): nat {
    if counts == [] then 0 else counts[0].1 + SumCounts(counts[1..])
  }

  lemma {:induction false} SumCountsBump(counts: seq<CauseEntry>, k: nat)
    requires k < |counts|
    ensures SumCounts(counts[k := (counts[k].0, counts[k].1 + 1)]) == SumCounts(counts) + 1
  {
    if k > 0 {
      SumCountsBump(counts[1..], k - 1);
      assert counts[k := (counts[k].0, counts[k].1 + 1)][1..] == counts[1..][k - 1 := (counts[k].0, counts[k].1 + 1)];
    }
  }

  lemma {:induction false} SumCountsAppend(counts: seq<CauseEntry>, x: CauseEntry)
    ensures SumCounts(counts + [x]) == SumCounts(counts) + x.1
  {
    if counts != [] {
      assert (counts + [x])[1..] == counts[1..] + [x];
      SumCountsAppend(counts[1..], x);
    }
  }

  /** `causeCounts[d.cause]`: where a cause sits in the table, if it does. */
  function KeyIndex(counts: seq<CauseEntry>, c: DowntimeCause): (r: Option<nat>)
    ensures r.Some? ==> r.value < |counts| && counts[r.value].0 == c
    ensures r.None? ==> c !in Keys(counts)
  {
    if counts == [] then None
    else if counts[0].0 == c then Some(0)
    else
      var r := KeyIndex(counts[1..], c);
      if r.Some? then Some(r.value + 1) else None
  }

  /** One step of the `forEach`: bump the cause's entry, or append it with 1. */
  function Tally(counts: seq<CauseEntry>, c: DowntimeCause): seq<CauseEntry> {
    var k := KeyIndex(counts, c);
    if k.Some? then counts[k.value := (c, counts[k.value].1 + 1)] else counts + [(c, 1)]
  }

  lemma CountCauseSnoc(s: seq<DowntimeEvent>, e: DowntimeEvent, c: DowntimeCause)
    ensures CountCause(s + [e], c) == CountCause(s, c) + (if e.cause == c then 1 else 0)
  {
    assert (s + [e])[..|s + [e]| - 1] == s;
  }

  lemma CausesInOrderSnoc(s: seq<DowntimeEvent>, e: DowntimeEvent)
    ensures CausesInOrder(s + [e]) ==
      if e.cause in CausesInOrder(s) then CausesInOrder(s) else CausesInOrder(s) + [e.cause]
  {
    assert (s + [e])[..|s + [e]| - 1] == s;
  }

  lemma {:induction false} KeysAppend(counts: seq<CauseEntry>, x: CauseEntry)
    ensures Keys(counts + [x]) == Keys(counts) + [x.0]
  {
  }

  lemma {:induction false} KeysBump(counts: seq<CauseEntry>, k: nat, n: nat)
    requires k < |counts|
    ensures Keys(counts[k := (counts[k].0, n)]) == Keys(counts)
  {
  }

  /** `counts` is the cause table of `s`: its keys are the causes present in
      order of first appearance, each entry holds its cause's count, and the
      counts add up to the number of events. */
  ghost predicate TableFor(counts: seq<CauseEntry>, s: seq<DowntimeEvent>) {
    && Keys(counts) == CausesInOrder(s)
    && (forall j :: 0 <= j < |counts| ==> counts[j].1 == CountCause(s, counts[j].0))
    && SumCounts(counts) == |s|
  }

  /** A table that is right for a prefix is right for one more event after a step. */
  lemma {:induction false} TallyStep(s: seq<DowntimeEvent>, e: DowntimeEvent, counts: seq<CauseEntry>)
    requires TableFor(counts, s)
    ensures TableFor(Tally(counts, e.cause), s + [e])
  {
    var k := KeyIndex(counts, e.cause);
    var t := Tally(counts, e.cause);
    CausesInOrderSnoc(s, e);
    if k.Some? {
      assert e.cause in Keys(counts);
      SumCountsBump(counts, k.value);
      KeysBump(counts, k.value, counts[k.value].1 + 1);
      forall j | 0 <= j < |t| ensures t[j].1 == CountCause(s + [e], t[j].0) {
        CountCauseSnoc(s, e, t[j].0);
      }
    } else {
      SumCountsAppend(counts, (e.cause, 1));
      KeysAppend(counts, (e.cause, 1));
      forall j | 0 <= j < |t| ensures t[j].1 == CountCause(s + [e], t[j].0) {
        CountCauseSnoc(s, e, t[j].0);
        if j < |counts| {
          assert Keys(counts)[j] == counts[j].0;
        }
      }
    }
  }

  /** `causeCounts`, built by the `forEach` loop: one entry per cause present,
      in order of first appearance, holding that cause's count. */
  method CauseCounts(ds: seq<DowntimeEvent>) returns (counts: seq<CauseEntry>)
    ensures Keys(counts) == CausesInOrder(ds)
    ensures forall j :: 0 <= j < |counts| ==> counts[j].1 == CountCause(ds, counts[j].0)
    ensures SumCounts(counts) == |ds|
  {
    counts := [];
    var i := 0;
    while i < |ds|
      invariant 0 <= i <= |ds|
      invariant TableFor(counts, ds[..i])
    {
      var c := ds[i].cause;
      TallyStep(ds[..i], ds[i], counts);
      var k := KeyIndex(counts, c);
      var next;
      if k.Some? {
        next := counts[k.value := (c, counts[k.value].1 + 1)];
      } else {
        next := counts + [(c, 1)];
      }
      assert next == Tally(counts, c);
      assert ds[..i + 1] == ds[..i] + [ds[i]];
      counts := next;
      i := i + 1;
    }
    assert ds[..i] == ds;
  }

  /** The pie-chart label: the stored cause with its first letter upper-cased
      and only its first `_` turned into a space. */
  function ChartLabel(key: string): string {
    if key == [] then [] else [UpperChar(key[0])] + ReplaceFirst(key[1..], '_', ' ')
  }

  /** `causeData`: the table's entries, in order, with chart labels. */
  function CauseData(counts: seq<CauseEntry>): (r: seq<(string, nat)>)
    ensures |r| == |counts|
    ensures forall i :: 0 <= i < |counts| ==> r[i] == (ChartLabel(CauseKey(counts[i].0)), counts[i].1)
  {
    if counts == [] then []
    else [(ChartLabel(CauseKey(counts[0].0)), counts[0].1)] + CauseData(counts[1..])
  }

  /** A key without `_` after its first letter only gets that letter upper-cased. */
  lemma ChartLabelPlain(key: string)
    requires key != [] && '_' !in key[1..]
    ensures ChartLabel(key) == [UpperChar(key[0])] + key[1..]
  {
    ReplaceFirstAbsent(key[1..], '_', ' ');
  }

  /** A key `w1_w2` whose first word has no `_` is charted as `W1 w2`: only
      the first `_` becomes a space and the second word keeps its case. */
  lemma ChartLabelTwoWords(w1: string, w2: string)
    requires w1 != [] && '_' !in w1
    ensures ChartLabel(w1 + "_" + w2) == [UpperChar(w1[0])] + w1[1..] + " " + w2
  {
    var rest := (w1 + "_" + w2)[1..];
    assert rest == w1[1..] + "_" + w2;
    assert rest[..|w1| - 1] == w1[1..];
    ReplaceFirstAt(rest, '_', ' ', |w1| - 1);
    assert rest[|w1|..] == w2;
  }

  /** The chart label of "operator_error" is "Operator error", unlike its
      `CAUSE_LABELS` entry "Operator Error". */
  lemma OperatorErrorChartLabel()
    ensures ChartLabel(CauseKey(OperatorError)) == "Operator error"
    ensures ChartLabel(CauseKey(OperatorError)) != CauseLabel(OperatorError)
  {
    OperatorErrorLabels(OperatorError);
  }

  /** The same facts, stated for any cause that is `OperatorError`: with the
      cause a variable, the solver unfolds the key only where the proof asks. */
  lemma OperatorErrorLabels(c: DowntimeCause)
    ensures c == OperatorError ==> ChartLabel(CauseKey(c)) == "Operator error"
    ensures c == OperatorError ==> ChartLabel(CauseKey(c)) != CauseLabel(c)
  {
    if c == OperatorError {
      var w1, w2 := "operator", "error";
      assert CauseKey(c) == w1 + "_" + w2;
      ChartLabelTwoWords(w1, w2);
      assert [UpperChar(w1[0])] + w1[1..] + " " + w2 == "Operator error";
      assert CauseLabel(c)[9] == 'E';
    }
  }

  /** The chart label of "scheduled" is "Scheduled", unlike its
      `CAUSE_LABELS` entry "Scheduled Maintenance". */
  lemma ScheduledChartLabel()
    ensures ChartLabel(CauseKey(Scheduled)) == "Scheduled"
    ensures ChartLabel(CauseKey(Scheduled)) != CauseLabel(Scheduled)
  {
    assert CauseKey(Scheduled) == "s" + "cheduled";
    assert '_' !in "cheduled";
    ChartLabelPlain("s" + "cheduled");
    assert [UpperChar('s')] + "cheduled" == "Scheduled";
    assert |CauseLabel(Scheduled)| == 21;
  }
}
