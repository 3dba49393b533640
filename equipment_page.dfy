/** The equipment page: the search filter, the per-card action and the
    downtime-info lookup. */
module EquipmentPage {
  import opened Common
  import opened Text
  import opened Types
  import opened DowntimeStore
  import opened EquipmentStore

  /** The search predicate: name, section or machine type contains the
      search text, ignoring case. */
  predicate MatchesSearch(e: Equipment, search: string) {
    || Contains(Lower(e.name), Lower(search))
    || Contains(Lower(e.section), Lower(search))
    || Contains(Lower(e.machineType), Lower(search))
  }

  /** `equipment.filter(...)`. */
  function FilterEquipment(es: seq<Equipment>, search: string): (r: seq<Equipment>)
    ensures |r| <= |es|
    ensures forall e :: e in r <==> e in es && MatchesSearch(e, search)
  {
    if es == [] then []
    else (if MatchesSearch(es[0], search) then [es[0]] else []) + FilterEquipment(es[1..], search)
  }

  /** The filter keeps registry order. */
  lemma {:induction false} FilterEquipmentAppend(a: seq<Equipment>, b: seq<Equipment>, search: string)
    ensures FilterEquipment(a + b, search) == FilterEquipment(a, search) + FilterEquipment(b, search)
  {
    if a == [] {
      assert a + b == b;
    } else {
      assert (a + b)[1..] == a[1..] + b;
      FilterEquipmentAppend(a[1..], b, search);
    }
  }

  /** An empty search shows every record, in order. */
  lemma {:induction false} EmptySearchShowsAll(es: seq<Equipment>)
    ensures FilterEquipment(es, "") == es
  {
    if es != [] {
      assert OccursAt(Lower(es[0].name), Lower(""), 0);
      EmptySearchShowsAll(es[1..]);
    }
  }

  /** Searching ignores case. */
  lemma {:induction false} SearchIgnoresCase(es: seq<Equipment>, a: string, b: string)
    requires SameFold(a, b)
    ensures FilterEquipment(es, a) == FilterEquipment(es, b)
  {
    if es != [] {
      SearchIgnoresCase(es[1..], a, b);
    }
  }

  /** `isDown`. */
  predicate IsDown(s: EquipmentStatus) {
    s == Down || s == UnderRepair
  }

  /** A card offers Report Breakdown when not down, View Downtime Info when down. */
  predicate OffersReportBreakdown(e: Equipment) { !IsDown(e.status) }

  predicate OffersDowntimeInfo(e: Equipment) { IsDown(e.status) }

  /** Each card offers exactly one of the two actions. */
  lemma ExactlyOneCardAction(e: Equipment)
    ensures OffersReportBreakdown(e) != OffersDowntimeInfo(e)
    ensures OffersDowntimeInfo(e) <==> e.status in {Down, UnderRepair}
  {
  }

  /** What the info dialog shows for the selected name (`infoTarget`, falsy
      when unset or empty): nothing when unset; otherwise nothing exactly
      when no event for that name is active, and else the first active one. */
  function InfoDowntime(ds: seq<DowntimeEvent>, infoTarget: Option<string>): (r: Option<DowntimeEvent>)
    ensures infoTarget.None? || infoTarget.value == "" ==> r.None?
    ensures infoTarget.Some? && infoTarget.value != "" ==>
      (r.None? <==> forall i :: 0 <= i < |ds| ==> !ActiveFor(ds[i], infoTarget.value))
    ensures r.Some? ==> exists i :: 0 <= i < |ds| && ds[i] == r.value && ActiveFor(ds[i], infoTarget.value)
                                    && forall j :: 0 <= j < i ==> !ActiveFor(ds[j], infoTarget.value)
  {
    if infoTarget.Some? && infoTarget.value != "" then DowntimeForEquipment(ds, infoTarget.value) else None
  }

  /** The seed shows Drill Rig 101 down with no ledger entry; its info
      dialog finds nothing and shows its fallback. */
  lemma SeedDrillRigHasNoEvent()
    ensures DefaultEquipment[2].name == "Drill Rig 101" && OffersDowntimeInfo(DefaultEquipment[2])
    ensures InfoDowntime([], Some(DefaultEquipment[2].name)) == None
  {
  }
}
