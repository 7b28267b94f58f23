/** The supervisor's dashboard: the status counts over the supervised
    reports and the list of (at most five) reports that need action. */
module DplDashboard {
  import opened Common
  import opened Badges

  /** A supervised report; `ketua` is the expanded leader name, if any. */
  datatype Laporan = Laporan(id: string, judul: string, status: string, ketua: Option<string>)

  datatype Stats = Stats(menunggu: nat, revisi: nat, totalBimbingan: nat)

  predicate IsPending(l: Laporan) { l.status == Pending }
  predicate IsRevision(l: Laporan) { l.status == Revision }
  predicate NeedsAction(l: Laporan) { l.status == Pending || l.status == Revision }

  /** The `stats` memo: the two status counts and the list length. */
  function ComputeStats(ls: seq<Laporan>): (s: Stats)
    ensures s.totalBimbingan == |ls|
    ensures s.menunggu + s.revisi <= s.totalBimbingan
    ensures s.menunggu == Count(ls, IsPending) && s.revisi == Count(ls, IsRevision)
  {
    DisjointCounts(ls, IsPending, IsRevision);
    Stats(Count(ls, IsPending), Count(ls, IsRevision), |ls|)
  }

  /** The reports needing action are the pending ones and the ones under
      revision, with nothing counted twice. */
  lemma {:induction false} NeedsActionCount(ls: seq<Laporan>)
    ensures Count(ls, NeedsAction) == Count(ls, IsPending) + Count(ls, IsRevision)
  {
    if |ls| > 0 {
      NeedsActionCount(ls[..|ls| - 1]);
    }
  }

  /** The first five reports, in list order, that are pending or under revision. */
  function ActionList(ls: seq<Laporan>): (r: seq<Laporan>)
    ensures |r| == if Count(ls, NeedsAction) < 5 then Count(ls, NeedsAction) else 5
    ensures forall i :: 0 <= i < |r| ==> r[i].status in {Pending, Revision} && r[i] in ls
    ensures forall i :: 0 <= i < |r| ==> r[i] == Filter(ls, NeedsAction)[i]
  {
    Take(Filter(ls, NeedsAction), 5)
  }

  /** The action list is as long as the two counts allow, up to five. */
  lemma ActionListMatchesStats(ls: seq<Laporan>)
    ensures var s := ComputeStats(ls);
      |ActionList(ls)| == if s.menunggu + s.revisi < 5 then s.menunggu + s.revisi else 5
  {
    NeedsActionCount(ls);
  }

  /** Any report needing action that is among the first five of them is listed. */
  lemma ActionListComplete(ls: seq<Laporan>, k: int)
    requires 0 <= k < |Filter(ls, NeedsAction)| && k < 5
    ensures Filter(ls, NeedsAction)[k] in ActionList(ls)
  {
    assert ActionList(ls)[k] == Filter(ls, NeedsAction)[k];
  }

  /** A row of the action table. */
  datatype ActionRow = ActionRow(judul: string, ketua: string, badge: Variant, link: string)

  /** The row of one report: the leader falls back to '-', the badge is
      destructive for 'Revisi' and secondary otherwise. */
  function Row(l: Laporan): (row: ActionRow)
    ensures row.judul == l.judul
    ensures row.ketua != ""
    ensures l.ketua.Some? && l.ketua.value != "" ==> row.ketua == l.ketua.value
    ensures (l.ketua.None? || l.ketua == Some("")) ==> row.ketua == "-"
    ensures row.badge == Destructive <==> l.status == Revision
    ensures row.badge != Destructive ==> row.badge == Secondary
    ensures row.link == "/dashboard/dpl/laporan/" + l.id
  {
    ActionRow(l.judul, Fallback(l.ketua, "-"), if l.status == Revision then Destructive else Secondary,
              "/dashboard/dpl/laporan/" + l.id)
  }

  /** On every listed row the dashboard's badge agrees with the badge the
      administrator's report list shows for that status. */
  lemma RowBadgeAgrees(ls: seq<Laporan>, i: int)
    requires 0 <= i < |ActionList(ls)|
    ensures Row(ActionList(ls)[i]).badge == LppmBadge(ActionList(ls)[i].status)
  {
  }

  /** The greeting name: the supervisor's full name, or 'DPL'. */
  function GreetingName(namaLengkap: Option<string>): (n: string)
    ensures n != ""
    ensures namaLengkap.Some? && namaLengkap.value != "" ==> n == namaLengkap.value
    ensures (namaLengkap.None? || namaLengkap == Some("")) ==> n == "DPL"
  {
    Fallback(namaLengkap, "DPL")
  }
}
