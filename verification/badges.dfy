/** Status badges and the display fallbacks of the report lists. */
module Badges {
  import opened Common

  datatype Variant = Default | Secondary | Destructive | Outline

  const Approved := "Disetujui"
  const Pending := "Menunggu Persetujuan"
  const Revision := "Revisi"
  const Draft := "Draft"

  /** The administrator's report list. */
  function LppmBadge(status: string): (v: Variant)
    ensures status == Approved ==> v == Default
    ensures status == Pending ==> v == Secondary
    ensures status == Revision ==> v == Destructive
    ensures v == Outline <==> status !in {Approved, Pending, Revision}
  {
    match status
    case "Disetujui" => Default
    case "Menunggu Persetujuan" => Secondary
    case "Revisi" => Destructive
    case _ => Outline
  }

  /** The student's report list; its status type also declares 'Draft',
      which reaches the default branch. */
  function MahasiswaBadge(status: string): (v: Variant)
    ensures status == Approved ==> v == Default
    ensures status == Pending ==> v == Secondary
    ensures status == Revision ==> v == Destructive
    ensures status == Draft ==> v == Outline
    ensures v == Outline <==> status !in {Approved, Pending, Revision}
  {
    match status
    case "Disetujui" => Default
    case "Menunggu Persetujuan" => Secondary
    case "Revisi" => Destructive
    case _ => Outline
  }

  /** The supervisor's verification history: only two variants. */
  function RiwayatBadge(status: string): (v: Variant)
    ensures status == Revision ==> v == Destructive
    ensures status != Revision ==> v == Default
    ensures v in {Default, Destructive}
  {
    match status
    case "Disetujui" => Default
    case "Revisi" => Destructive
    case _ => Default
  }

  /** The history page lists only approved and revision reports, and on
      those two statuses it shows the same badge as the administrator's list. */
  lemma RiwayatAgreesOnListedStatuses(status: string)
    requires status == Approved || status == Revision
    ensures RiwayatBadge(status) == LppmBadge(status)
  {
  }

  /** The report-list cells that fall back when a relation is not expanded. */
  datatype ReportCells = ReportCells(ketua: string, dpl: string)

  /** Administrator list: leader falls back to '-', supervisor to 'Belum Ditugaskan'. */
  function LppmCells(ketua: Option<string>, dpl: Option<string>): (c: ReportCells)
    ensures c.ketua != "" && c.dpl != ""
    ensures ketua.Some? && ketua.value != "" ==> c.ketua == ketua.value
    ensures dpl.Some? && dpl.value != "" ==> c.dpl == dpl.value
    ensures (ketua.None? || ketua == Some("")) ==> c.ketua == "-"
    ensures (dpl.None? || dpl == Some("")) ==> c.dpl == "Belum Ditugaskan"
  {
    ReportCells(Fallback(ketua, "-"), Fallback(dpl, "Belum Ditugaskan"))
  }

  /** The '-' fallback of a cell whose relation may be missing: the field of
      research in the student's list and the leader in the supervisor's history. */
  function DashCell(v: Option<string>): (c: string)
    ensures c != ""
    ensures v.Some? && v.value != "" ==> c == v.value
    ensures (v.None? || v == Some("")) ==> c == "-"
  {
    Fallback(v, "-")
  }
}
