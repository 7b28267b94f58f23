/** The administrator's print page: choosing a group and its reports,
    the programmes of study present in a group, the per-programme export,
    the HTML-tag stripping of report descriptions and the file names. */
module Cetak {
  import opened Common

  datatype Anggota = Anggota(nama: string, nim: string, prodiNama: string)

  /** A group with its expanded leader and supervisor names, when expanded. */
  datatype Kelompok = Kelompok(id: string, anggota: seq<Anggota>, ketua: Option<string>, dpl: Option<string>)

  /** A report; `kelompok` is the id of its expanded group, if expanded. */
  datatype Laporan = Laporan(judul: string, tempat: string, narasumber: string, deskripsi: string,
                             rtl: string, status: string, kelompok: Option<string>)

  /** The page's selections. */
  datatype CetakState = CetakState(
    selected: Option<Kelompok>, laporanList: seq<Laporan>,
    prodiGroup: Option<Kelompok>, prodis: seq<string>, selectedProdi: string)

  /** `allKelompok.find(k => k.id === id)`. */
  function FindKelompok(ks: seq<Kelompok>, id: string): Option<Kelompok> {
    Find(ks, (k: Kelompok) => k.id == id)
  }

  /** The reports of group `id`, in their original order. */
  function ReportsOf(ls: seq<Laporan>, id: string): seq<Laporan> {
    Filter(ls, (l: Laporan) => l.kelompok == Some(id))
  }

  /** `handleKelompokChange`: an empty id or an unknown group changes
      nothing; otherwise the group is selected with exactly its reports. */
  function KelompokChange(st: CetakState, ks: seq<Kelompok>, ls: seq<Laporan>, id: string): (st': CetakState)
    ensures id == "" || FindKelompok(ks, id).None? ==> st' == st
    ensures id != "" && FindKelompok(ks, id).Some? ==>
      st'.selected == FindKelompok(ks, id) && st'.selected.value.id == id &&
      st'.laporanList == ReportsOf(ls, id) &&
      (forall i :: 0 <= i < |st'.laporanList| ==> st'.laporanList[i].kelompok == Some(id)) &&
      (forall i :: 0 <= i < |ls| && ls[i].kelompok == Some(id) ==> ls[i] in st'.laporanList) &&
      st'.prodiGroup == st.prodiGroup && st'.prodis == st.prodis && st'.selectedProdi == st.selectedProdi
  {
    if id == "" then st
    else match FindKelompok(ks, id)
      case None => st
      case Some(k) => st.(selected := Some(k), laporanList := ReportsOf(ls, id))
  }

  // ------------------------------------------------------- programmes of study

  /** `[...new Set(xs)]`: the distinct values in first-seen order. */
  function Dedup(xs: seq<string>): (r: seq<string>)
    ensures NoDup(r)
    ensures forall x :: x in r <==> x in xs
  {
    if |xs| == 0 then [] else
    var d := Dedup(xs[..|xs| - 1]);
    assert xs == xs[..|xs| - 1] + [xs[|xs| - 1]];
    if xs[|xs| - 1] in d then d else d + [xs[|xs| - 1]]
  }

  /** The order of the distinct values is the order of first occurrence:
      when `r[i]` comes before `r[j]`, `r[i]` already occurs in `xs`
      before every occurrence of `r[j]`. */
  lemma {:induction false} DedupFirstSeenOrder(xs: seq<string>, i: int, j: int, q: int)
    requires 0 <= i < j < |Dedup(xs)|
    requires 0 <= q < |xs| && xs[q] == Dedup(xs)[j]
    ensures Dedup(xs)[i] in xs[..q]
  {
    var n := |xs| - 1;
    var init := xs[..n];
    var d := Dedup(init);
    var r := Dedup(xs);
    assert r[i] in d by {
      if r == d + [xs[n]] { assert i < |d|; }
    }
    if j < |d| && q < n {
      assert init[q] == xs[q];
      DedupFirstSeenOrder(init, i, j, q);
      assert init[..q] == xs[..q];
    } else if j < |d| {
      // q is the last position; everything the prefix holds comes before it
      assert r[i] in init;
      assert xs[..q] == init;
    } else {
      // r[j] was appended for the last element, which the prefix does not hold
      assert r[j] == xs[n] && xs[n] !in init;
      assert xs[..q] == init;
    }
  }

  function ProdiNames(ms: seq<Anggota>): (ps: seq<string>)
    ensures |ps| == |ms| && forall i :: 0 <= i < |ms| ==> ps[i] == ms[i].prodiNama
  {
    seq(|ms|, i requires 0 <= i < |ms| => ms[i].prodiNama)
  }

  /** `handleKelompokForProdiChange`: the group's distinct programmes, and
      the chosen programme reset; an unknown group changes nothing. */
  function KelompokForProdiChange(st: CetakState, ks: seq<Kelompok>, id: string): (st': CetakState)
    ensures FindKelompok(ks, id).None? ==> st' == st
    ensures FindKelompok(ks, id).Some? ==>
      var k := FindKelompok(ks, id).value;
      st'.prodiGroup == Some(k) && st'.selectedProdi == "" &&
      st'.prodis == Dedup(ProdiNames(k.anggota)) && NoDup(st'.prodis) &&
      (forall p :: p in st'.prodis <==> exists i :: 0 <= i < |k.anggota| && k.anggota[i].prodiNama == p) &&
      st'.selected == st.selected && st'.laporanList == st.laporanList
  {
    match FindKelompok(ks, id)
    case None => st
    case Some(k) =>
      var ps := ProdiNames(k.anggota);
      assert forall p :: p in ps <==> exists i :: 0 <= i < |k.anggota| && k.anggota[i].prodiNama == p by {
        forall p ensures p in ps <==> exists i :: 0 <= i < |k.anggota| && k.anggota[i].prodiNama == p {
          if p in ps { var i :| 0 <= i < |ps| && ps[i] == p; }
        }
      }
      st.(prodiGroup := Some(k), prodis := Dedup(ps), selectedProdi := "")
  }

  // ---------------------------------------------------------------- stripHtml

  /** After a '<': drop up to and including the next '>', or everything if
      no '>' follows (`[^>]*>?`, greedy). */
  function SkipTag(s: string): (r: string)
    ensures |r| <= |s|
    ensures r == s[|s| - |r|..]
  {
    if |s| == 0 then ""
    else if s[0] == '>' then s[1..]
    else SkipTag(s[1..])
  }

  /** `html.replace(/<[^>]*>?/gm, '')`. */
  function StripHtml(s: string): (r: string)
    ensures '<' !in r
    ensures |r| <= |s|
    decreases |s|
  {
    if |s| == 0 then ""
    else if s[0] == '<' then StripHtml(SkipTag(s[1..]))
    else [s[0]] + StripHtml(s[1..])
  }

  /** Text with no '<' is returned unchanged. */
  lemma {:induction false} StripHtmlPlainText(s: string)
    requires '<' !in s
    ensures StripHtml(s) == s
  {
    if |s| > 0 {
      StripHtmlPlainText(s[1..]);
    }
  }

  /** Stripping twice is stripping once. */
  lemma StripHtmlIdempotent(s: string)
    ensures StripHtml(StripHtml(s)) == StripHtml(s)
  {
    StripHtmlPlainText(StripHtml(s));
  }

  /** Leading text without '<' survives as it is. */
  lemma {:induction false} StripHtmlKeepsText(a: string, b: string)
    requires '<' !in a
    ensures StripHtml(a + b) == a + StripHtml(b)
  {
    if |a| > 0 {
      assert (a + b)[0] == a[0] && (a + b)[1..] == a[1..] + b;
      StripHtmlKeepsText(a[1..], b);
    } else {
      assert a + b == b;
    }
  }

  lemma {:induction false} SkipTagClosed(tag: string, b: string)
    requires '>' !in tag
    ensures SkipTag(tag + ">" + b) == b
  {
    if |tag| > 0 {
      assert (tag + ">" + b)[1..] == tag[1..] + ">" + b;
      SkipTagClosed(tag[1..], b);
    } else {
      assert tag + ">" + b == ">" + b;
    }
  }

  lemma {:induction false} SkipTagUnclosed(tag: string)
    requires '>' !in tag
    ensures SkipTag(tag) == ""
  {
    if |tag| > 0 {
      SkipTagUnclosed(tag[1..]);
    }
  }

  /** A '<' goes together with the run of non-'>' characters after it and
      the closing '>'; an unclosed tag runs to the end of the text. */
  lemma StripHtmlRemovesTag(a: string, tag: string, b: string)
    requires '<' !in a && '>' !in tag
    ensures StripHtml(a + "<" + tag + ">" + b) == a + StripHtml(b)
    ensures StripHtml(a + "<" + tag) == a
  {
    assert a + "<" + tag + ">" + b == a + ("<" + (tag + ">" + b));
    StripHtmlKeepsText(a, "<" + (tag + ">" + b));
    assert ("<" + (tag + ">" + b))[1..] == tag + ">" + b;
    SkipTagClosed(tag, b);
    assert a + "<" + tag == a + ("<" + tag);
    StripHtmlKeepsText(a, "<" + tag);
    assert ("<" + tag)[1..] == tag;
    SkipTagUnclosed(tag);
    assert a + "" == a;
  }

  // ---------------------------------------------------------------- file names

  /** `s.replace(/ /g, "_")`. */
  function Underscored(s: string): (r: string)
    ensures |r| == |s| && ' ' !in r
    ensures forall i :: 0 <= i < |s| && s[i] != ' ' ==> r[i] == s[i]
    ensures forall i :: 0 <= i < |s| && s[i] == ' ' ==> r[i] == '_'
  {
    seq(|s|, i requires 0 <= i < |s| => if s[i] == ' ' then '_' else s[i])
  }

  /** Names without spaces are kept as they are. */
  lemma UnderscoredIdentity(s: string)
    requires ' ' !in s
    ensures Underscored(s) == s
  {
  }

  /** `ketua?.nama_lengkap.replace(/ /g, "_")` inside a template: a missing
      leader reads 'undefined'. */
  function LeaderPart(ketua: Option<string>): string {
    if ketua.Some? then Underscored(ketua.value) else "undefined"
  }

  // ---------------------------------------------------------------- exports

  /** One row of the report table. */
  datatype ReportRow = ReportRow(no: nat, judul: string, tempat: string, narasumber: string,
                                 deskripsi: string, rtl: string, status: string)

  /** The report table: numbered 1..n in list order, empty cells shown as
      '-', descriptions stripped of HTML tags. */
  function ReportRows(ls: seq<Laporan>): (rows: seq<ReportRow>)
    ensures |rows| == |ls|
    ensures forall i :: 0 <= i < |rows| ==>
      rows[i] == ReportRow(i + 1, ls[i].judul, Or(ls[i].tempat, "-"), Or(ls[i].narasumber, "-"),
                           StripHtml(ls[i].deskripsi), Or(ls[i].rtl, "-"), ls[i].status)
    ensures forall i :: 0 <= i < |rows| ==>
      '<' !in rows[i].deskripsi && rows[i].tempat != "" && rows[i].narasumber != "" && rows[i].rtl != ""
  {
    seq(|ls|, i requires 0 <= i < |ls| =>
      ReportRow(i + 1, ls[i].judul, Or(ls[i].tempat, "-"), Or(ls[i].narasumber, "-"),
                StripHtml(ls[i].deskripsi), Or(ls[i].rtl, "-"), ls[i].status))
  }

  /** The per-group document: title, header lines, member list, report
      table, file name. */
  datatype GroupExport = GroupExport(title: string, ketua: string, dpl: string, anggota: seq<Anggota>,
                                     rows: seq<ReportRow>, fileName: string)

  const PickGroupFirst := "Pilih kelompok terlebih dahulu."
  const PickGroupAndProdi := "Silakan pilih kelompok dan prodi terlebih dahulu."

  /** `handleDownloadKelompokDocx`: refused without a selected group;
      otherwise the leader (or 'N/A'), the supervisor (or 'Belum
      Ditugaskan'), every member and the selected reports, in order. */
  function DownloadKelompok(st: CetakState): (r: Result<GroupExport, string>)
    ensures st.selected.None? <==> r.Failure?
    ensures r.Failure? ==> r.error == PickGroupFirst
    ensures r.Success? ==>
      var k := st.selected.value;
      r.value.title == "Rekapitulasi Laporan Lengkap per Kelompok" &&
      r.value.ketua == Fallback(k.ketua, "N/A") && r.value.ketua != "" &&
      r.value.dpl == Fallback(k.dpl, "Belum Ditugaskan") && r.value.dpl != "" &&
      r.value.anggota == k.anggota &&
      r.value.rows == ReportRows(st.laporanList) &&
      r.value.fileName == "rekap-kelompok-" + LeaderPart(k.ketua) + ".docx"
  {
    match st.selected
    case None => Failure(PickGroupFirst)
    case Some(k) =>
      Success(GroupExport("Rekapitulasi Laporan Lengkap per Kelompok",
                          Fallback(k.ketua, "N/A"), Fallback(k.dpl, "Belum Ditugaskan"), k.anggota,
                          ReportRows(st.laporanList),
                          "rekap-kelompok-" + LeaderPart(k.ketua) + ".docx"))
  }

  /** The per-programme document. */
  datatype ProdiExport = ProdiExport(title: string, prodi: string, dpl: string, anggota: seq<Anggota>,
                                     rows: seq<ReportRow>, fileName: string)

  /** `handleDownloadKelompokPerProdiDocx`: refused unless both a group and
      a programme are chosen; the members are exactly those of the chosen
      programme and the reports exactly those of the group, in order. */
  function DownloadPerProdi(st: CetakState, ls: seq<Laporan>): (r: Result<ProdiExport, string>)
    ensures r.Failure? <==> st.prodiGroup.None? || st.selectedProdi == ""
    ensures r.Failure? ==> r.error == PickGroupAndProdi
    ensures r.Success? ==>
      var k := st.prodiGroup.value;
      r.value.title == "Rekapitulasi Laporan Kelompok " + Fallback(k.ketua, "") &&
      r.value.prodi == st.selectedProdi &&
      r.value.dpl == Fallback(k.dpl, "Belum Ditugaskan") &&
      r.value.anggota == Filter(k.anggota, (a: Anggota) => a.prodiNama == st.selectedProdi) &&
      (forall i :: 0 <= i < |r.value.anggota| ==> r.value.anggota[i].prodiNama == st.selectedProdi) &&
      r.value.rows == ReportRows(ReportsOf(ls, k.id)) &&
      r.value.fileName ==
        "rekap-prodi-" + Underscored(st.selectedProdi) + "-kelompok-" + LeaderPart(k.ketua) + ".docx" &&
      ' ' !in Underscored(st.selectedProdi)
  {
    if st.prodiGroup.None? || st.selectedProdi == "" then Failure(PickGroupAndProdi)
    else
      var k := st.prodiGroup.value;
      Success(ProdiExport("Rekapitulasi Laporan Kelompok " + Fallback(k.ketua, ""),
                          st.selectedProdi,
                          Fallback(k.dpl, "Belum Ditugaskan"),
                          Filter(k.anggota, (a: Anggota) => a.prodiNama == st.selectedProdi),
                          ReportRows(ReportsOf(ls, k.id)),
                          "rekap-prodi-" + Underscored(st.selectedProdi) + "-kelompok-" + LeaderPart(k.ketua) + ".docx"))
  }

  /** Every programme the page offers for a group selects at least one member. */
  lemma OfferedProdiHasMembers(st: CetakState, ks: seq<Kelompok>, id: string, p: string)
    requires FindKelompok(ks, id).Some?
    requires p in KelompokForProdiChange(st, ks, id).prodis
    ensures var k := FindKelompok(ks, id).value;
      |Filter(k.anggota, (a: Anggota) => a.prodiNama == p)| > 0
  {
    var k := FindKelompok(ks, id).value;
    var i :| 0 <= i < |k.anggota| && k.anggota[i].prodiNama == p;
    assert k.anggota[i] in Filter(k.anggota, (a: Anggota) => a.prodiNama == p);
  }

  /** Once a group is chosen in both panels, the per-group and the
      per-programme documents list the same reports with the same
      supervisor, and the per-programme members are the group's members
      of that programme. */
  lemma ExportsListSameReports(st: CetakState, ks: seq<Kelompok>, ls: seq<Laporan>, id: string, prodi: string)
    requires id != "" && FindKelompok(ks, id).Some? && prodi != ""
    ensures var st' := KelompokForProdiChange(KelompokChange(st, ks, ls, id), ks, id).(selectedProdi := prodi);
      var g := DownloadKelompok(st');
      var p := DownloadPerProdi(st', ls);
      g.Success? && p.Success? && g.value.rows == p.value.rows && g.value.dpl == p.value.dpl &&
      p.value.anggota == Filter(g.value.anggota, (a: Anggota) => a.prodiNama == prodi)
  {
  }
}
