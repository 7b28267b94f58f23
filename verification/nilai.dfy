/** The administrator's score recap: the per-group document and the
    overall recap with one section per group that has scores. */
module NilaiRecap {
  import opened Common

  /** A saved score; `kelompok` is the id of its group. */
  datatype NilaiRecord = NilaiRecord(nama: string, nim: string, nilaiAkhir: real, kelompok: string)

  /** The relations PocketBase expanded on a group; the record carries
      `expand` only when at least one of them was expanded. */
  datatype Expand = Expand(ketua: Option<string>, dpl: Option<string>)

  datatype Kelompok = Kelompok(id: string, expand: Option<Expand>)

  /** What the leader expression `kelompok.expand?.ketua.nama_lengkap`
      interpolates: the leader's name, or 'undefined' when nothing is
      expanded (the optional chain stops at `expand`). */
  function LeaderName(k: Kelompok): string {
    if k.expand.Some? && k.expand.value.ketua.Some? then k.expand.value.ketua.value else "undefined"
  }

  /** The same expression throws a `TypeError` when the relations are
      expanded but the leader is not: `.nama_lengkap` is read from `undefined`. */
  predicate LeaderThrows(k: Kelompok) {
    k.expand.Some? && k.expand.value.ketua.None?
  }

  /** `kelompok.expand?.dpl?.nama_lengkap || 'N/A'`. */
  function DplName(k: Kelompok): string {
    Fallback(if k.expand.Some? then k.expand.value.dpl else None, "N/A")
  }

  datatype ScoreRow = ScoreRow(no: nat, nama: string, nim: string, nilai: real)

  /** The blocks handed to the document builder. */
  datatype Block =
    | Heading(ketua: string)     // "Kelompok: <leader>"
    | DplLine(dpl: string)       // "DPL: <supervisor>"
    | ScoreTable(rows: seq<ScoreRow>)
    | Spacer

  /** What a download handler ends in; `Thrown` is an exception escaping
      the handler, so that nothing is downloaded. */
  datatype Outcome =
    | ErrorToast(message: string)
    | InfoToast(message: string)
    | Document(title: string, content: seq<Block>, fileName: string)
    | Thrown

  /** The scores of group `id`, in their original order. */
  function ScoresOf(ns: seq<NilaiRecord>, id: string): seq<NilaiRecord> {
    Filter(ns, (n: NilaiRecord) => n.kelompok == id)
  }

  /** The score table, numbered 1..n in list order. */
  function ScoreRows(ns: seq<NilaiRecord>): (rows: seq<ScoreRow>)
    ensures |rows| == |ns|
    ensures forall i :: 0 <= i < |rows| ==>
      rows[i] == ScoreRow(i + 1, ns[i].nama, ns[i].nim, ns[i].nilaiAkhir)
  {
    seq(|ns|, i requires 0 <= i < |ns| => ScoreRow(i + 1, ns[i].nama, ns[i].nim, ns[i].nilaiAkhir))
  }

  /** `allKelompok.find(k => k.id === id)`. */
  function FindKelompok(ks: seq<Kelompok>, id: string): Option<Kelompok> {
    Find(ks, (k: Kelompok) => k.id == id)
  }

  const PickGroup := "Silakan pilih kelompok terlebih dahulu."
  const NoGroupScores := "Tidak ada data nilai untuk kelompok yang dipilih."
  const NoScores := "Tidak ada data nilai untuk diunduh."

  /** `handleDownloadPerKelompok`: an error without a selection, an info
      message for an unknown group or one without scores, the exception of
      the leader expression, otherwise the document whose table holds
      exactly the group's scores, in order. */
  function DownloadPerKelompok(selectedId: string, ks: seq<Kelompok>, ns: seq<NilaiRecord>): (o: Outcome)
    ensures selectedId == "" ==> o == ErrorToast(PickGroup)
    ensures selectedId != "" && (FindKelompok(ks, selectedId).None? || |ScoresOf(ns, selectedId)| == 0) ==>
      o == InfoToast(NoGroupScores)
    ensures selectedId != "" && FindKelompok(ks, selectedId).Some? && |ScoresOf(ns, selectedId)| > 0 ==>
      (o.Thrown? <==> LeaderThrows(FindKelompok(ks, selectedId).value)) &&
      (o.Document? <==> !LeaderThrows(FindKelompok(ks, selectedId).value))
    ensures o.Document? ==>
      var k := FindKelompok(ks, selectedId).value;
      selectedId != "" && k.id == selectedId &&
      o.title == "Rekapitulasi Nilai per Kelompok" &&
      o.content == [Heading(LeaderName(k)), DplLine(DplName(k)), Spacer, ScoreTable(ScoreRows(ScoresOf(ns, selectedId)))] &&
      |ScoresOf(ns, selectedId)| > 0 &&
      (forall i :: 0 <= i < |ScoresOf(ns, selectedId)| ==> ScoresOf(ns, selectedId)[i].kelompok == selectedId) &&
      o.fileName == "nilai-kelompok-" + LeaderName(k) + ".docx"
  {
    if selectedId == "" then ErrorToast(PickGroup)
    else
      var kelompok := FindKelompok(ks, selectedId);
      var scores := ScoresOf(ns, selectedId);
      if kelompok.None? || |scores| == 0 then InfoToast(NoGroupScores)
      else
        var k := kelompok.value;
        if LeaderThrows(k) then Thrown
        else
          Document("Rekapitulasi Nilai per Kelompok",
                   [Heading(LeaderName(k)), DplLine(DplName(k)), Spacer, ScoreTable(ScoreRows(scores))],
                   "nilai-kelompok-" + LeaderName(k) + ".docx")
  }

  // ------------------------------------------------------------ overall recap

  /** The section of one group: heading, supervisor line, table, spacer;
      nothing for a group without scores. */
  function Section(k: Kelompok, ns: seq<NilaiRecord>): seq<Block> {
    var scores := ScoresOf(ns, k.id);
    if |scores| > 0 then
      [Heading(LeaderName(k)), DplLine(DplName(k)), ScoreTable(ScoreRows(scores)), Spacer]
    else []
  }

  /** The content the `forEach` over the groups pushes, in group order. */
  function RecapContent(ks: seq<Kelompok>, ns: seq<NilaiRecord>): seq<Block> {
    if |ks| == 0 then [] else RecapContent(ks[..|ks| - 1], ns) + Section(ks[|ks| - 1], ns)
  }

  /** Some group with scores has relations expanded but no leader, so the
      `forEach` throws when it reaches that group. */
  predicate RecapThrows(ks: seq<Kelompok>, ns: seq<NilaiRecord>) {
    exists i :: 0 <= i < |ks| && |ScoresOf(ns, ks[i].id)| > 0 && LeaderThrows(ks[i])
  }

  /** Extending the groups by one adds the throw of that group, if any. */
  lemma RecapThrowsStep(ks: seq<Kelompok>, ns: seq<NilaiRecord>, i: int)
    requires 0 <= i < |ks|
    ensures RecapThrows(ks[..i + 1], ns) <==>
      RecapThrows(ks[..i], ns) || (|ScoresOf(ns, ks[i].id)| > 0 && LeaderThrows(ks[i]))
    ensures |ScoresOf(ns, ks[i].id)| > 0 && LeaderThrows(ks[i]) ==> RecapThrows(ks, ns)
  {
    var pre, ext := ks[..i], ks[..i + 1];
    assert forall j :: 0 <= j < |pre| ==> pre[j] == ext[j];
    assert ext[i] == ks[i];
    if RecapThrows(ext, ns) && !RecapThrows(pre, ns) {
      var j :| 0 <= j < |ext| && |ScoresOf(ns, ext[j].id)| > 0 && LeaderThrows(ext[j]);
      assert j == i;
    }
  }

  /** `handleDownloadKeseluruhan`: nothing but an info message without any
      score; the leader expression's exception when a group with scores
      has an unexpanded leader; otherwise the document of all sections. */
  method DownloadKeseluruhan(ks: seq<Kelompok>, ns: seq<NilaiRecord>) returns (o: Outcome)
    ensures |ns| == 0 ==> o == InfoToast(NoScores)
    ensures |ns| > 0 && RecapThrows(ks, ns) ==> o == Thrown
    ensures |ns| > 0 && !RecapThrows(ks, ns) ==>
      o == Document("Rekapitulasi Nilai Keseluruhan", RecapContent(ks, ns), "rekap-nilai-keseluruhan.docx")
  {
    if |ns| == 0 {
      return InfoToast(NoScores);
    }
    var content: seq<Block> := [];
    var i := 0;
    while i < |ks|
      invariant 0 <= i <= |ks|
      invariant content == RecapContent(ks[..i], ns)
      invariant !RecapThrows(ks[..i], ns)
    {
      var k := ks[i];
      var scores := ScoresOf(ns, k.id);
      RecapThrowsStep(ks, ns, i);
      if |scores| > 0 {
        if LeaderThrows(k) {
          return Thrown;
        }
        content := content + [Heading(LeaderName(k))];
        content := content + [DplLine(DplName(k))];
        content := content + [ScoreTable(ScoreRows(scores))];
        content := content + [Spacer];
      }
      assert ks[..i + 1][..i] == ks[..i];
      i := i + 1;
    }
    assert ks[..i] == ks;
    return Document("Rekapitulasi Nilai Keseluruhan", content, "rekap-nilai-keseluruhan.docx");
  }

  /** The sections follow the order of the group list. */
  lemma {:induction false} RecapConcat(ks1: seq<Kelompok>, ks2: seq<Kelompok>, ns: seq<NilaiRecord>)
    ensures RecapContent(ks1 + ks2, ns) == RecapContent(ks1, ns) + RecapContent(ks2, ns)
    decreases |ks2|
  {
    if |ks2| == 0 {
      assert ks1 + ks2 == ks1;
    } else {
      var last := |ks2| - 1;
      assert (ks1 + ks2)[..|ks1 + ks2| - 1] == ks1 + ks2[..last];
      RecapConcat(ks1, ks2[..last], ns);
    }
  }

  /** A group contributes one four-block section exactly when it has scores. */
  function GroupsWithScores(ks: seq<Kelompok>, ns: seq<NilaiRecord>): seq<Kelompok> {
    Filter(ks, (k: Kelompok) => |ScoresOf(ns, k.id)| > 0)
  }

  lemma {:induction false} RecapLength(ks: seq<Kelompok>, ns: seq<NilaiRecord>)
    ensures |RecapContent(ks, ns)| == 4 * |GroupsWithScores(ks, ns)|
  {
    if |ks| > 0 {
      RecapLength(ks[..|ks| - 1], ns);
    }
  }

  /** A score whose group is not listed never shows up: adding it anywhere
      to the scores leaves the recap as it was. */
  lemma {:induction false} RecapIgnoresOrphan(ks: seq<Kelompok>, ns1: seq<NilaiRecord>, o: NilaiRecord, ns2: seq<NilaiRecord>)
    requires forall i :: 0 <= i < |ks| ==> ks[i].id != o.kelompok
    ensures RecapContent(ks, ns1 + [o] + ns2) == RecapContent(ks, ns1 + ns2)
  {
    if |ks| > 0 {
      var k := ks[|ks| - 1];
      RecapIgnoresOrphan(ks[..|ks| - 1], ns1, o, ns2);
      var p := (n: NilaiRecord) => n.kelompok == k.id;
      FilterConcat(ns1 + [o], ns2, p);
      FilterConcat(ns1, [o], p);
      FilterConcat(ns1, ns2, p);
      assert Filter([o], p) == [] by { FilterNone([o], p); }
      assert ScoresOf(ns1 + [o] + ns2, k.id) == ScoresOf(ns1 + ns2, k.id);
    }
  }

  /** Every table of the recap lists scores of its own section's group. */
  lemma {:induction false} RecapTablesBelong(ks: seq<Kelompok>, ns: seq<NilaiRecord>, b: int)
    requires 0 <= b < |RecapContent(ks, ns)| && RecapContent(ks, ns)[b].ScoreTable?
    ensures exists i :: 0 <= i < |ks| && RecapContent(ks, ns)[b] == ScoreTable(ScoreRows(ScoresOf(ns, ks[i].id)))
  {
    var init := ks[..|ks| - 1];
    var c := RecapContent(init, ns);
    if b < |c| {
      RecapTablesBelong(init, ns, b);
      var i :| 0 <= i < |init| && c[b] == ScoreTable(ScoreRows(ScoresOf(ns, init[i].id)));
      assert ks[i] == init[i];
    } else {
      assert RecapContent(ks, ns)[b] == ScoreTable(ScoreRows(ScoresOf(ns, ks[|ks| - 1].id)));
    }
  }

  /** The overall recap holds the section of each listed group, between
      the sections of the groups before it and those after it. */
  lemma RecapHasSection(ks: seq<Kelompok>, ns: seq<NilaiRecord>, i: int)
    requires 0 <= i < |ks|
    ensures RecapContent(ks, ns) == RecapContent(ks[..i], ns) + Section(ks[i], ns) + RecapContent(ks[i + 1..], ns)
  {
    assert ks == ks[..i] + [ks[i]] + ks[i + 1..];
    RecapConcat(ks[..i] + [ks[i]], ks[i + 1..], ns);
    RecapConcat(ks[..i], [ks[i]], ns);
    assert RecapContent([ks[i]], ns) == Section(ks[i], ns) by {
      assert [ks[i]][..0] == [];
    }
  }

  /** The per-group document shows the same heading, supervisor line and
      table as that group's section of the overall recap, only with the
      spacer before the table; and the group is the first one listed
      with the chosen id. */
  lemma PerGroupMatchesRecapSection(selectedId: string, ks: seq<Kelompok>, ns: seq<NilaiRecord>)
    requires DownloadPerKelompok(selectedId, ks, ns).Document?
    ensures var c := DownloadPerKelompok(selectedId, ks, ns).content;
      exists i :: FirstAt(ks, (k: Kelompok) => k.id == selectedId, i) &&
        var sec := Section(ks[i], ns);
        |sec| == 4 && c == [sec[0], sec[1], Spacer, sec[2]] &&
        RecapContent(ks, ns) == RecapContent(ks[..i], ns) + sec + RecapContent(ks[i + 1..], ns)
  {
    var i :| FirstAt(ks, (k: Kelompok) => k.id == selectedId, i) && ks[i] == FindKelompok(ks, selectedId).value;
    RecapHasSection(ks, ns, i);
  }
}
